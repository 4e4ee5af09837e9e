/** The faults of single calls, and how far a sequence of calls gets under them. */
module Faults {

  /** A call has no effect; takes effect and fails; takes effect, but its reply lacks the id. */
  datatype Fault = Fine | Refused | Lost | Blanked

  /** The fault of the next call, and the faults of the calls after it. */
  function Coming(faults: seq<Fault>): Fault { if faults == [] then Fine else faults[0] }

  function Rest(faults: seq<Fault>): seq<Fault> { if faults == [] then [] else faults[1..] }

  /** The create took effect, but its reply did not tell the new id. */
  predicate CreateLost(faults: seq<Fault>) { Coming(faults) == Lost || Coming(faults) == Blanked }

  /** The reply to the next call does not confirm it. */
  predicate Unconfirmed(faults: seq<Fault>) { Coming(faults) == Refused || Coming(faults) == Lost }

  /** The row could not be saved, and the deletion meant to undo the create was not confirmed. */
  predicate UndoFails(faults: seq<Fault>) {
    Coming(faults) != Fine && Unconfirmed(Rest(faults))
  }

  /** The create and the save after it leave a tunnel that no reply accounts for. */
  predicate EstablishFails(faults: seq<Fault>) {
    CreateLost(faults) || (Coming(faults) == Fine && UndoFails(Rest(faults)))
  }

  function Charge(s: string, lost: bool): multiset<string> { if lost then multiset{s} else multiset{} }

  /** Between a and b service s was charged with at most one mishap, with none unless a fault was met. */
  ghost predicate Charged(a: multiset<string>, b: multiset<string>, s: string, faults: int) {
    b == a || (b == a + multiset{s} && faults > 0)
  }

  // ----- plans

  /** A read; a write; a write whose reply must tell an id; a row; a create whose row is saved, or else undone; and a
      conflict, at which an operation ends. */
  datatype Call = Look | Put | PutForId | Save | Establish | Stop

  /** What a plan comes to: whether it gets to its end, whether an object was made and stays, whether a row was saved,
      and the faults left. */
  datatype Played = Played(going: bool, made: bool, saved: bool, rest: seq<Fault>)

  function Joined(a: Played, b: Played): Played {
    Played(b.going, a.made || b.made, a.saved || b.saved, b.rest)
  }

  function One(call: Call, faults: seq<Fault>): Played {
    var f, rest := Coming(faults), Rest(faults);
    match call
    case Look => Played(f == Fine, false, false, rest)
    case Put => Played(f == Fine || f == Blanked, f != Refused, false, rest)
    case PutForId => Played(f == Fine, f != Refused, false, rest)
    case Save => Played(f == Fine, false, f != Refused, rest)
    case Establish => Established(faults)
    case Stop => Played(false, false, false, faults)
  }

  function Established(faults: seq<Fault>): Played {
    var f, rest := Coming(faults), Rest(faults);
    if f != Fine then Played(false, f != Refused, false, rest)
    else if Coming(rest) == Fine then Played(true, true, true, Rest(rest))
    else Played(false, Coming(Rest(rest)) == Refused, Coming(rest) != Refused, Rest(Rest(rest)))
  }

  function Play(plan: seq<Call>, faults: seq<Fault>): Played
    decreases |plan|
  {
    if plan == [] then Played(true, false, false, faults)
    else
      var first := One(plan[0], faults);
      if first.going then Joined(first, Play(plan[1..], first.rest)) else first
  }

  /** One plan after the other. */
  lemma {:induction false} PlayBoth(a: seq<Call>, b: seq<Call>, faults: seq<Fault>)
    ensures var p := Play(a, faults);
            Play(a + b, faults) == if p.going then Joined(p, Play(b, p.rest)) else p
    decreases |a|
  {
    hide One;
    if a == [] {
      assert a + b == b;
    } else {
      assert (a + b)[1..] == a[1..] + b;
      PlayBoth(a[1..], b, One(a[0], faults).rest);
    }
  }

  lemma PlayNothing(faults: seq<Fault>)
    ensures Play([], faults) == Played(true, false, false, faults)
  {
  }

  lemma PlayOne(call: Call, faults: seq<Fault>)
    ensures Play([call], faults) == One(call, faults)
  {
    hide One;
  }

  lemma PlayNext(call: Call, plan: seq<Call>, faults: seq<Fault>)
    ensures var first := One(call, faults);
            Play([call] + plan, faults) == if first.going then Joined(first, Play(plan, first.rest)) else first
  {
    hide One;
    PlayOne(call, faults);
    PlayBoth([call], plan, faults);
  }
}
