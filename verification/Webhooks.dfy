/** The webhook retry queue: internal/webhook/dispatcher.go over the table operations of internal/store/webhooks.go.
    Times are seconds; delivery itself is an oracle, and events and deletions arrive between any two attempts. */
module Webhooks {
  import opened Basics

  type Id = string

  datatype Delivery = Delivery(webhook: string, event: string, payload: string, attempts: nat, due: int,
                               delivered: bool)

  type Rows = map<Id, Delivery>

  const BATCH: nat := 20
  const DAY: int := 86400

  // ----- backoff

  /** The delay after the given number of failed attempts. */
  function Delay(attempts: nat): int {
    if attempts >= 10 then DAY else Pow2(Min(attempts, 8))
  }

  /** From the first failure on: at least two seconds, and never less than before. */
  lemma DelayGrows(a: nat, b: nat)
    requires 1 <= a <= b
    ensures 2 <= Delay(a) <= Delay(b)
  {
    PowerOne();
    Powers();
    hide Pow2;
    Pow2Grows(1, Min(a, 8));
    Pow2Grows(Min(a, 8), Min(b, 8));
    Pow2Grows(Min(a, 8), 8);
  }

  /** The whole schedule: it doubles from two seconds on, stays at 256 after the eighth failure, and is a day from the
      tenth on. */
  lemma DelaySchedule()
    ensures Delay(1) == 2 && Delay(8) == 256 && Delay(9) == 256
    ensures forall a :: 1 <= a < 8 ==> Delay(a + 1) == 2 * Delay(a)
    ensures forall a :: a >= 10 ==> Delay(a) == 24 * 60 * 60
  {
    PowerOne();
    Powers();
    hide Pow2;
    forall a | 1 <= a < 8 ensures Delay(a + 1) == 2 * Delay(a) {
      Pow2Adds(a, 1);
    }
  }

  // ----- the table

  predicate Pending(rows: Rows, id: Id) { id in rows && !rows[id].delivered }

  predicate Due(rows: Rows, id: Id, now: int) { Pending(rows, id) && rows[id].due <= now }

  /** SELECT … ORDER BY next_attempt_at LIMIT: rows that are due, earliest first, and as many as there are up to the
      limit. The order of equal times is open. */
  ghost predicate Selected(rows: Rows, now: int, limit: nat, batch: seq<Id>) {
    && |batch| <= limit && Distinct(batch)
    && (forall i :: 0 <= i < |batch| ==> Due(rows, batch[i], now))
    && (forall i, j :: 0 <= i < j < |batch| ==> rows[batch[i]].due <= rows[batch[j]].due)
    && (forall id :: Due(rows, id, now) && id !in batch ==>
          |batch| == limit && forall i :: 0 <= i < |batch| ==> rows[batch[i]].due <= rows[id].due)
  }

  /** A batch in the making: it holds the earliest due rows, and `rest` holds the other due ones. */
  ghost predicate Picking(rows: Rows, now: int, rest: set<Id>, batch: seq<Id>) {
    && (forall id :: Due(rows, id, now) <==> id in rest || id in batch)
    && (forall id :: id in rest ==> id !in batch)
    && Distinct(batch) && (forall i :: 0 <= i < |batch| ==> Due(rows, batch[i], now))
    && (forall i, j :: 0 <= i < j < |batch| ==> rows[batch[i]].due <= rows[batch[j]].due)
    && (forall i, id :: 0 <= i < |batch| && id in rest ==> rows[batch[i]].due <= rows[id].due)
  }

  lemma PickOne(rows: Rows, now: int, rest: set<Id>, batch: seq<Id>, id: Id)
    requires Picking(rows, now, rest, batch) && id in rest
    requires forall other :: other in rest ==> other in rows && rows[id].due <= rows[other].due
    ensures Picking(rows, now, rest - {id}, batch + [id])
  {
  }

  function Inserted(rows: Rows, id: Id, webhook: string, event: string, payload: string, now: int): Rows {
    rows[id := Delivery(webhook, event, payload, 0, now, false)]
  }

  function Marked(rows: Rows, id: Id): Rows {
    if id in rows then rows[id := rows[id].(delivered := true)] else rows
  }

  function Retried(rows: Rows, id: Id, attempts: nat, due: int): Rows {
    if id in rows then rows[id := rows[id].(attempts := attempts, due := due)] else rows
  }

  /** ON DELETE CASCADE. */
  function Cascaded(rows: Rows, webhook: string): Rows {
    map id | id in rows && rows[id].webhook != webhook :: rows[id]
  }

  // ----- progress

  /** The other deliveries that may go first. */
  function Ahead(rows: Rows, id: Id): set<Id>
    requires id in rows
  {
    set other | other in rows && other != id && !rows[other].delivered && rows[other].due <= rows[id].due
  }

  /** From `a` to `b` the delivery waits untouched, and nothing gets ahead of it. */
  ghost predicate Waits(a: Rows, b: Rows, id: Id) {
    id in a && (id in b ==> b[id] == a[id] && Ahead(b, id) <= Ahead(a, id))
  }

  lemma WaitsTransitive(a: Rows, b: Rows, c: Rows, id: Id)
    requires Waits(a, b, id) && (id in b ==> Waits(b, c, id)) && (id !in b ==> id !in c)
    ensures Waits(a, c, id)
  {
  }

  lemma InsertWaits(rows: Rows, id: Id, other: Id, webhook: string, event: string, payload: string, now: int)
    requires id in rows && rows[id].due < now && other !in rows
    ensures Waits(rows, Inserted(rows, other, webhook, event, payload, now), id)
  {
  }

  lemma CascadeWaits(rows: Rows, id: Id, webhook: string)
    requires id in rows
    ensures Waits(rows, Cascaded(rows, webhook), id)
  {
  }

  lemma MarkWaits(rows: Rows, id: Id, other: Id)
    requires id in rows && id != other
    ensures Waits(rows, Marked(rows, other), id) && other !in Ahead(Marked(rows, other), id)
  {
  }

  lemma RetryWaits(rows: Rows, id: Id, other: Id, attempts: nat, now: int)
    requires id in rows && id != other && rows[id].due < now && attempts >= 1
    ensures var after := Retried(rows, other, attempts, now + Delay(attempts));
            Waits(rows, after, id) && other !in Ahead(after, id)
  {
    DelayGrows(attempts, attempts);
    hide Delay;
  }

  /** A delivery that a full batch passes over has the whole batch ahead of it. */
  lemma PassedOver(rows: Rows, now: int, batch: seq<Id>, id: Id)
    requires Selected(rows, now, BATCH, batch) && Due(rows, id, now) && id !in batch
    ensures |batch| == BATCH && Members(batch) <= Ahead(rows, id) && |Members(batch)| == BATCH
  {
    DistinctSize(batch);
  }

  lemma {:induction false} Earliest(rows: Rows, ids: set<Id>)
    requires ids != {} && ids <= rows.Keys
    ensures exists id :: id in ids && forall other :: other in ids ==> rows[id].due <= rows[other].due
    decreases ids
  {
    var id :| id in ids;
    if ids == {id} {
      assert forall other :: other in ids ==> other == id;
    } else {
      Earliest(rows, ids - {id});
      var best :| best in ids - {id} && forall other :: other in ids - {id} ==> rows[best].due <= rows[other].due;
      assert ids == ids - {id} + {id};
      if rows[id].due < rows[best].due {
        assert forall other :: other in ids ==> rows[id].due <= rows[other].due;
      } else {
        assert forall other :: other in ids ==> rows[best].due <= rows[other].due;
      }
    }
  }

  // ----- one round

  function Settled(rows: Rows, id: Id, attempts: nat, now: int, ok: bool): Rows {
    if ok then Marked(rows, id) else Retried(rows, id, attempts + 1, now + Delay(attempts + 1))
  }

  /** Without the dispatcher deliveries do not change, and go only with their webhook; nothing gets ahead of one whose
      time has come. */
  ghost predicate Evolved(a: Rows, used: set<Id>, now: int, b: Rows, deleted: set<string>) {
    && (forall id :: id in a && a[id].due < now ==> Waits(a, b, id))
    && (forall id :: id in b && id in used ==> id in a && b[id] == a[id])
    && (forall id :: id in a && id !in b ==> a[id].webhook in deleted)
  }

  ghost predicate Accepted(batch: seq<Id>, outcomes: seq<bool>, d: Id) {
    exists k :: 0 <= k < |outcomes| <= |batch| && batch[k] == d && outcomes[k]
  }

  /** An attempt at time t: an accepted delivery is delivered, a refused one is tried again later, and nothing else of
      it changes. */
  ghost predicate Answered(was: Delivery, now: Delivery, ok: bool, t: int) {
    if ok then now == was.(delivered := true)
    else
      && now == was.(attempts := was.attempts + 1, due := now.due)
      && now.due >= t + 2 && now.due == t + Delay(was.attempts + 1)
  }

  /** What has become of d after some of the batch, attempted at these times. */
  ghost predicate Fate(a: Rows, now: int, b: Rows, deleted: set<string>, batch: seq<Id>, outcomes: seq<bool>,
                       times: seq<int>, d: Id)
  {
    && d in a && |outcomes| == |times| <= |batch|
    && (d !in b ==> a[d].webhook in deleted)
    && (d in b ==> b[d].webhook == a[d].webhook)
    && (d in b ==> forall k :: 0 <= k < |outcomes| && batch[k] == d ==> Answered(a[d], b[d], outcomes[k], times[k]))
    && (d in b && d !in batch[..|outcomes|] ==> b[d] == a[d])
    && (d !in batch && a[d].due < now ==> Waits(a, b, d))
    && (d !in batch && a[d].due < now && d in b ==> forall k :: 0 <= k < |outcomes| ==> batch[k] !in Ahead(b, d))
  }

  lemma FateAtStart(a: Rows, now: int, deleted: set<string>, batch: seq<Id>, d: Id)
    ensures d in a ==> Fate(a, now, a, deleted, batch, [], [], d)
  {
  }

  lemma FateAfterWorld(a: Rows, now: int, r1: Rows, used: set<Id>, later: int, gone: set<string>, r2: Rows,
                       deleted: set<string>,
                       batch: seq<Id>, outcomes: seq<bool>, times: seq<int>, d: Id)
    requires Fate(a, now, r1, gone, batch, outcomes, times, d) && Evolved(r1, used, later, r2, deleted)
    requires now <= later && d in used && r1.Keys <= used && gone <= deleted
    ensures Fate(a, now, r2, deleted, batch, outcomes, times, d)
  {
    if d !in batch && a[d].due < now {
      assert d !in batch[..|outcomes|];
      WaitsTransitive(a, r1, r2, d);
    }
  }

  lemma FateAfterSettle(a: Rows, now: int, b: Rows, deleted: set<string>, batch: seq<Id>, outcomes: seq<bool>,
                        times: seq<int>, d: Id, attempts: nat, later: int, ok: bool)
    requires Fate(a, now, b, deleted, batch, outcomes, times, d) && |outcomes| < |batch| && now <= later
    requires Distinct(batch) && (batch[|outcomes|] == d ==> attempts == a[d].attempts)
    ensures var c := Settled(b, batch[|outcomes|], attempts, later, ok);
            Fate(a, now, c, deleted, batch, outcomes + [ok], times + [later], d)
  {
    DelayGrows(attempts + 1, attempts + 1);
    hide Delay;
    var k := |outcomes|;
    var other, c := batch[k], Settled(b, batch[k], attempts, later, ok);
    assert batch[..k + 1] == batch[..k] + [other];
    if d != other {
      if d in b && d !in batch && a[d].due < now {
        MarkWaits(b, d, other);
        RetryWaits(b, d, other, attempts + 1, later);
        WaitsTransitive(a, b, c, d);
      }
    }
  }

  lemma FateAtEnd(a: Rows, now: int, b: Rows, deleted: set<string>, batch: seq<Id>, outcomes: seq<bool>,
                  times: seq<int>, d: Id)
    requires Fate(a, now, b, deleted, batch, outcomes, times, d)
    requires |outcomes| == |batch| && Selected(a, now, BATCH, batch)
    ensures d !in b ==> a[d].webhook in deleted
    ensures d in b ==> forall k :: 0 <= k < |batch| && batch[k] == d ==> Answered(a[d], b[d], outcomes[k], times[k])
    ensures Pending(a, d) && d in b ==> (b[d].delivered <==> Accepted(batch, outcomes, d))
    ensures d in b && d !in batch ==> b[d] == a[d]
    ensures Pending(a, d) && d in b && d !in batch && a[d].due < now ==> |Ahead(b, d)| + BATCH <= |Ahead(a, d)|
  {
    assert batch[..|outcomes|] == batch;
    if Pending(a, d) && d in b && d !in batch && a[d].due < now {
      PassedOver(a, now, batch, d);
      var gone := Members(batch);
      assert Ahead(b, d) <= Ahead(a, d) - gone;
      SubsetSize(Ahead(b, d), Ahead(a, d) - gone);
      SubsetSize(gone, Ahead(a, d));
    }
  }

  // ----- many rounds

  datatype Round = Round(before: seq<Event>, oracle: seq<bool>, world: seq<seq<Event>>)

  ghost predicate AttemptedBy(batches: seq<seq<Id>>, r: nat, d: Id) {
    exists k :: 0 <= k < |batches| && k * BATCH <= r && d in batches[k]
  }

  /** After some rounds: attempted, gone with its webhook, or a batch per round closer. */
  ghost predicate Advanced(a: Rows, b: Rows, deleted: set<string>, batches: seq<seq<Id>>, d: Id)
    requires d in a
  {
    || AttemptedBy(batches, |Ahead(a, d)|, d) || a[d].webhook in deleted
    || (d in b && b[d] == a[d] && |Ahead(b, d)| + BATCH * |batches| <= |Ahead(a, d)|)
  }

  lemma WorldAdvances(a: Rows, b: Rows, gone: set<string>, batches: seq<seq<Id>>, d: Id, used: set<Id>, now: int,
                      c: Rows, deleted: set<string>)
    requires d in a && Advanced(a, b, gone, batches, d) && a[d].due < now
    requires Evolved(b, used, now, c, deleted) && d in used && gone <= deleted
    ensures Advanced(a, c, deleted, batches, d)
  {
    if d in b && d in c && b[d] == a[d] {
      SubsetSize(Ahead(c, d), Ahead(b, d));
    }
  }

  lemma RoundAdvances(a: Rows, b: Rows, gone: set<string>, batches: seq<seq<Id>>, d: Id, c: Rows, deleted: set<string>,
                      batch: seq<Id>)
    requires d in a && !a[d].delivered && Advanced(a, b, gone, batches, d) && gone <= deleted
    requires Pending(b, d) && d !in c ==> b[d].webhook in deleted
    requires Pending(b, d) && d in c && d !in batch ==> c[d] == b[d] && |Ahead(c, d)| + BATCH <= |Ahead(b, d)|
    ensures Advanced(a, c, deleted, batches + [batch], d)
  {
    var after := batches + [batch];
    if AttemptedBy(batches, |Ahead(a, d)|, d) {
      var k :| 0 <= k < |batches| && k * BATCH <= |Ahead(a, d)| && d in batches[k];
      assert d in after[k];
    } else if a[d].webhook !in gone && d in batch {
      assert d in after[|batches|];
    }
  }

  /** Once attempted, or gone, it stays so. */
  lemma StillAttempted(a: Rows, b: Rows, gone: set<string>, batches: seq<seq<Id>>, d: Id, c: Rows,
                       deleted: set<string>, batch: seq<Id>)
    requires d in a && Advanced(a, b, gone, batches, d) && gone <= deleted && !(d in b && b[d] == a[d])
    ensures Advanced(a, c, deleted, batches + [batch], d)
  {
    if AttemptedBy(batches, |Ahead(a, d)|, d) {
      var k :| 0 <= k < |batches| && k * BATCH <= |Ahead(a, d)| && d in batches[k];
      assert d in (batches + [batch])[k];
    }
  }

  /** Only the dispatcher makes a delivery pending again, or ends it. */
  lemma KeptAway(a: Rows, used: set<Id>, now: int, b: Rows, deleted: set<string>, d: Id)
    requires Evolved(a, used, now, b, deleted) && d in used
    ensures Pending(b, d) ==> Pending(a, d)
  {
  }

  lemma NotDue(rows: Rows, now: int, batch: seq<Id>, d: Id)
    requires Selected(rows, now, BATCH, batch)
    ensures d in batch ==> Pending(rows, d)
  {
  }

  lemma BatchIsPending(rows: Rows, now: int, batch: seq<Id>)
    requires Selected(rows, now, BATCH, batch)
    ensures Distinct(batch) && forall k :: 0 <= k < |batch| ==> Pending(rows, batch[k])
  {
  }

  // ----- the dispatcher

  /** The enabled webhooks of a listing, in its order. */
  function Enabled(list: seq<string>, webhooks: map<string, bool>): (order: seq<string>)
    ensures |order| <= |list| && forall w :: w in order <==> w in list && w in webhooks && webhooks[w]
    ensures Distinct(list) ==> Distinct(order)
  {
    if list == [] then []
    else
      var last := list[|list| - 1];
      Enabled(list[..|list| - 1], webhooks) + (if last in webhooks && webhooks[last] then [last] else [])
  }

  /** One new delivery for each webhook of `order`, with the tokens in their order. */
  function Queued(rows: Rows, order: seq<string>, tokens: seq<Id>, event: string, payload: string, now: int): Rows
    requires |order| <= |tokens|
  {
    if order == [] then rows
    else
      var n := |order| - 1;
      Inserted(Queued(rows, order[..n], tokens, event, payload, now), tokens[n], order[n], event, payload, now)
  }

  lemma NothingQueued(rows: Rows, webhooks: map<string, bool>, list: seq<string>, tokens: seq<Id>, event: string,
                      payload: string, now: int)
    ensures Enabled(list[..0], webhooks) == [] && Queued(rows, [], tokens, event, payload, now) == rows
  {
  }

  lemma EnabledNext(list: seq<string>, i: nat, webhooks: map<string, bool>)
    requires i < |list| && list[i] in webhooks
    ensures Enabled(list[..i + 1], webhooks) == Enabled(list[..i], webhooks) +
            (if webhooks[list[i]] then [list[i]] else [])
  {
    assert list[..i + 1][..i] == list[..i];
  }

  lemma QueuedNext(rows: Rows, order: seq<string>, w: string, tokens: seq<Id>, event: string, payload: string, now: int)
    requires |order| < |tokens|
    ensures Queued(rows, order + [w], tokens, event, payload, now) ==
            Inserted(Queued(rows, order, tokens, event, payload, now), tokens[|order|], w, event, payload, now)
  {
    assert (order + [w])[..|order|] == order;
  }

  /** What was queued stays as it is, and the new deliveries are due at once. */
  lemma {:induction false} QueuedMeans(rows: Rows, order: seq<string>, tokens: seq<Id>, event: string, payload: string,
                                       now: int)
    requires |order| <= |tokens| && Distinct(tokens) && forall t <- tokens :: t !in rows
    ensures var after := Queued(rows, order, tokens, event, payload, now);
            && (forall id :: id in rows ==> id in after && after[id] == rows[id])
            && (forall i :: 0 <= i < |order| ==>
                  tokens[i] in after && after[tokens[i]] == Delivery(order[i], event, payload, 0, now, false))
            && |after| == |rows| + |order|
            && (forall i :: |order| <= i < |tokens| ==> tokens[i] !in after)
    decreases |order|
  {
    if order != [] {
      QueuedMeans(rows, order[..|order| - 1], tokens, event, payload, now);
    }
  }

  /** What happens beside the dispatcher. */
  datatype Event =
    | Tick(seconds: nat)
    | Arrive(id: Id, webhook: string, event: string, payload: string)
    | Delete(webhook: string)

  class Dispatcher {
    var rows: Rows
    var webhooks: map<string, bool>  // id and whether it is enabled
    var clock: int
    var used: set<Id>                // tokens drawn so far
    ghost var deleted: set<string>   // webhooks deleted so far

    ghost predicate Valid()
      reads this
    {
      && rows.Keys <= used
      && forall id :: id in rows ==> rows[id].webhook in webhooks
    }

    constructor (webhooks: map<string, bool>, clock: int)
      ensures Valid() && rows == map[] && this.webhooks == webhooks && this.clock == clock && deleted == {}
    {
      rows, this.webhooks, this.clock, used, deleted := map[], webhooks, clock, {}, {};
    }

    /** QueueWebhookDelivery; a row needs its webhook, and a token is drawn once. */
    method Queue(id: Id, webhook: string, event: string, payload: string)
      requires Valid() && id !in used
      modifies `rows, `used
      ensures Valid() && used == old(used) + {id}
      ensures rows == if webhook in webhooks then Inserted(old(rows), id, webhook, event, payload, clock) else old(rows)
    {
      used := used + {id};
      if webhook in webhooks {
        rows := Inserted(rows, id, webhook, event, payload, clock);
      }
    }

    /** Enqueue, with the listing of the webhooks: one new delivery for each enabled one. */
    method Enqueue(event: string, payload: string, list: seq<string>, tokens: seq<Id>)
      requires Valid() && (forall w <- list :: w in webhooks)
      requires Distinct(tokens) && (forall id <- tokens :: id !in used) && |tokens| >= |list|
      modifies `rows, `used
      ensures Valid()
      ensures rows == Queued(old(rows), Enabled(list, webhooks), tokens, event, payload, clock)
    {
      hide Inserted;
      hide Enabled;
      hide Queued;
      NothingQueued(rows, webhooks, list, tokens, event, payload, clock);
      var n := 0;
      ghost var order := [];
      for i := 0 to |list|
        invariant Valid() && n == |order| <= i && order == Enabled(list[..i], webhooks)
        invariant rows == Queued(old(rows), order, tokens, event, payload, clock)
        invariant forall k :: n <= k < |tokens| ==> tokens[k] !in used
      {
        EnabledNext(list, i, webhooks);
        if webhooks[list[i]] {
          QueuedNext(old(rows), order, list[i], tokens, event, payload, clock);
          Queue(tokens[n], list[i], event, payload);
          n := n + 1;
          order := order + [list[i]];
        }
      }
      assert list[..|list|] == list;
    }

    /** PendingWebhookDeliveries; an odd limit counts as 20. */
    method PendingDeliveries(limit: int) returns (batch: seq<Id>)
      ensures Selected(rows, clock, if limit <= 0 || limit > 100 then BATCH else limit, batch)
    {
      var bound := if limit <= 0 || limit > 100 then BATCH else limit;
      batch := [];
      var rest := set id | id in rows && !rows[id].delivered && rows[id].due <= clock;
      while rest != {} && |batch| < bound
        invariant |batch| <= bound && Picking(rows, clock, rest, batch)
        decreases rest
      {
        Earliest(rows, rest);
        var id :| id in rest && forall other :: other in rest ==> rows[id].due <= rows[other].due;
        PickOne(rows, clock, rest, batch, id);
        rest := rest - {id};
        batch := batch + [id];
      }
    }

    /** Between two steps of the dispatcher. */
    method World(events: seq<Event>)
      requires Valid()
      modifies this
      ensures Valid() && clock >= old(clock) && Evolved(old(rows), old(used), old(clock), rows, deleted)
      ensures old(used) <= used && old(deleted) <= deleted
      ensures forall w :: w in old(webhooks) && w !in deleted ==> w in webhooks
      ensures forall id :: id in old(used) && id !in old(rows) ==> id !in rows
    {
      var i := 0;
      while i < |events|
        invariant 0 <= i <= |events| && Valid() && clock >= old(clock)
        invariant Evolved(old(rows), old(used), old(clock), rows, deleted)
        invariant old(used) <= used && old(deleted) <= deleted
        invariant forall w :: w in old(webhooks) && w !in deleted ==> w in webhooks
        invariant forall id :: id in old(used) && id !in old(rows) ==> id !in rows
      {
        OneEvent(events[i]);
        i := i + 1;
      }
    }

    method OneEvent(e: Event)
      requires Valid()
      modifies this
      ensures Valid() && clock >= old(clock) && Evolved(old(rows), old(used), old(clock), rows, deleted)
      ensures old(used) <= used && old(deleted) <= deleted
      ensures forall w :: w in old(webhooks) && w !in deleted ==> w in webhooks
      ensures forall id :: id in old(used) && id !in old(rows) ==> id !in rows
    {
      ghost var r0, c0 := rows, clock;
      match e {
        case Tick(seconds) => clock := clock + seconds;
        case Arrive(id, webhook, event, payload) =>
          if id !in used {
            Queue(id, webhook, event, payload);
            forall other | other in r0 && r0[other].due < c0 ensures Waits(r0, rows, other) {
              InsertWaits(r0, other, id, webhook, event, payload, c0);
            }
          }
        case Delete(webhook) =>
          rows := Cascaded(rows, webhook);
          webhooks := webhooks - {webhook};
          deleted := deleted + {webhook};
          forall other | other in r0 ensures Waits(r0, rows, other) {
            CascadeWaits(r0, other, webhook);
          }
      }
    }

    /** The outcome of one delivery: MarkWebhookDelivered or RetryWebhookDelivery. */
    method Settle(id: Id, attempts: nat, ok: bool)
      requires Valid()
      modifies `rows
      ensures Valid()
      ensures rows == Settled(old(rows), id, attempts, clock, ok) && rows.Keys == old(rows).Keys
    {
      rows := if ok then Marked(rows, id) else Retried(rows, id, attempts + 1, clock + Delay(attempts + 1));
    }

    /** One delivery as it was listed: what happens before it, and its outcome. */
    method Attempt(id: Id, first: Delivery, accepts: bool, events: seq<Event>) returns (ok: bool, ghost before: Rows)
      requires Valid()
      modifies this
      ensures Valid() && clock >= old(clock) && old(used) <= used && old(deleted) <= deleted
      ensures Evolved(old(rows), old(used), old(clock), before, deleted)
      ensures rows == Settled(before, id, first.attempts, clock, ok) && (ok <==> accepts && first.webhook in webhooks)
      ensures forall w :: w in old(webhooks) && w !in deleted ==> w in webhooks
      ensures forall other :: other in old(used) && other !in old(rows) ==> other !in rows
    {
      hide Evolved;
      hide Settled;
      World(events);
      before := rows;
      ok := first.webhook in webhooks && accepts;
      Settle(id, first.attempts, ok);
    }

    /** deliverPending: one round. `oracle` says which endpoints accept, `world` what happens before each attempt. For
        any delivery d that is pending at the start: unless it is attempted, it keeps its place, and a full batch is
        no longer ahead of it; an accepted attempt delivers it, a refused one puts it off; and otherwise it goes only
        with its webhook. */
    method DeliverPending(oracle: seq<bool>, world: seq<seq<Event>>, ghost d: Id)
      returns (batch: seq<Id>, outcomes: seq<bool>, ghost times: seq<int>)
      requires Valid()
      modifies this
      ensures Valid() && clock >= old(clock) && old(used) <= used && old(deleted) <= deleted
      ensures Selected(old(rows), old(clock), BATCH, batch) && |outcomes| == |times| == |batch|
      ensures forall k :: 0 <= k < |times| ==> old(clock) <= times[k] <= clock
      ensures forall k :: 0 <= k < |batch| && outcomes[k] ==> k < |oracle| && oracle[k]
      ensures forall k :: 0 <= k < |batch| && old(rows)[batch[k]].webhook !in deleted ==>
                (outcomes[k] <==> k < |oracle| && oracle[k])
      ensures old(Pending(rows, d)) && d !in rows ==> old(rows)[d].webhook in deleted
      ensures old(Pending(rows, d)) && d in rows ==> (rows[d].delivered <==> Accepted(batch, outcomes, d))
      ensures forall k :: 0 <= k < |batch| && batch[k] == d && d in rows && outcomes[k] ==>
                rows[d] == old(rows)[d].(delivered := true)
      ensures forall k :: 0 <= k < |batch| && batch[k] == d && d in rows && !outcomes[k] ==>
                && rows[d] == old(rows)[d].(attempts := old(rows)[d].attempts + 1, due := rows[d].due)
                && rows[d].due >= times[k] + 2 && rows[d].due == times[k] + Delay(old(rows)[d].attempts + 1)
      ensures d in old(rows) && !old(Pending(rows, d)) ==> d !in batch && (d in rows ==> rows[d] == old(rows)[d])
      ensures d in old(used) && d !in old(rows) ==> d !in rows
      ensures old(Pending(rows, d)) && d in rows && d !in batch ==> rows[d] == old(rows)[d]
      ensures old(Pending(rows, d)) && d in rows && d !in batch && old(rows[d].due < clock) ==>
                |Ahead(rows, d)| + BATCH <= |Ahead(old(rows), d)|
    {
      hide Fate;
      hide Selected;
      hide Evolved;
      hide Settled;
      hide Delay;
      hide Ahead;
      hide Accepted;
      ghost var r0, c0, u0 := rows, clock, used;
      batch := PendingDeliveries(20);
      NotDue(r0, c0, batch, d);
      BatchIsPending(r0, c0, batch);
      var shot := rows;
      outcomes, times := [], [];
      FateAtStart(r0, c0, deleted, batch, d);
      while |outcomes| < |batch|
        invariant |outcomes| == |times| <= |batch| && Valid() && clock >= c0 && u0 <= used && old(deleted) <= deleted
        invariant forall k :: 0 <= k < |times| ==> c0 <= times[k] <= clock
        invariant forall k :: 0 <= k < |outcomes| && outcomes[k] ==> k < |oracle| && oracle[k]
        invariant forall k :: 0 <= k < |outcomes| && r0[batch[k]].webhook !in deleted ==>
                    (outcomes[k] <==> k < |oracle| && oracle[k])
        invariant d in r0 ==> Fate(r0, c0, rows, deleted, batch, outcomes, times, d)
        invariant d in u0 && d !in r0 ==> d !in rows
        invariant forall id :: id in r0 && r0[id].webhook !in deleted ==> r0[id].webhook in webhooks
      {
        var k := |outcomes|;
        ghost var r1, u1, c1, gone := rows, used, clock, deleted;
        ghost var r2;
        var first := shot[batch[k]];
        var ok;
        ok, r2 := Attempt(batch[k], first, k < |oracle| && oracle[k], if k < |world| then world[k] else []);
        if d in r0 {
          FateAfterWorld(r0, c0, r1, u1, c1, gone, r2, deleted, batch, outcomes, times, d);
          FateAfterSettle(r0, c0, r2, deleted, batch, outcomes, times, d, first.attempts, clock, ok);
        }
        outcomes, times := outcomes + [ok], times + [clock];
      }
      if d in r0 {
        FateAtEnd(r0, c0, rows, deleted, batch, outcomes, times, d);
      }
    }

    /** Any rounds. A delivery whose time has come, with r others that may go first, is attempted within r/20 + 1
        rounds, whatever succeeds, fails or arrives meanwhile, unless its webhook is deleted; and once it has been
        accepted it is never sent again. */
    method Run(rounds: seq<Round>, ghost d: Id) returns (batches: seq<seq<Id>>, results: seq<seq<bool>>)
      requires Valid() && Pending(rows, d) && rows[d].due < clock
      modifies this
      ensures Valid() && |batches| == |results| == |rounds|
      ensures forall i, j :: 0 <= i < j < |batches| && Accepted(batches[i], results[i], d) ==> d !in batches[j]
      ensures var r := |Ahead(old(rows), d)|;
              |rounds| > r / BATCH ==>
                (exists k :: 0 <= k <= r / BATCH && d in batches[k]) || old(rows)[d].webhook in deleted
    {
      hide Evolved;
      hide Selected;
      hide Accepted;
      ghost var r0 := rows;
      batches, results := [], [];
      while |batches| < |rounds|
        invariant Valid() && |batches| == |results| <= |rounds| && r0[d].due < clock && d in used
        invariant forall i :: 0 <= i < |batches| && Accepted(batches[i], results[i], d) ==> !Pending(rows, d)
        invariant forall i, j :: 0 <= i < j < |batches| && Accepted(batches[i], results[i], d) ==> d !in batches[j]
        invariant Advanced(r0, rows, deleted, batches, d)
      {
        hide Advanced;
        var round := rounds[|batches|];
        ghost var r1, u1, c1, g1 := rows, used, clock, deleted;
        World(round.before);
        WorldAdvances(r0, r1, g1, batches, d, u1, c1, rows, deleted);
        ghost var r2, g2, c2 := rows, deleted, clock;
        KeptAway(r1, u1, c1, r2, g2, d);
        var batch, outcomes, times := DeliverPending(round.oracle, round.world, d);
        NotDue(r2, c2, batch, d);
        if Advanced(r0, r2, g2, batches, d) && Pending(r2, d) && r2[d] != r0[d] {
          StillAttempted(r0, r2, g2, batches, d, rows, deleted, batch);
        } else {
          RoundAdvances(r0, r2, g2, batches, d, rows, deleted, batch);
        }
        batches, results := batches + [batch], results + [outcomes];
      }
      ghost var r := |Ahead(r0, d)|;
      if |rounds| > r / BATCH && AttemptedBy(batches, r, d) {
        ghost var k :| 0 <= k < |batches| && k * BATCH <= r && d in batches[k];
        assert k <= r / BATCH;
      }
    }
  }
}
