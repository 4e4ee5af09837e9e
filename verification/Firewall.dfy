/** The rules that internal/engine/firewall.go keeps in the running fw4 input chain. Every nft call may fail before or
    after it has taken effect. */
module Firewall {
  import opened Basics
  import opened Text

  datatype Rule = Rule(handle: nat, comment: string, protocol: string, port: int)

  type Chain = seq<Rule>

  datatype Fault = Fine | Refused | Lost

  /** The parts of a GatewayMapping that reach the firewall. */
  datatype Mapping = Mapping(service: string, protocol: string, port: int)

  const TAG: string := "stundeck"

  // ----- comments

  predicate TokenChar(c: char) { 'a' <= c <= 'z' || 'A' <= c <= 'Z' || '0' <= c <= '9' || c == '_' || c == '-' }

  predicate IsToken(t: string) { forall i :: 0 <= i < |t| ==> TokenChar(t[i]) }

  function Token(value: string): (t: string)
    ensures IsToken(t)
  {
    if value == "" then "" else (if TokenChar(value[0]) then [value[0]] else "") + Token(value[1..])
  }

  lemma {:induction false} TokenGrows(s: string, c: char)
    ensures Token(s + [c]) == Token(s) + (if TokenChar(c) then [c] else "")
  {
    if s == "" {
      assert [c][1..] == "";
    } else {
      TokenGrows(s[1..], c);
      assert (s + [c])[1..] == s[1..] + [c];
    }
  }

  /** firewallCommentToken. */
  method CommentToken(value: string) returns (token: string)
    ensures token == Token(value)
  {
    token := "";
    for i := 0 to |value|
      invariant token == Token(value[..i])
    {
      TokenGrows(value[..i], value[i]);
      assert value[..i + 1] == value[..i] + [value[i]];
      if TokenChar(value[i]) {
        token := token + [value[i]];
      }
    }
    assert value[..|value|] == value;
  }

  function ShortId(id: string): string { if |id| > 12 then id[..12] else id }

  function TokenOf(service: string): string { Token(ShortId(service)) }

  function CommentPrefix(token: string): string { TAG + ":" + token + ":" }

  /** firewallProtocol. */
  function Protocol(text: string): Option<string> {
    var p := Lower(TrimSpace(text));
    if p == "tcp" || p == "udp" then Some(p) else None
  }

  /** The text names the protocol: in any case, between white space. */
  ghost predicate Spells(text: string, p: string) {
    exists left, core, right :: text == left + core + right && Blank(left) && Blank(right) && Letters(core, p)
  }

  predicate Letters(core: string, p: string) {
    && |core| == 3 && core[2] in {'p', 'P'}
    && ((p == "tcp" && core[0] in {'t', 'T'} && core[1] in {'c', 'C'})
        || (p == "udp" && core[0] in {'u', 'U'} && core[1] in {'d', 'D'}))
  }

  lemma LettersLower(core: string, p: string)
    ensures Letters(core, p) <==> Lower(core) == p && (p == "tcp" || p == "udp")
  {
    if |core| == 3 {
      assert Lower(core) == [LowerChar(core[0]), LowerChar(core[1]), LowerChar(core[2])];
      assert Lower(core) == p ==> |p| == 3;
      assert "tcp" == ['t', 'c', 'p'] && "udp" == ['u', 'd', 'p'];
    }
  }

  /** The accepted texts are those that name tcp or udp, and each names one. */
  lemma ProtocolSpells(text: string, p: string)
    ensures Protocol(text) == Some(p) <==> Spells(text, p)
  {
    hide Letters;
    hide Lower;
    hide TrimSpace;
    hide Blank;
    var t := TrimSpace(text);
    if Protocol(text) == Some(p) {
      TrimSpaceSplits(text);
      LettersLower(t, p);
    }
    if Spells(text, p) {
      var l, core, r :| text == l + core + r && Blank(l) && Blank(r) && Letters(core, p);
      LettersLower(core, p);
      LettersEnds(core, p);
      TrimSpaceIs(l, core, r);
    }
  }

  lemma LettersEnds(core: string, p: string)
    requires Letters(core, p)
    ensures |core| == 3 && !Blank(core[..1]) && !Blank(core[|core| - 1..])
  {
    assert core[..1][0] == core[0] && core[2..][0] == core[2];
  }

  function Decimal(n: nat): (s: string)
    ensures s != ""
  {
    if n < 10 then [('0' as int + n) as char] else Decimal(n / 10) + [('0' as int + n % 10) as char]
  }

  function CommentText(token: string, protocol: string, port: nat): string {
    CommentPrefix(token) + protocol + ":" + Decimal(port)
  }

  /** firewallComment. */
  function Comment(m: Mapping): Option<string> {
    if Protocol(m.protocol).None? || !(1 <= m.port <= 65535) then None
    else Some(CommentText(TokenOf(m.service), Protocol(m.protocol).value, m.port))
  }

  /** A token keeps letters, digits, underscores and hyphens in their order, and drops the rest. */
  lemma {:induction false} TokenSplits(a: string, c: char, b: string)
    ensures Token(a + [c] + b) == Token(a) + Token([c]) + Token(b) && Token("") == ""
    ensures Token([c]) ==
            if 'a' <= c <= 'z' || 'A' <= c <= 'Z' || '0' <= c <= '9' || c == '_' || c == '-' then [c] else ""
    decreases |a|
  {
    assert [c][1..] == "";
    if a == "" {
      assert (a + [c] + b)[1..] == b;
    } else {
      assert (a + [c] + b)[1..] == a[1..] + [c] + b;
      TokenSplits(a[1..], c, b);
    }
  }

  lemma {:induction false} TokenWhole(t: string)
    requires IsToken(t)
    ensures Token(t) == t
  {
    if t != "" {
      TokenWhole(t[1..]);
    }
  }

  /** Two services with plain ids share a token exactly when their ids agree in the first twelve characters. */
  lemma TokensShared(a: string, b: string)
    requires IsToken(a) && IsToken(b)
    ensures TokenOf(a) == TokenOf(b) <==> a == b || (|a| >= 12 && |b| >= 12 && a[..12] == b[..12])
  {
    TokenWhole(ShortId(a));
    TokenWhole(ShortId(b));
  }

  /** A comment as it stands in the chain. */
  lemma CommentSample()
    ensures Comment(Mapping("a.b_C-9", " TCP", 8080)) == Some("stundeck:ab_C-9:tcp:8080")
  {
    hide Token;
    hide Decimal;
    hide Protocol;
    SampleToken();
    SampleProtocol();
    DecimalNext(808, 0);
    DecimalNext(80, 8);
    DecimalNext(8, 0);
    DecimalDigit(8);
    var service := "a.b_C-9";
    assert ShortId(service) == service;
    assert Decimal(8080) == ['8'] + ['0'] + ['8'] + ['0'] == "8080";
    assert "stundeck" + ":" + "ab_C-9" + ":" + "tcp" + ":" + "8080" == "stundeck:ab_C-9:tcp:8080";
  }

  lemma SampleToken()
    ensures Token("a.b_C-9") == "ab_C-9"
  {
    TokenSplits("", 'a', ".b_C-9");
    TokenSplits("", '.', "b_C-9");
    TokenWhole("b_C-9");
    assert "" + ['a'] + ".b_C-9" == "a.b_C-9" && "" + ['.'] + "b_C-9" == ".b_C-9";
  }

  lemma SampleProtocol()
    ensures Protocol(" TCP") == Some("tcp")
  {
    assert Letters("TCP", "tcp");
    assert " TCP" == " " + "TCP" + "" && Blank(" ") && Blank("");
    ProtocolSpells(" TCP", "tcp");
  }

  lemma DecimalNext(n: nat, digit: nat)
    requires n > 0 && digit < 10
    ensures Decimal(10 * n + digit) == Decimal(n) + ["0123456789"[digit]]
  {
  }

  lemma DecimalDigit(digit: nat)
    requires digit < 10
    ensures Decimal(digit) == ["0123456789"[digit]]
  {
  }

  lemma {:induction false} DecimalInjective(m: nat, n: nat)
    requires Decimal(m) == Decimal(n)
    ensures m == n
  {
    var a, b := Decimal(m), Decimal(n);
    assert a[|a| - 1] == b[|b| - 1];
    if m >= 10 && n >= 10 {
      assert a[..|a| - 1] == Decimal(m / 10) && b[..|b| - 1] == Decimal(n / 10);
      DecimalInjective(m / 10, n / 10);
    }
  }

  /** Prefixes are prefix-free: a comment belongs to one token. */
  lemma PrefixFree(t: string, u: string, rest: string)
    requires IsToken(t) && IsToken(u)
    ensures CommentPrefix(t) <= CommentPrefix(u) + rest <==> t == u
  {
    var p, q := CommentPrefix(t), CommentPrefix(u) + rest;
    assert forall i :: 0 <= i < |t| ==> p[9 + i] == t[i];
    assert forall i :: 0 <= i < |u| ==> q[9 + i] == u[i];
    assert p[9 + |t|] == ':' && q[9 + |u|] == ':';
    if p <= q {
      assert forall i :: 0 <= i < |p| ==> p[i] == q[i];
      if |t| == |u| {
        assert forall i :: 0 <= i < |t| ==> t[i] == u[i];
      }
    }
  }

  /** A comment names its token, protocol and port. */
  lemma CommentsInjective(t: string, p: string, m: nat, u: string, q: string, n: nat)
    requires IsToken(t) && IsToken(u)
    requires IsProtocol(p) && IsProtocol(q)
    requires CommentText(t, p, m) == CommentText(u, q, n)
    ensures t == u && p == q && m == n
  {
    hide Decimal;
    hide IsToken;
    var a, b := p + ":" + Decimal(m), q + ":" + Decimal(n);
    assert CommentText(t, p, m) == CommentPrefix(t) + a && CommentText(u, q, n) == CommentPrefix(u) + b;
    PrefixFree(t, u, b);
    assert a == (CommentPrefix(t) + a)[|CommentPrefix(t)|..] == b;
    assert a[0] == p[0] && b[0] == q[0];
    assert a[4..] == Decimal(m) && b[4..] == Decimal(n);
    DecimalInjective(m, n);
  }

  // ----- the chain

  predicate Matches(r: Rule, pattern: string, exact: bool) {
    r.comment != "" && if exact then r.comment == pattern else pattern <= r.comment
  }

  /** findFirewallHandles: in chain order; an empty match finds nothing. */
  function Handles(chain: Chain, pattern: string, exact: bool): seq<nat> {
    if chain == [] || pattern == "" then []
    else (if Matches(chain[0], pattern, exact) then [chain[0].handle] else []) + Handles(chain[1..], pattern, exact)
  }

  function Without(chain: Chain, gone: set<nat>): Chain {
    if chain == [] then []
    else (if chain[0].handle in gone then [] else [chain[0]]) + Without(chain[1..], gone)
  }

  /** The rules outside a prefix, in order. */
  function Outside(chain: Chain, prefix: string): Chain {
    if chain == [] then []
    else (if prefix <= chain[0].comment then [] else [chain[0]]) + Outside(chain[1..], prefix)
  }

  /** Handles are unique, and below the next one. */
  ghost predicate Numbered(chain: Chain, next: nat) {
    && (forall r <- chain :: r.handle < next)
    && (forall i, j :: 0 <= i < j < |chain| ==> chain[i].handle != chain[j].handle)
  }

  /** The rules of one token agree on comment, protocol and port. */
  ghost predicate OnePort(chain: Chain, token: string) {
    var prefix := CommentPrefix(token);
    forall r, q :: r in chain && q in chain && prefix <= r.comment && prefix <= q.comment ==>
      r.comment == q.comment && r.protocol == q.protocol && r.port == q.port
  }

  ghost predicate OnePortEach(chain: Chain) {
    forall token :: IsToken(token) ==> OnePort(chain, token)
  }

  predicate IsProtocol(p: string) { p == "tcp" || p == "udp" }

  /** A rule with one of our comments opens what the comment says. */
  ghost predicate Truthful(chain: Chain) {
    forall r, token, p, n :: r in chain && IsToken(token) && IsProtocol(p) && r.comment == CommentText(token, p, n) ==>
      r.protocol == p && r.port == n
  }

  /** The rules under the prefix of the mapping are there, and carry exactly its comment. */
  ghost predicate Opened(chain: Chain, m: Mapping) {
    && Comment(m).Some?
    && (exists r :: r in chain && r.comment == Comment(m).value)
    && forall r :: r in chain && CommentPrefix(TokenOf(m.service)) <= r.comment ==> r.comment == Comment(m).value
  }

  lemma {:induction false} HandlesAre(chain: Chain, pattern: string, exact: bool)
    requires pattern != ""
    ensures forall h :: h in Handles(chain, pattern, exact) <==>
              exists r :: r in chain && r.handle == h && Matches(r, pattern, exact)
  {
    if chain != [] {
      HandlesAre(chain[1..], pattern, exact);
      assert chain == [chain[0]] + chain[1..];
    }
  }

  lemma {:induction false} WithoutAre(chain: Chain, gone: set<nat>)
    ensures forall r :: r in Without(chain, gone) <==> r in chain && r.handle !in gone
  {
    if chain != [] {
      WithoutAre(chain[1..], gone);
      assert chain == [chain[0]] + chain[1..];
    }
  }

  lemma {:induction false} WithoutNumbered(chain: Chain, gone: set<nat>, next: nat)
    requires Numbered(chain, next)
    ensures Numbered(Without(chain, gone), next)
  {
    WithoutAre(chain, gone);
    if chain != [] {
      var rest := chain[1..];
      WithoutNumbered(rest, gone, next);
      WithoutAre(rest, gone);
    }
  }

  lemma {:induction false} WithoutTwice(chain: Chain, a: set<nat>, b: set<nat>)
    ensures Without(Without(chain, a), b) == Without(chain, a + b)
  {
    if chain != [] {
      WithoutTwice(chain[1..], a, b);
      var rest := Without(chain[1..], a);
      assert ([chain[0]] + rest)[1..] == rest;
      if chain[0].handle in a {
        assert Without(chain, a) == rest;
      } else {
        assert Without(chain, a) == [chain[0]] + rest;
      }
    }
  }

  lemma {:induction false} WithoutNone(chain: Chain, gone: set<nat>)
    requires forall r <- chain :: r.handle !in gone
    ensures Without(chain, gone) == chain
  {
    if chain != [] {
      WithoutNone(chain[1..], gone);
    }
  }

  /** Removing rules under the prefix leaves the others in their order. */
  lemma {:induction false} OutsideKept(chain: Chain, gone: set<nat>, prefix: string)
    requires forall r <- chain :: r.handle in gone ==> prefix <= r.comment
    ensures Outside(Without(chain, gone), prefix) == Outside(chain, prefix)
  {
    if chain != [] {
      OutsideKept(chain[1..], gone, prefix);
      var rest := Without(chain[1..], gone);
      assert ([chain[0]] + rest)[1..] == rest;
      if chain[0].handle in gone {
        assert Without(chain, gone) == rest;
      } else {
        assert Without(chain, gone) == [chain[0]] + rest;
      }
    }
  }

  lemma WithoutKeepsOrder(chain: Chain, gone: set<nat>)
    ensures OnePortEach(chain) ==> OnePortEach(Without(chain, gone))
    ensures Truthful(chain) ==> Truthful(Without(chain, gone))
  {
    WithoutAre(chain, gone);
    if OnePortEach(chain) {
      forall token | IsToken(token) ensures OnePort(Without(chain, gone), token) {
        assert OnePort(chain, token);
      }
    }
  }

  /** A rule may be inserted for a service that has none. */
  lemma InsertKeepsOnePort(chain: Chain, r: Rule, token: string, rest: string)
    requires OnePortEach(chain) && IsToken(token) && r.comment == CommentPrefix(token) + rest
    requires forall q <- chain :: !(CommentPrefix(token) <= q.comment)
    ensures OnePortEach([r] + chain)
  {
    hide CommentPrefix;
    forall other | IsToken(other) ensures OnePort([r] + chain, other) {
      assert OnePort(chain, other);
      PrefixFree(other, token, rest);
    }
  }

  lemma InsertKeepsTruth(chain: Chain, r: Rule, token: string, p: string, n: nat)
    requires Truthful(chain) && IsToken(token) && IsProtocol(p) && r.comment == CommentText(token, p, n)
    requires r.protocol == p && r.port == n
    ensures Truthful([r] + chain)
  {
    hide CommentText;
    hide IsToken;
    hide IsProtocol;
    forall q, t, o, k | q in [r] + chain && IsToken(t) && IsProtocol(o) && q.comment == CommentText(t, o, k)
      ensures q.protocol == o && q.port == k
    {
      if q == r {
        CommentsInjective(token, p, n, t, o, k);
      }
    }
  }

  /** A handle names one rule. */
  lemma HandleUnique(chain: Chain, next: nat, r: Rule, q: Rule)
    requires Numbered(chain, next) && r in chain && q in chain && r.handle == q.handle
    ensures r == q
  {
  }

  /** What deleting some of the stale handles does, and what deleting all of them does. */
  lemma PruneEffect(c: Chain, next: nat, prefix: string, keep: string, handles: seq<nat>, keepHandles: seq<nat>,
                    stale: seq<nat>,
                    gone: set<nat>, all: bool)
    requires Numbered(c, next) && prefix != "" && keep != ""
    requires handles == Handles(c, prefix, false) && keepHandles == Handles(c, keep, true)
    requires forall h :: h in stale <==> h in handles && h !in keepHandles
    requires gone <= Members(stale) && (all ==> gone == Members(stale))
    ensures var d := Without(c, gone);
            && Outside(d, prefix) == Outside(c, prefix)
            && (forall r :: r in d ==> r in c)
            && (forall r :: r in c && r.comment == keep ==> r in d)
            && (all ==> forall r :: r in d && prefix <= r.comment ==> r.comment == keep)
            && ((forall r :: r in c && prefix <= r.comment ==> r.comment == keep) ==> d == c)
  {
    hide Without;
    hide Outside;
    hide Handles;
    HandlesAre(c, prefix, false);
    HandlesAre(c, keep, true);
    WithoutAre(c, gone);
    forall r | r in c ensures r.handle in stale <==> prefix <= r.comment && r.comment != "" && r.comment != keep {
      if r.handle in handles {
        var q :| q in c && q.handle == r.handle && Matches(q, prefix, false);
        HandleUnique(c, next, r, q);
      }
      if r.handle in keepHandles {
        var q :| q in c && q.handle == r.handle && Matches(q, keep, true);
        HandleUnique(c, next, r, q);
      }
    }
    OutsideKept(c, gone, prefix);
    if forall r :: r in c && prefix <= r.comment ==> r.comment == keep {
      WithoutNone(c, gone);
    }
  }

  lemma CommentUnderPrefix(m: Mapping)
    requires Comment(m).Some?
    ensures Comment(m).value != "" && CommentPrefix(TokenOf(m.service)) <= Comment(m).value
    ensures CommentPrefix(TokenOf(m.service)) != ""
  {
  }

  /** After the prune, a rule with the comment is all or nothing. */
  lemma ExistingDecides(c: Chain, m: Mapping, existing: seq<nat>)
    requires Comment(m).Some? && existing == Handles(c, Comment(m).value, true)
    requires forall r :: r in c && CommentPrefix(TokenOf(m.service)) <= r.comment ==> r.comment == Comment(m).value
    ensures existing == [] ==> forall q <- c :: !(CommentPrefix(TokenOf(m.service)) <= q.comment)
    ensures existing != [] ==> Opened(c, m)
  {
    CommentUnderPrefix(m);
    HandlesAre(c, Comment(m).value, true);
    hide Handles;
    hide Comment;
    hide CommentPrefix;
    hide TokenOf;
    if existing == [] {
      assert forall q <- c :: q.handle !in existing;
      assert forall q <- c :: !Matches(q, Comment(m).value, true);
    } else {
      assert existing[0] in existing;
    }
  }

  /** In a truthful chain an opened mapping has a rule, and all its rules are for its port and protocol. */
  lemma OpenedMeans(chain: Chain, m: Mapping)
    requires Opened(chain, m) && Truthful(chain)
    ensures exists r :: r in chain && CommentPrefix(TokenOf(m.service)) <= r.comment
    ensures forall r :: r in chain && CommentPrefix(TokenOf(m.service)) <= r.comment ==>
              r.port == m.port && Spells(m.protocol, r.protocol)
  {
    CommentUnderPrefix(m);
    TokenOfIs(m.service);
    ProtocolIs(m.protocol);
    hide TokenOf;
    hide Protocol;
    hide Decimal;
    hide Spells;
    forall r | r in chain && CommentPrefix(TokenOf(m.service)) <= r.comment
      ensures r.port == m.port && Spells(m.protocol, r.protocol)
    {
      assert r.comment == CommentText(TokenOf(m.service), Protocol(m.protocol).value, m.port);
      ProtocolSpells(m.protocol, r.protocol);
    }
  }

  lemma OpenedIs(chain: Chain, m: Mapping)
    ensures Opened(chain, m) ==>
              Comment(m).Some? && exists r :: r in chain && r.comment == Comment(m).value
    ensures Opened(chain, m) ==>
              forall r :: r in chain && CommentPrefix(TokenOf(m.service)) <= r.comment ==> r.comment == Comment(m).value
  {
  }

  lemma FewerTruthful(c: Chain, d: Chain)
    requires forall r :: r in d ==> r in c
    ensures Truthful(c) ==> Truthful(d)
  {
  }

  lemma AcceptedIff(m: Mapping)
    ensures Comment(m).Some? <==>
              (Spells(m.protocol, "tcp") || Spells(m.protocol, "udp")) && 1 <= m.port <= 65535
  {
    ProtocolSpells(m.protocol, "tcp");
    ProtocolSpells(m.protocol, "udp");
    ProtocolIs(m.protocol);
    hide Spells;
    hide Protocol;
  }

  lemma CommentNotEmpty(m: Mapping)
    requires Comment(m).Some?
    ensures Comment(m).value != ""
  {
  }

  lemma InsertEffect(c: Chain, m: Mapping, r: Rule)
    requires Comment(m).Some? && r.comment == Comment(m).value && r.protocol == Protocol(m.protocol).value
    requires r.port == m.port
    requires forall q <- c :: !(CommentPrefix(TokenOf(m.service)) <= q.comment)
    ensures OnePortEach(c) ==> OnePortEach([r] + c)
    ensures Truthful(c) ==> Truthful([r] + c)
    ensures Outside([r] + c, CommentPrefix(TokenOf(m.service))) == Outside(c, CommentPrefix(TokenOf(m.service)))
    ensures Opened([r] + c, m)
  {
    hide TokenOf;
    hide Protocol;
    hide Decimal;
    hide OnePortEach;
    hide Truthful;
    var token, p := TokenOf(m.service), Protocol(m.protocol).value;
    TokenOfIs(m.service);
    ProtocolIs(m.protocol);
    CommentUnderPrefix(m);
    assert ([r] + c)[1..] == c;
    assert r.comment == CommentPrefix(token) + (p + ":" + Decimal(m.port));
    if OnePortEach(c) {
      InsertKeepsOnePort(c, r, token, p + ":" + Decimal(m.port));
    }
    if Truthful(c) {
      InsertKeepsTruth(c, r, token, p, m.port);
    }
  }

  lemma TokenOfIs(service: string)
    ensures IsToken(TokenOf(service))
  {
  }

  lemma ProtocolIs(text: string)
    ensures Protocol(text).Some? ==> IsProtocol(Protocol(text).value)
  {
  }

  lemma RemoveEffect(c: Chain, next: nat, comment: string, handles: seq<nat>, gone: set<nat>, all: bool)
    requires Numbered(c, next) && comment != "" && handles == Handles(c, comment, true)
    requires gone <= Members(handles) && (all ==> gone == Members(handles))
    ensures var d := Without(c, gone);
            && Outside(d, comment) == Outside(c, comment)
            && (forall r :: r in c && r.comment != comment ==> r in d)
            && (forall r :: r in d ==> r in c)
            && (all ==> forall r :: r in d ==> r.comment != comment)
  {
    hide Without;
    hide Outside;
    hide Handles;
    HandlesAre(c, comment, true);
    WithoutAre(c, gone);
    forall r | r in c && r.handle in gone ensures r.comment == comment {
      var q :| q in c && q.handle == r.handle && Matches(q, comment, true);
      HandleUnique(c, next, r, q);
    }
    OutsideKept(c, gone, comment);
  }

  // ----- the firewall

  class Firewall {
    var chain: Chain
    var next: nat
    var oracle: seq<Fault>           // faults of the calls to come
    ghost var trouble: nat           // faults met so far
    ghost var history: seq<Chain>    // every state the chain has been in

    ghost predicate Valid()
      reads this
    {
      Numbered(chain, next)
    }

    /** In every state so far, each service had rules for at most one protocol and port. */
    ghost predicate AlwaysOnePort()
      reads this
    {
      OnePortEach(chain) && forall state <- history :: OnePortEach(state)
    }

    /** In every state so far, a rule with one of our comments opened what the comment says. */
    ghost predicate AlwaysTruthful()
      reads this
    {
      Truthful(chain) && forall state <- history :: Truthful(state)
    }

    constructor (chain: Chain, next: nat, oracle: seq<Fault>)
      requires Numbered(chain, next)
      ensures Valid() && this.chain == chain && history == [chain] && trouble == 0
    {
      this.chain, this.next, this.oracle, trouble, history := chain, next, oracle, 0, [chain];
    }

    method Draw() returns (f: Fault)
      modifies `oracle, `trouble
      ensures trouble == old(trouble) + if f == Fine then 0 else 1
    {
      f := if oracle == [] then Fine else oracle[0];
      oracle := if oracle == [] then [] else oracle[1..];
      trouble := trouble + if f == Fine then 0 else 1;
    }

    /** runNFT with a script that leads to this chain. */
    method RunNft(to: Chain) returns (ok: bool)
      modifies `chain, `oracle, `trouble, `history
      ensures trouble >= old(trouble) && (ok <==> trouble == old(trouble))
      ensures chain == to || (!ok && chain == old(chain))
      ensures history == old(history) + [chain]
    {
      var f := Draw();
      if f != Refused {
        chain := to;
      }
      history := history + [chain];
      ok := f == Fine;
    }

    method Find(pattern: string, exact: bool) returns (ok: bool, handles: seq<nat>)
      modifies `oracle, `trouble
      ensures trouble >= old(trouble) && (ok <==> trouble == old(trouble))
      ensures ok ==> handles == Handles(chain, pattern, exact)
    {
      handles := [];
      if pattern == "" {
        return true, [];
      }
      var f := Draw();
      ok := f == Fine;
      for i := 0 to |chain|
        invariant handles + Handles(chain[i..], pattern, exact) == Handles(chain, pattern, exact)
      {
        assert chain[i..][1..] == chain[i + 1..];
        if Matches(chain[i], pattern, exact) {
          handles := handles + [chain[i].handle];
        }
      }
      assert chain[|chain|..] == [];
    }

    method DeleteOne(handle: nat) returns (ok: bool)
      requires Valid()
      modifies `chain, `oracle, `trouble, `history
      ensures Valid() && trouble >= old(trouble) && (ok <==> trouble == old(trouble))
      ensures chain == Without(old(chain), {handle}) || (!ok && chain == old(chain))
      ensures old(AlwaysOnePort()) ==> AlwaysOnePort()
      ensures old(AlwaysTruthful()) ==> AlwaysTruthful()
    {
      hide OnePortEach;
      hide Truthful;
      hide Numbered;
      hide Without;
      WithoutNumbered(chain, {handle}, next);
      WithoutKeepsOrder(chain, {handle});
      ok := RunNft(Without(chain, {handle}));
    }

    /** deleteFirewallHandleList: all are tried, and one failure fails the whole. `gone` are the rules deleted. */
    method DeleteList(handles: seq<nat>) returns (ok: bool, ghost gone: set<nat>)
      requires Valid()
      modifies `chain, `oracle, `trouble, `history
      ensures Valid() && trouble >= old(trouble) && (ok <==> trouble == old(trouble))
      ensures chain == Without(old(chain), gone) && gone <= Members(handles)
      ensures ok ==> gone == Members(handles)
      ensures old(AlwaysOnePort()) ==> AlwaysOnePort()
      ensures old(AlwaysTruthful()) ==> AlwaysTruthful()
    {
      ok, gone := true, {};
      ghost var c0, t0 := chain, trouble;
      WithoutNone(chain, {});
      for i := 0 to |handles|
        invariant Valid() && trouble >= t0 && (ok <==> trouble == t0)
        invariant chain == Without(c0, gone) && gone <= Members(handles[..i])
        invariant ok ==> gone == Members(handles[..i])
        invariant old(AlwaysOnePort()) ==> AlwaysOnePort()
        invariant old(AlwaysTruthful()) ==> AlwaysTruthful()
      {
        hide OnePortEach;
        hide Truthful;
        hide Numbered;
        hide Without;
        hide Members;
        ghost var c := chain;
        MembersNext(handles, i);
        WithoutTwice(c0, gone, {handles[i]});
        var done := DeleteOne(handles[i]);
        if chain != c || done {
          gone := gone + {handles[i]};
        }
        ok := ok && done;
      }
      assert handles[..|handles|] == handles;
    }

    /** pruneFirewallRules: the rules under the prefix go, except those with the comment to keep. */
    method Prune(prefix: string, keep: string) returns (ok: bool)
      requires Valid() && prefix != "" && keep != ""
      modifies `chain, `oracle, `trouble, `history
      ensures Valid() && trouble >= old(trouble) && (ok <==> trouble == old(trouble))
      ensures old(AlwaysOnePort()) ==> AlwaysOnePort()
      ensures old(AlwaysTruthful()) ==> AlwaysTruthful()
      ensures Outside(chain, prefix) == Outside(old(chain), prefix)
      ensures forall r :: r in chain ==> r in old(chain)
      ensures forall r :: r in old(chain) && r.comment == keep ==> r in chain
      ensures ok ==> forall r :: r in chain && prefix <= r.comment ==> r.comment == keep
      ensures (forall r :: r in old(chain) && prefix <= r.comment ==> r.comment == keep) ==> chain == old(chain)
    {
      hide OnePortEach;
      hide Truthful;
      hide Without;
      hide Outside;
      hide Handles;
      ghost var c0 := chain;
      var handles, keepHandles;
      ok, handles := Find(prefix, false);
      if !ok {
        return;
      }
      ok, keepHandles := Find(keep, true);
      if !ok {
        return;
      }
      var protected, stale := set h | h in keepHandles, [];
      for i := 0 to |handles|
        invariant forall h :: h in stale <==> h in handles[..i] && h !in protected
      {
        assert handles[..i + 1] == handles[..i] + [handles[i]];
        if handles[i] !in protected {
          stale := stale + [handles[i]];
        }
      }
      assert handles[..|handles|] == handles;
      ghost var gone;
      ok, gone := DeleteList(stale);
      PruneEffect(c0, next, prefix, keep, handles, keepHandles, stale, gone, ok);
    }

    /** applyFirewallMapping: whatever fails, other rules keep their order and each service has one port at any time;
        success means exactly the wanted comment is there; and applied again it changes nothing. */
    method Apply(m: Mapping) returns (ok: bool)
      requires Valid()
      modifies `chain, `next, `oracle, `trouble, `history
      ensures Valid() && trouble >= old(trouble) && (ok <==> trouble == old(trouble) && Comment(m).Some?)
      ensures old(AlwaysOnePort()) ==> AlwaysOnePort()
      ensures old(AlwaysTruthful()) ==> AlwaysTruthful()
      ensures Outside(chain, CommentPrefix(TokenOf(m.service))) ==
              Outside(old(chain), CommentPrefix(TokenOf(m.service)))
      ensures ok ==> Opened(chain, m)
      ensures ok <==> && trouble == old(trouble) && 1 <= m.port <= 65535
                      && (Spells(m.protocol, "tcp") || Spells(m.protocol, "udp"))
      ensures old(Truthful(chain)) ==> Truthful(chain)
      ensures ok && old(Truthful(chain)) ==>
                && (exists r :: r in chain && CommentPrefix(TokenOf(m.service)) <= r.comment)
                && forall r :: r in chain && CommentPrefix(TokenOf(m.service)) <= r.comment ==>
                     r.port == m.port && Spells(m.protocol, r.protocol)
      ensures old(Opened(chain, m)) ==> chain == old(chain)
    {
      hide Spells;
      hide OnePortEach;
      hide Truthful;
      hide Outside;
      hide Handles;
      hide CommentText;
      hide Protocol;
      hide TokenOf;
      hide CommentPrefix;
      hide Opened;
      hide Comment;
      AcceptedIff(m);
      var prefix := CommentPrefix(TokenOf(m.service));
      if Comment(m).None? {
        return false;
      }
      var comment := Comment(m).value;
      CommentUnderPrefix(m);
      ghost var c0 := chain;
      OpenedIs(c0, m);
      ok := Prune(prefix, comment);
      FewerTruthful(c0, chain);
      if ok {
        var existing;
        ok, existing := Find(comment, true);
        if ok {
          ExistingDecides(chain, m, existing);
          if existing == [] {
            ok := Insert(m);
          }
          if ok && Truthful(chain) {
            OpenedMeans(chain, m);
          }
        }
      }
    }

    /** insert rule: in front, once no rule of the service is left. */
    method Insert(m: Mapping) returns (ok: bool)
      requires Valid() && Comment(m).Some?
      requires forall q <- chain :: !(CommentPrefix(TokenOf(m.service)) <= q.comment)
      modifies `chain, `next, `oracle, `trouble, `history
      ensures Valid() && trouble >= old(trouble) && (ok <==> trouble == old(trouble))
      ensures old(AlwaysOnePort()) ==> AlwaysOnePort()
      ensures old(AlwaysTruthful()) ==> AlwaysTruthful()
      ensures Outside(chain, CommentPrefix(TokenOf(m.service))) ==
              Outside(old(chain), CommentPrefix(TokenOf(m.service)))
      ensures ok ==> Opened(chain, m)
      ensures old(Truthful(chain)) ==> Truthful(chain)
      ensures ok ==> exists r :: r in chain && CommentPrefix(TokenOf(m.service)) <= r.comment
    {
      hide OnePortEach;
      hide Truthful;
      hide CommentText;
      hide Protocol;
      hide TokenOf;
      hide Outside;
      var r := Rule(next, Comment(m).value, Protocol(m.protocol).value, m.port);
      next := next + 1;
      CommentUnderPrefix(m);
      InsertEffect(chain, m, r);
      ok := RunNft([r] + chain);
    }

    /** removeFirewallMapping. */
    method Remove(m: Mapping) returns (ok: bool)
      requires Valid()
      modifies `chain, `oracle, `trouble, `history
      ensures Valid() && trouble >= old(trouble) && (ok <==> trouble == old(trouble) && Comment(m).Some?)
      ensures old(AlwaysOnePort()) ==> AlwaysOnePort()
      ensures old(AlwaysTruthful()) ==> AlwaysTruthful()
      ensures Comment(m).Some? ==> Outside(chain, Comment(m).value) == Outside(old(chain), Comment(m).value)
      ensures forall r :: r in old(chain) && Some(r.comment) != Comment(m) ==> r in chain
      ensures forall r :: r in chain ==> r in old(chain)
      ensures ok ==> forall r :: r in chain ==> Some(r.comment) != Comment(m)
    {
      hide OnePortEach;
      hide Truthful;
      hide Comment;
      hide Without;
      hide Outside;
      hide Handles;
      if Comment(m).None? {
        return false;
      }
      var handles;
      ghost var c, gone := chain, {};
      ok, handles := Find(Comment(m).value, true);
      if !ok {
        return;
      }
      ok, gone := DeleteList(handles);
      CommentNotEmpty(m);
      RemoveEffect(c, next, Comment(m).value, handles, gone, ok);
    }

    /** Any applies and removals, one after the other, with any failures: at every moment each service has rules for at
        most one protocol and port. */
    method Run(applies: seq<(bool, Mapping)>)
      requires Valid()
      modifies this
      ensures Valid()
      ensures old(AlwaysOnePort()) ==> AlwaysOnePort()
      ensures old(AlwaysTruthful()) ==> AlwaysTruthful()
    {
      for i := 0 to |applies|
        invariant Valid()
        invariant old(AlwaysOnePort()) ==> AlwaysOnePort()
        invariant old(AlwaysTruthful()) ==> AlwaysTruthful()
      {
        if applies[i].0 {
          var ok := Apply(applies[i].1);
        } else {
          var ok := Remove(applies[i].1);
        }
      }
    }
  }
}
