/** Access requests and the read-back of Access policies: internal/cloudflare/access.go. */
module Access {
  import opened Basics
  import opened Text

  datatype Request = Request(hostname: string, emails: seq<string>, duration: string)

  const DURATIONS: seq<string> := ["1h", "8h", "24h", "168h"]

  datatype Json = Text(text: string) | Object(fields: map<string, Json>) | Something

  type Rule = map<string, Json>

  datatype Policy = Policy(decision: string, included: seq<Rule>, excluded: seq<Rule>, required: seq<Rule>)

  // ----- requests

  predicate PlainHost(hostname: string) {
    hostname != "" && forall c <- hostname :: c !in {'*', '/', ':', ' '}
  }

  function Normal(s: string): string { Lower(TrimSpace(s)) }

  /** `parses` stands for mail.ParseAddress with the address as its own result. */
  predicate EmailFits(email: string, parses: string -> bool) { parses(email) && '*' !in email }

  /** First occurrences, in order. */
  function Deduplicated(emails: seq<string>): seq<string> {
    if emails == [] then []
    else
      var init, last := Deduplicated(emails[..|emails| - 1]), emails[|emails| - 1];
      if last in init then init else init + [last]
  }

  function Normalized(raw: seq<string>): seq<string> { seq(|raw|, i requires 0 <= i < |raw| => Normal(raw[i])) }

  function DurationOf(text: string): string { if text == "" then "24h" else text }

  predicate Acceptable(input: Request, parses: string -> bool) {
    && PlainHost(Normal(input.hostname)) && 1 <= |input.emails| <= 50
    && (forall i :: 0 <= i < |input.emails| ==> EmailFits(Normal(input.emails[i]), parses))
    && DurationOf(input.duration) in DURATIONS
  }

  function Valid(input: Request): Request {
    Request(Normal(input.hostname), Deduplicated(Normalized(input.emails)), DurationOf(input.duration))
  }

  lemma {:induction false} DeduplicatedIs(emails: seq<string>)
    ensures Distinct(Deduplicated(emails)) && |Deduplicated(emails)| <= |emails|
    ensures forall e :: e in Deduplicated(emails) <==> e in emails
    ensures Distinct(emails) ==> Deduplicated(emails) == emails
    decreases |emails|
  {
    if emails != [] {
      var init := emails[..|emails| - 1];
      DeduplicatedIs(init);
      assert emails == init + [emails[|emails| - 1]];
    }
  }

  /** ValidateAccessRequest. */
  method ValidateRequest(input: Request, parses: string -> bool) returns (r: Option<Request>)
    ensures r == if Acceptable(input, parses) then Some(Valid(input)) else None
    ensures r.Some? <==>
              && Normal(input.hostname) != "" && (forall c <- Normal(input.hostname) :: c !in ['*', '/', ':', ' '])
              && 1 <= |input.emails| <= 50
              && (forall i :: 0 <= i < |input.emails| ==>
                    parses(Normal(input.emails[i])) && '*' !in Normal(input.emails[i]))
              && input.duration in ["", "1h", "8h", "24h", "168h"]
    ensures r.Some? ==> r.value.hostname == Normal(input.hostname)
    ensures r.Some? ==> r.value.duration == if input.duration == "" then "24h" else input.duration
    ensures r.Some? ==> Distinct(r.value.emails) && 1 <= |r.value.emails| <= 50
    ensures r.Some? ==> forall e :: e in r.value.emails <==> e in Normalized(input.emails)
  {
    hide Normal;
    var hostname := Normal(input.hostname);
    if !PlainHost(hostname) || |input.emails| == 0 || |input.emails| > 50 {
      return None;
    }
    var emails := [];
    ghost var all := Normalized(input.emails);
    for i := 0 to |input.emails|
      invariant forall k :: 0 <= k < i ==> EmailFits(Normal(input.emails[k]), parses)
      invariant emails == Deduplicated(all[..i])
    {
      var email := Normal(input.emails[i]);
      if !EmailFits(email, parses) {
        return None;
      }
      assert all[..i + 1][..i] == all[..i] && all[..i + 1][i] == email;
      if email !in emails {
        emails := emails + [email];
      }
    }
    assert all[..|all|] == all;
    DeduplicatedIs(all);
    assert all[0] in all;
    if DurationOf(input.duration) !in DURATIONS {
      return None;
    }
    r := Some(Request(hostname, emails, DurationOf(input.duration)));
  }

  /** Addresses and hostnames count without the white space around them, and in lower case. */
  lemma NormalIs(left: string, s: string, right: string)
    requires Blank(left) && Blank(right) && (s == "" || (!Blank(s[..1]) && !Blank(s[|s| - 1..])))
    ensures |Normal(left + s + right)| == |s|
    ensures forall i :: 0 <= i < |s| ==>
              Normal(left + s + right)[i] as int == if 'A' <= s[i] <= 'Z' then s[i] as int + 32 else s[i] as int
  {
    hide TrimSpace;
    TrimSpaceIs(left, s, right);
  }

  // ----- the read-back

  /** The address of a rule that is nothing but an e-mail rule. */
  function EmailOf(rule: Rule): Option<string> {
    if |rule| == 1 && "email" in rule && rule["email"].Object?
       && "email" in rule["email"].fields && rule["email"].fields["email"].Text?
    then Some(rule["email"].fields["email"].text) else None
  }

  /** A rule is an e-mail rule for e exactly when "email" is its only key and leads to an object with the text e. */
  lemma EmailOfIff(rule: Rule, e: string)
    ensures EmailOf(rule) == Some(e) <==>
              && rule.Keys == {"email"} && rule["email"].Object?
              && "email" in rule["email"].fields && rule["email"].fields["email"] == Text(e)
  {
    if rule.Keys == {"email"} {
      assert |rule| == |rule.Keys| == 1;
    }
    if |rule| == 1 && "email" in rule {
      assert |rule.Keys| == 1;
      forall k | k in rule ensures k == "email" {
        if k != "email" {
          assert {k, "email"} <= rule.Keys;
          SubsetSize({k, "email"}, rule.Keys);
        }
      }
    }
  }

  function EmailsOf(rules: seq<Rule>): seq<Option<string>> {
    seq(|rules|, i requires 0 <= i < |rules| => EmailOf(rules[i]))
  }

  function Somes(emails: seq<string>): seq<Option<string>> {
    seq(|emails|, i requires 0 <= i < |emails| => Some(emails[i]))
  }

  /** Exactly one allow policy, without exclude and require, whose include rules are the e-mails in some order. */
  ghost predicate Permits(policies: seq<Policy>, emails: seq<string>) {
    && |policies| == 1 && policies[0].decision == "allow" && policies[0].excluded == [] && policies[0].required == []
    && multiset(EmailsOf(policies[0].included)) == multiset(Somes(emails))
  }

  /** matchesAccessPolicy. */
  method MatchesPolicy(policies: seq<Policy>, emails: seq<string>) returns (ok: bool)
    requires Distinct(emails)
    ensures ok <==> Permits(policies, emails)
  {
    hide EmailOf;
    if |policies| != 1 {
      return false;
    }
    var p := policies[0];
    SameSize(p.included, emails);
    if p.decision != "allow" || p.excluded != [] || p.required != [] || |p.included| != |emails| {
      return false;
    }
    var found: set<string> := {};
    for i := 0 to |p.included|
      invariant FoundIn(p.included[..i], emails, found)
    {
      var email := EmailOf(p.included[i]);
      assert p.included[..i + 1] == p.included[..i] + [p.included[i]];
      if email.None? || email.value !in emails || email.value in found {
        BadRule(p.included, i, emails, found);
        return false;
      }
      FoundNext(p.included[..i], p.included[i], emails, found);
      found := found + {email.value};
    }
    assert p.included[..|p.included|] == p.included;
    AllFound(p.included, emails, found);
    return |found| == |emails|;
  }

  /** The rules so far are e-mail rules with different addresses of the list, which `found` holds. */
  ghost predicate FoundIn(rules: seq<Rule>, emails: seq<string>, found: set<string>) {
    && |found| == |rules|
    && (forall i :: 0 <= i < |rules| ==> EmailOf(rules[i]).Some? && EmailOf(rules[i]).value in emails)
    && (forall i, j :: 0 <= i < j < |rules| ==> EmailOf(rules[i]) != EmailOf(rules[j]))
    && (forall e :: e in found <==> exists i :: 0 <= i < |rules| && EmailOf(rules[i]) == Some(e))
  }

  lemma FoundNext(rules: seq<Rule>, rule: Rule, emails: seq<string>, found: set<string>)
    requires FoundIn(rules, emails, found)
    requires EmailOf(rule).Some? && EmailOf(rule).value in emails && EmailOf(rule).value !in found
    ensures FoundIn(rules + [rule], emails, found + {EmailOf(rule).value})
  {
    hide EmailOf;
    var all := rules + [rule];
    forall e | e in found + {EmailOf(rule).value} ensures exists i :: 0 <= i < |all| && EmailOf(all[i]) == Some(e) {
      if e == EmailOf(rule).value {
        assert EmailOf(all[|rules|]) == Some(e);
      } else {
        var i :| 0 <= i < |rules| && EmailOf(rules[i]) == Some(e);
        assert all[i] == rules[i];
      }
    }
  }

  lemma SameSize(rules: seq<Rule>, emails: seq<string>)
    ensures multiset(EmailsOf(rules)) == multiset(Somes(emails)) ==> |rules| == |emails|
  {
    assert |multiset(EmailsOf(rules))| == |rules| && |multiset(Somes(emails))| == |emails|;
  }

  lemma SomesDistinct(emails: seq<string>)
    requires Distinct(emails)
    ensures Distinct(Somes(emails))
    ensures forall e :: Some(e) in Somes(emails) <==> e in emails
  {
    forall e | e in emails ensures Some(e) in Somes(emails) {
      var i :| 0 <= i < |emails| && emails[i] == e;
      assert Somes(emails)[i] == Some(e);
    }
  }

  /** A rule that is no e-mail rule, or whose address is foreign or repeated, breaks the permutation. */
  lemma BadRule(rules: seq<Rule>, i: nat, emails: seq<string>, found: set<string>)
    requires i < |rules| && Distinct(emails) && FoundIn(rules[..i], emails, found)
    requires var e := EmailOf(rules[i]); e.None? || e.value !in emails || e.value in found
    ensures multiset(EmailsOf(rules)) != multiset(Somes(emails))
  {
    hide EmailOf;
    var all, e := EmailsOf(rules), EmailOf(rules[i]);
    SomesDistinct(emails);
    CountDistinct(Somes(emails), e);
    assert all[i] == e;
    if e.Some? && e.value in found {
      var j :| 0 <= j < i && EmailOf(rules[..i][j]) == e;
      assert all[j] == e;
      Twice(all, j, i);
    } else {
      assert e in all;
      assert e in multiset(all);
    }
  }

  lemma Twice<T>(s: seq<T>, j: nat, i: nat)
    requires j < i < |s| && s[j] == s[i]
    ensures multiset(s)[s[i]] >= 2
  {
    assert s == s[..j] + [s[j]] + s[j + 1..i] + [s[i]] + s[i + 1..];
  }

  /** As many different addresses of the list as it has: all of them (the pigeonhole). */
  lemma AllFound(rules: seq<Rule>, emails: seq<string>, found: set<string>)
    requires Distinct(emails) && FoundIn(rules, emails, found) && |rules| == |emails|
    ensures multiset(EmailsOf(rules)) == multiset(Somes(emails))
  {
    hide EmailOf;
    var wanted := Members(emails);
    DistinctSize(emails);
    assert found <= wanted;
    SubsetSize(found, wanted);
    assert wanted - found == {};
    assert found == wanted;
    SomesDistinct(emails);
    var all := EmailsOf(rules);
    forall x ensures multiset(all)[x] == multiset(Somes(emails))[x] {
      CountDistinct(all, x);
      CountDistinct(Somes(emails), x);
      if x.Some? && x.value in emails {
        assert x.value in found;
        var i :| 0 <= i < |rules| && EmailOf(rules[i]) == x;
        assert all[i] == x;
      }
    }
  }

  // ----- a validated request

  lemma {:induction false} TrimLeftStarts(s: string)
    ensures var t := TrimLeft(s); t == "" || !Space(t[0])
  {
    if s != "" && Space(s[0]) {
      TrimLeftStarts(s[1..]);
    }
  }

  lemma {:induction false} TrimEndEnds(s: string)
    ensures var t := TrimEnd(s); t <= s && (t == "" || !Space(t[|t| - 1]))
  {
    if s != "" && Space(s[|s| - 1]) {
      TrimEndEnds(s[..|s| - 1]);
    }
  }

  lemma NormalTwice(s: string)
    ensures Normal(Normal(s)) == Normal(s)
  {
    var t := TrimSpace(s);
    TrimLeftStarts(s);
    TrimEndEnds(TrimLeft(s));
    var u := Lower(t);
    if t != "" {
      assert t[0] == TrimLeft(s)[0];
      assert !Space(u[0]) && !Space(u[|u| - 1]);
    }
    assert TrimSpace(u) == u;
    assert Lower(u) == u;
  }

  lemma EmailsOnce(raw: seq<string>, parses: string -> bool)
    requires |raw| >= 1 && forall i :: 0 <= i < |raw| ==> EmailFits(Normal(raw[i]), parses)
    ensures var once := Deduplicated(Normalized(raw));
            && 1 <= |once| <= |raw| && Normalized(once) == once && Deduplicated(once) == once
            && forall i :: 0 <= i < |once| ==> EmailFits(once[i], parses)
  {
    hide Normal;
    hide EmailFits;
    hide Deduplicated;
    var all := Normalized(raw);
    var once := Deduplicated(all);
    DeduplicatedIs(all);
    DeduplicatedIs(once);
    assert all[0] in all;
    forall i | 0 <= i < |once| ensures Normal(once[i]) == once[i] && EmailFits(once[i], parses) {
      assert once[i] in all;
      var k :| 0 <= k < |all| && all[k] == once[i];
      NormalTwice(raw[k]);
    }
    assert Normalized(once) == once;
  }

  /** Validation is idempotent: a validated request is accepted again, unchanged. */
  lemma ValidTwice(input: Request, parses: string -> bool)
    requires Acceptable(input, parses)
    ensures Acceptable(Valid(input), parses) && Valid(Valid(input)) == Valid(input)
  {
    hide Normal;
    hide EmailFits;
    hide Deduplicated;
    hide PlainHost;
    NormalTwice(input.hostname);
    EmailsOnce(input.emails, parses);
    var once := Valid(input).emails;
    forall i | 0 <= i < |once| ensures EmailFits(Normal(once[i]), parses) {
      assert Normalized(once)[i] == once[i];
    }
    DurationTwice(input.duration);
  }

  lemma DurationTwice(text: string)
    ensures DurationOf(DurationOf(text)) == DurationOf(text)
  {
  }
}
