/** The string functions of Go that several parts use, on ASCII letters and white space. */
module Text {

  function LowerChar(c: char): char {
    if 'A' <= c <= 'Z' then c - 'A' + 'a' else c
  }

  function Lower(s: string): string {
    seq(|s|, i requires 0 <= i < |s| => LowerChar(s[i]))
  }

  predicate Space(c: char) { c == ' ' || 9 as char <= c <= 13 as char }

  function TrimLeft(s: string): string { if s != "" && Space(s[0]) then TrimLeft(s[1..]) else s }

  function TrimEnd(s: string): string { if s != "" && Space(s[|s| - 1]) then TrimEnd(s[..|s| - 1]) else s }

  function TrimSpace(s: string): string { TrimEnd(TrimLeft(s)) }

  /** Everything that is trimmed is white space. */
  predicate Blank(s: string) {
    forall i :: 0 <= i < |s| ==> s[i] == ' ' || s[i] == '\t' || s[i] == '\n' || 11 as char <= s[i] <= 13 as char
  }

  /** White space is taken from both ends, and nothing else. */
  lemma {:induction false} TrimLeftIs(left: string, s: string)
    requires Blank(left) && (s == "" || !Blank(s[..1]))
    ensures TrimLeft(left + s) == s
  {
    if left != "" {
      assert left[0] in left && (left + s)[1..] == left[1..] + s;
      TrimLeftIs(left[1..], s);
    } else {
      assert left + s == s;
      if s != "" {
        assert s[..1] == [s[0]];
      }
    }
  }

  lemma {:induction false} TrimEndIs(s: string, right: string)
    requires Blank(right) && (s == "" || !Blank(s[|s| - 1..]))
    ensures TrimEnd(s + right) == s
  {
    if right != "" {
      var n := |right| - 1;
      assert right[n] in right && (s + right)[..|s| + n] == s + right[..n];
      TrimEndIs(s, right[..n]);
    } else {
      assert s + right == s;
      if s != "" {
        assert s[|s| - 1..] == [s[|s| - 1]];
      }
    }
  }

  lemma TrimSpaceIs(left: string, s: string, right: string)
    requires Blank(left) && Blank(right) && (s == "" || (!Blank(s[..1]) && !Blank(s[|s| - 1..])))
    ensures TrimSpace(left + s + right) == s
  {
    if s == "" {
      assert left + s + right == left + right + "";
      assert Blank(left + right);
      TrimLeftIs(left + right, "");
      assert TrimEnd("") == "";
    } else {
      assert left + s + right == left + (s + right) && (s + right)[..1] == s[..1];
      TrimLeftIs(left, s + right);
      TrimEndIs(s, right);
    }
  }

  lemma BlankJoins(a: string, b: string)
    requires Blank(a) && Blank(b)
    ensures Blank(a + b)
  {
  }

  lemma BlankOne(c: char)
    ensures Blank([c]) <==> Space(c)
    ensures Blank("")
  {
    assert [c][0] == c;
  }

  lemma {:induction false} TrimLeftSplits(s: string)
    ensures var t := TrimLeft(s);
            |t| <= |s| && Blank(s[..|s| - |t|]) && s[|s| - |t|..] == t && (t == "" || !Blank(t[..1]))
  {
    hide Blank;
    hide Space;
    BlankOne('a');
    if s != "" {
      BlankOne(s[0]);
      if Space(s[0]) {
        TrimLeftSplits(s[1..]);
        var n := |s| - |TrimLeft(s)|;
        assert s[..n] == [s[0]] + s[1..][..n - 1];
        BlankJoins([s[0]], s[1..][..n - 1]);
      } else {
        assert s[..1] == [s[0]] && s[..0] == "";
      }
    } else {
      assert s[..0] == "";
    }
  }

  lemma {:induction false} TrimEndSplits(s: string)
    ensures var t := TrimEnd(s); t <= s && Blank(s[|t|..]) && (t == "" || !Blank(t[|t| - 1..]))
  {
    hide Blank;
    hide Space;
    BlankOne('a');
    if s != "" {
      var n := |s| - 1;
      BlankOne(s[n]);
      if Space(s[n]) {
        TrimEndSplits(s[..n]);
        var t := TrimEnd(s);
        assert s[|t|..] == s[..n][|t|..] + [s[n]];
        BlankJoins(s[..n][|t|..], [s[n]]);
      } else {
        assert s[n..] == [s[n]] && s[|s|..] == "";
      }
    } else {
      assert s[0..] == "";
    }
  }

  /** What is trimmed away is white space, and what is left has none at its ends. */
  lemma TrimSpaceSplits(s: string)
    ensures exists left, right :: Blank(left) && Blank(right) && s == left + TrimSpace(s) + right
    ensures var t := TrimSpace(s); t == "" || (!Blank(t[..1]) && !Blank(t[|t| - 1..]))
  {
    TrimLeftSplits(s);
    TrimEndSplits(TrimLeft(s));
    var rest, t := TrimLeft(s), TrimSpace(s);
    var left, right := s[..|s| - |rest|], rest[|t|..];
    assert Blank(left) && Blank(right) && s == left + t + right;
    if t != "" {
      assert t[..1] == rest[..1];
    }
  }

  /** Lower case, letter by letter; everything else stays. */
  lemma LowerIs(s: string, i: nat)
    requires i < |s|
    ensures |Lower(s)| == |s|
    ensures Lower(s)[i] as int == if 'A' <= s[i] <= 'Z' then s[i] as int + 32 else s[i] as int
  {
  }
}
