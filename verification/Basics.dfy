/** Notions that every part of the project shares. */
module Basics {

  datatype Option<T> = None | Some(value: T)

  function Min(a: int, b: int): int { if a < b then a else b }

  // ----- arithmetic

  function Pow2(n: nat): (p: nat)
    ensures p >= 1
  {
    if n == 0 then 1 else 2 * Pow2(n - 1)
  }

  lemma {:induction false} Pow2Adds(m: nat, n: nat)
    ensures Pow2(m + n) == Pow2(m) * Pow2(n)
  {
    if m > 0 {
      Pow2Adds(m - 1, n);
      assert Pow2(m + n) == 2 * Pow2((m - 1) + n);
    }
  }

  lemma {:induction false} Pow2Grows(a: nat, b: nat)
    requires a <= b
    ensures Pow2(a) <= Pow2(b)
    decreases b
  {
    if a < b {
      Pow2Grows(a, b - 1);
    }
  }

  lemma PowerOne()
    ensures Pow2(1) == 2
  {
    assert Pow2(1) == 2 * Pow2(0);
  }

  lemma Powers()
    ensures Pow2(7) == 128 && Pow2(8) == 256 && Pow2(12) == 0x1000 && Pow2(16) == 0x1_0000
    ensures Pow2(20) == 0x10_0000 && Pow2(24) == 0x100_0000
    ensures Pow2(121) == 0x200_0000_0000_0000_0000_0000_0000_0000
  {
    hide Pow2;
    PowerOne();
    Pow2Adds(1, 1);
    Pow2Adds(2, 2);
    Pow2Adds(2, 1);
    Pow2Adds(3, 4);
    Pow2Adds(4, 4);
    Pow2Adds(8, 4);
    Pow2Adds(8, 8);
    Pow2Adds(12, 8);
    Pow2Adds(12, 12);
    Pow2Adds(24, 24);
    Pow2Adds(48, 12);
    Pow2Adds(60, 60);
    Pow2Adds(120, 1);
  }

  lemma MulMonotone(a: int, b: int, d: nat)
    requires a <= b
    ensures a * d <= b * d
  {
    assert b * d == a * d + (b - a) * d;
  }

  lemma QuotientUnique(v: nat, d: nat, q: nat)
    requires d > 0 && q * d <= v < (q + 1) * d
    ensures v / d == q
  {
    if v / d < q {
      assert (v / d + 1) * d <= q * d by { MulMonotone(v / d + 1, q, d); }
    } else if v / d > q {
      assert (q + 1) * d <= v / d * d by { MulMonotone(q + 1, v / d, d); }
    }
  }

  // ----- sequences without repetition, and sizes of sets

  ghost predicate Distinct<T>(s: seq<T>) { forall i, j :: 0 <= i < j < |s| ==> s[i] != s[j] }

  function Members<T(==)>(s: seq<T>): set<T> { set e | e in s }

  lemma MembersNext<T>(s: seq<T>, i: nat)
    requires i < |s|
    ensures Members(s[..0]) == {} && Members(s[..i + 1]) == Members(s[..i]) + {s[i]} && Members(s[..|s|]) == Members(s)
  {
    assert s[..i + 1] == s[..i] + [s[i]] && s[..|s|] == s;
  }

  lemma {:induction false} DistinctSize<T>(s: seq<T>)
    requires Distinct(s)
    ensures |Members(s)| == |s|
    decreases |s|
  {
    if s != [] {
      DistinctSize(s[..|s| - 1]);
      MembersNext(s, |s| - 1);
    }
  }

  lemma {:induction false} CountDistinct<T>(s: seq<T>, x: T)
    requires Distinct(s)
    ensures multiset(s)[x] == if x in s then 1 else 0
    decreases |s|
  {
    if s != [] {
      var init := s[..|s| - 1];
      CountDistinct(init, x);
      assert s == init + [s[|s| - 1]];
    }
  }

  lemma {:induction false} SubsetSize<T>(a: set<T>, b: set<T>)
    requires a <= b
    ensures |a| <= |b| && |b - a| == |b| - |a|
    decreases a
  {
    if x :| x in a {
      SubsetSize(a - {x}, b - {x});
      assert b - a == (b - {x}) - (a - {x});
    } else {
      assert b - a == b;
    }
  }

  lemma TwoMembers<T>(s: set<T>)
    requires |s| > 1
    ensures exists a, b :: a in s && b in s && a != b
  {
    var a :| a in s;
    assert |s - {a}| > 0;
    var b :| b in s - {a};
  }

  lemma OnlyMember<T>(s: set<T>, a: T)
    requires |s| <= 1 && a in s
    ensures forall b :: b in s ==> b == a
  {
    if b :| b in s && b != a {
      assert {a, b} <= s;
      SubsetSize({a, b}, s);
    }
  }
}
