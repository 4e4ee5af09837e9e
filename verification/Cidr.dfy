/** IP prefixes as blocks of addresses: netip.Prefix, and the choice of the private network
    that a WARP service may route (internal/cloudflare/private_network.go). */
module Cidr {
  import opened Basics

  /** A netip.Addr without zone. An IPv4-mapped IPv6 address stays a 128-bit address. */
  datatype Addr = Addr(width: nat, value: nat)

  /** A netip.Prefix. As in netip, the address may carry bits below the prefix length. */
  datatype Prefix = Prefix(addr: Addr, bits: nat)

  ghost predicate ValidAddr(a: Addr) {
    (a.width == 32 || a.width == 128) && a.value < Pow2(a.width)
  }

  ghost predicate ValidPrefix(p: Prefix) {
    ValidAddr(p.addr) && p.bits <= p.addr.width
  }

  /** Number of addresses a prefix length leaves free. */
  function BlockSize(p: Prefix): (n: nat)
    requires p.bits <= p.addr.width
    ensures n >= 1
  {
    Pow2(p.addr.width - p.bits)
  }

  /** The largest multiple of `size` that is no larger than v. */
  function AlignDown(v: nat, size: nat): nat
    requires size > 0
  {
    v / size * size
  }

  /** The address with everything below the first `bits` bits cleared. */
  function Truncate(a: Addr, bits: nat): Addr
    requires bits <= a.width
  {
    Addr(a.width, AlignDown(a.value, Pow2(a.width - bits)))
  }

  function Masked(p: Prefix): Prefix
    requires p.bits <= p.addr.width
  {
    Prefix(Truncate(p.addr, p.bits), p.bits)
  }

  predicate Contains(p: Prefix, a: Addr)
    requires p.bits <= p.addr.width
  {
    a.width == p.addr.width && a.value / BlockSize(p) == p.addr.value / BlockSize(p)
  }

  /** netip's Overlaps: both addresses truncated to the shorter length. */
  predicate Overlaps(p: Prefix, q: Prefix)
    requires p.bits <= p.addr.width && q.bits <= q.addr.width
  {
    p == q ||
    (p.addr.width == q.addr.width &&
     var bits := if p.bits <= q.bits then p.bits else q.bits;
     bits == 0 || Truncate(p.addr, bits) == Truncate(q.addr, bits))
  }

  /** The two prefixes denote sets of addresses without a common member. */
  ghost predicate DisjointBlocks(p: Prefix, q: Prefix)
    requires p.bits <= p.addr.width && q.bits <= q.addr.width
  {
    forall a: Addr :: ValidAddr(a) && Contains(p, a) ==> !Contains(q, a)
  }

  /** Every address of the first block lies in the second. */
  ghost predicate Inside(p: Prefix, q: Prefix)
    requires p.bits <= p.addr.width && q.bits <= q.addr.width
  {
    forall a: Addr :: ValidAddr(a) && Contains(p, a) ==> Contains(q, a)
  }

  // ----- arithmetic of aligned blocks

  /** Dropping k low bits and then j more is dropping k + j. */
  lemma {:induction false} DivDiv(v: nat, a: nat, b: nat)
    requires a > 0 && b > 0
    ensures a * b > 0 && v / (a * b) == v / a / b
  {
    Nested(v, a, b, v / a, v / a / b);
  }

  lemma {:induction false} Nested(v: nat, a: nat, b: nat, x: nat, q: nat)
    requires a > 0 && b > 0
    requires x * a <= v < (x + 1) * a && q * b <= x < (q + 1) * b
    ensures a * b > 0 && v / (a * b) == q
  {
    calc {
      q * (a * b);
      q * b * a;
    <= { MulMonotone(q * b, x, a); }
      x * a;
    <= v;
    }
    calc {
      (q + 1) * (a * b);
      (q + 1) * b * a;
    >= { MulMonotone(x + 1, (q + 1) * b, a); }
      (x + 1) * a;
    }
    MulMonotone(1, b, a);
    QuotientUnique(v, a * b, q);
  }

  /** An address in the block of a longer prefix is in the block of every shorter prefix of it. */
  lemma ShorterContains(p: Prefix, q: Prefix, a: Addr)
    requires p.bits <= p.addr.width && q.bits <= p.bits && q.addr == p.addr
    requires Contains(p, a)
    ensures Contains(q, a)
  {
    var low, gap := BlockSize(p), Pow2(p.bits - q.bits);
    Pow2Adds(p.addr.width - p.bits, p.bits - q.bits);
    assert BlockSize(q) == low * gap;
    DivDiv(a.value, low, gap);
    DivDiv(p.addr.value, low, gap);
  }

  lemma TruncateEqual(a: Addr, b: Addr, bits: nat)
    requires a.width == b.width && bits <= a.width
    ensures Truncate(a, bits) == Truncate(b, bits) <==> Contains(Prefix(a, bits), b)
  {
    var size := Pow2(a.width - bits);
    if a.value / size * size == b.value / size * size {
      if a.value / size < b.value / size {
        MulMonotone(a.value / size + 1, b.value / size, size);
      } else if a.value / size > b.value / size {
        MulMonotone(b.value / size + 1, a.value / size, size);
      }
    }
  }

  lemma WholeSpace(a: Addr, b: Addr)
    requires ValidAddr(a) && ValidAddr(b) && a.width == b.width
    ensures Contains(Prefix(a, 0), b)
  {
    QuotientUnique(a.value, Pow2(a.width), 0);
    QuotientUnique(b.value, Pow2(b.width), 0);
  }

  // ----- the two facts the route check rests on

  /** Of two blocks that meet, the longer prefix lies in the other. */
  lemma MeetingIsNested(p: Prefix, q: Prefix)
    requires ValidPrefix(p) && ValidPrefix(q) && p.bits >= q.bits
    ensures Inside(p, q) || DisjointBlocks(p, q)
  {
    if !DisjointBlocks(p, q) {
      var c: Addr :| ValidAddr(c) && Contains(p, c) && Contains(q, c);
      forall a: Addr | ValidAddr(a) && Contains(p, a) ensures Contains(q, a) {
        var wide := Prefix(p.addr, q.bits);
        ShorterContains(p, wide, a);
        ShorterContains(p, wide, c);
      }
    }
  }

  /** Two blocks are nested or disjoint. */
  lemma NestedOrDisjoint(p: Prefix, q: Prefix)
    requires ValidPrefix(p) && ValidPrefix(q)
    ensures Inside(p, q) || Inside(q, p) || DisjointBlocks(p, q)
  {
    if p.bits >= q.bits {
      MeetingIsNested(p, q);
    } else {
      MeetingIsNested(q, p);
    }
  }

  /** Overlaps answers true exactly when the two address sets meet. */
  lemma OverlapsIffMeet(p: Prefix, q: Prefix)
    requires ValidPrefix(p) && ValidPrefix(q)
    ensures Overlaps(p, q) <==> !DisjointBlocks(p, q)
  {
    hide Pow2;
    hide AlignDown;
    if p.addr.width == q.addr.width {
      var bits := if p.bits <= q.bits then p.bits else q.bits;
      var long, short := if p.bits <= q.bits then q else p, if p.bits <= q.bits then p else q;
      TruncateEqual(short.addr, long.addr, bits);
      WholeSpace(short.addr, long.addr);
      if Overlaps(p, q) {
        assert ValidAddr(long.addr) && Contains(long, long.addr) && Contains(short, long.addr);
      }
      if !DisjointBlocks(p, q) {
        var c: Addr :| ValidAddr(c) && Contains(p, c) && Contains(q, c);
        ShorterContains(long, Prefix(long.addr, bits), c);
        assert Contains(short, long.addr);
      }
    }
  }

  /** Wholly inside means: at least as long, and starting in it. */
  lemma InsideIff(p: Prefix, q: Prefix)
    requires ValidPrefix(p) && ValidPrefix(q)
    ensures Inside(p, q) <==> p.addr.width == q.addr.width && p.bits >= q.bits && Contains(q, p.addr)
  {
    if p.addr.width == q.addr.width && p.bits >= q.bits && Contains(q, p.addr) {
      forall a: Addr | ValidAddr(a) && Contains(p, a) ensures Contains(q, a) {
        ShorterContains(p, Prefix(p.addr, q.bits), a);
      }
    }
    if Inside(p, q) {
      assert Contains(p, p.addr);
      if p.bits < q.bits {
        ShortIsNotInside(p, q);
      }
    }
  }

  /** A shorter prefix has two addresses that a longer one of the same family tells apart. */
  lemma ShortIsNotInside(p: Prefix, q: Prefix)
    requires ValidPrefix(p) && ValidPrefix(q) && p.addr.width == q.addr.width && p.bits < q.bits
    ensures !Inside(p, q)
  {
    var size, part := BlockSize(p), BlockSize(q);
    assert size >= 2 * part by {
      Pow2Adds(q.bits - p.bits - 1, p.addr.width - q.bits);
      assert size == 2 * Pow2(p.addr.width - p.bits - 1);
      MulMonotone(1, Pow2(q.bits - p.bits - 1), part);
    }
    var base := Masked(p).addr.value;
    var first, last := Addr(p.addr.width, base), Addr(p.addr.width, base + (size - 1));
    BlockIsAlignedRun(p, first);
    BlockIsAlignedRun(p, last);
    if first.value / part == last.value / part {
      FarApart(first.value, last.value, part);
    }
  }

  lemma FarApart(v: nat, w: nat, d: nat)
    requires d > 0 && v + d <= w
    ensures v / d != w / d
  {
    assert w < w / d * d + d;
  }

  /** A block is the run of addresses that starts at its masked address: aligned, inside the address
      space, and exactly as many as the prefix length leaves free. */
  lemma BlockIsAlignedRun(p: Prefix, a: Addr)
    requires ValidPrefix(p)
    ensures Masked(p).addr.value % BlockSize(p) == 0
    ensures Contains(p, a) <==>
            a.width == p.addr.width && Masked(p).addr.value <= a.value < Masked(p).addr.value + BlockSize(p)
    ensures Masked(p).addr.value + BlockSize(p) <= Pow2(p.addr.width)
  {
    Pow2Adds(p.bits, p.addr.width - p.bits);
    AlignedRun(p.addr.value, a.value, BlockSize(p), Pow2(p.bits), Pow2(p.addr.width));
  }

  lemma AlignedRun(v: nat, w: nat, d: nat, count: nat, all: nat)
    requires d > 0 && v < all == count * d
    ensures v / d * d % d == 0
    ensures w / d == v / d <==> v / d * d <= w < v / d * d + d
    ensures v / d * d + d <= all
  {
    QuotientIff(w, d, v / d);
    MultipleRemainder(v / d, d);
    RunFits(v, d, count);
  }

  lemma QuotientIff(v: nat, d: nat, q: nat)
    requires d > 0
    ensures v / d == q <==> q * d <= v < q * d + d
  {
    assert (q + 1) * d == q * d + d;
    if q * d <= v < q * d + d {
      QuotientUnique(v, d, q);
    }
  }

  lemma RunFits(v: nat, d: nat, count: nat)
    requires d > 0 && v < count * d
    ensures v / d * d + d <= count * d
  {
    var q := v / d;
    if q >= count {
      MulMonotone(count, q, d);
    }
    MulMonotone(q + 1, count, d);
  }

  lemma {:induction false} MultipleRemainder(k: nat, d: nat)
    requires d > 0
    ensures k * d / d == k && k * d % d == 0
  {
    QuotientUnique(k * d, d, k);
  }

  // ----- private networks

  /** Section 3 of RFC 1918 (10/8, 172.16/12, 192.168/16), and fc00::/7 of section 3.1 of RFC 4193. */
  function AllowedRanges(): (ranges: seq<Prefix>)
    ensures forall range <- ranges :: range.bits <= range.addr.width
  {
    [Prefix(Addr(32, 0x0a00_0000), 8), Prefix(Addr(32, 0xac10_0000), 12), Prefix(Addr(32, 0xc0a8_0000), 16),
     Prefix(Addr(128, 0xfc00_0000_0000_0000_0000_0000_0000_0000), 7)]
  }

  function Quotient(v: nat, d: nat): nat
    requires d > 0
  {
    v / d
  }

  /** The number that the first `bits` bits spell. */
  function Top(a: Addr, bits: nat): nat
    requires bits <= a.width
  {
    Quotient(a.value, Pow2(a.width - bits))
  }

  /** netip.Addr.IsPrivate for an address that is not IPv4-mapped. */
  predicate IsPrivate(a: Addr)
    requires a.width == 32 || a.width == 128
  {
    if a.width == 32 then Top(a, 8) == 10 || Top(a, 12) == 0xac1 || Top(a, 16) == 0xc0a8
    else Top(a, 7) == 0x7e
  }

  /** netip.Addr.Is4In6: the IPv4-mapped range ::ffff:0:0/96. */
  predicate Is4In6(a: Addr) {
    a.width == 128 && Top(a, 96) == 0xffff
  }

  lemma QuotientIs(v: nat, d: nat, top: nat)
    requires d > 0
    ensures Quotient(v, d) == top <==> top * d <= v < (top + 1) * d
  {
    var q := v / d;
    assert q * d <= v < (q + 1) * d;
    if q < top {
      MulMonotone(q + 1, top, d);
    } else if q > top {
      MulMonotone(top + 1, q, d);
    }
  }

  /** The private addresses, and the IPv4-mapped ones, as intervals. */
  lemma PrivateIntervals(v: nat)
    ensures IsPrivate(Addr(32, v)) <==>
              || 0x0a00_0000 <= v < 0x0b00_0000 || 0xac10_0000 <= v < 0xac20_0000 || 0xc0a8_0000 <= v < 0xc0a9_0000
    ensures IsPrivate(Addr(128, v)) <==>
              0xfc00_0000_0000_0000_0000_0000_0000_0000 <= v < 0xfe00_0000_0000_0000_0000_0000_0000_0000
    ensures Is4In6(Addr(128, v)) <==> 0xffff_0000_0000 <= v < 0x1_0000_0000_0000
  {
    Powers();
    Pow2Adds(16, 16);
    hide Pow2;
    hide Quotient;
    QuotientIs(v, Pow2(24), 10);
    QuotientIs(v, Pow2(20), 0xac1);
    QuotientIs(v, Pow2(16), 0xc0a8);
    QuotientIs(v, Pow2(121), 0x7e);
    QuotientIs(v, Pow2(32), 0xffff);
  }

  /** The text of a CIDR field: empty, not a prefix, or a prefix. */
  datatype NetworkText = Empty | Malformed | Cidr(prefix: Prefix)

  predicate CarriesValid(text: NetworkText) {
    text.Cidr? ==> text.prefix.bits <= text.prefix.addr.width
  }

  /** PrivateNetwork: `target` is None when the host does not parse as an address. */
  method PrivateNetwork(target: Option<Addr>, network: NetworkText) returns (r: Option<Prefix>)
    requires target.Some? ==> ValidAddr(target.value)
    requires network.Cidr? ==> ValidPrefix(network.prefix)
    ensures r == Choice(target, network)
  {
    hide Pow2;
    hide Quotient;
    hide AlignDown;
    hide Contains;
    if target.None? || !(IsPrivate(target.value) || MappedPrivate(target.value)) || Is4In6(target.value) {
      return None;
    }
    var ip := target.value;
    if network == Empty {
      return Some(Prefix(ip, ip.width));
    }
    if network == Malformed || network.prefix != Masked(network.prefix) || !Contains(network.prefix, ip) {
      return None;
    }
    var prefix, ranges := network.prefix, AllowedRanges();
    var i := 0;
    while i < |ranges|
      invariant 0 <= i <= |ranges|
      invariant forall j :: 0 <= j < i ==> !Admits(ranges[j], prefix)
    {
      if Admits(ranges[i], prefix) {
        return Some(prefix);
      }
      i := i + 1;
    }
    return None;
  }

  /** IsPrivate looks through an IPv4-mapped address; the next test then rejects it. */
  predicate MappedPrivate(a: Addr) {
    Is4In6(a) && IsPrivate(Addr(32, a.value % Pow2(32)))
  }

  predicate Admits(range: Prefix, p: Prefix)
    requires range.bits <= range.addr.width
  {
    range.addr.width == p.addr.width && p.bits >= range.bits && Contains(range, p.addr)
  }

  function Choice(target: Option<Addr>, network: NetworkText): Option<Prefix>
    requires target.Some? ==> target.value.width == 32 || target.value.width == 128
    requires CarriesValid(network)
  {
    if target.None? || !IsPrivate(target.value) || Is4In6(target.value) then None
    else if network == Empty then Some(Prefix(target.value, target.value.width))
    else if network == Malformed then None
    else if network.prefix == Masked(network.prefix) && Contains(network.prefix, target.value) &&
            exists range <- AllowedRanges() :: Admits(range, network.prefix)
         then Some(network.prefix)
    else None
  }

  /** A prefix of `bits` bits that spell the number `top`. */
  lemma RangeValid(range: Prefix, top: nat)
    requires (range.addr.width == 32 || range.addr.width == 128) && range.bits <= range.addr.width
    requires top < Pow2(range.bits) && range.addr.value == top * BlockSize(range)
    ensures ValidPrefix(range)
    ensures forall a: Addr :: a.width == range.addr.width ==> (Contains(range, a) <==> Top(a, range.bits) == top)
  {
    Pow2Adds(range.bits, range.addr.width - range.bits);
    TopFits(top, Pow2(range.bits), BlockSize(range), Pow2(range.addr.width));
  }

  lemma TopFits(top: nat, count: nat, d: nat, all: nat)
    requires d > 0 && top < count && all == count * d
    ensures top * d < all && top * d / d == top
  {
    MulMonotone(top + 1, count, d);
    MultipleRemainder(top, d);
  }

  /** Each range of AllowedRanges is a prefix and holds the addresses that IsPrivate tests for with its bits. */
  lemma RangesSpelled()
    ensures forall range <- AllowedRanges() :: ValidPrefix(range)
    ensures var ranges := AllowedRanges();
            && (forall a: Addr :: a.width == 32 ==> (Contains(ranges[0], a) <==> Top(a, 8) == 10))
            && (forall a: Addr :: a.width == 32 ==> (Contains(ranges[1], a) <==> Top(a, 12) == 0xac1))
            && (forall a: Addr :: a.width == 32 ==> (Contains(ranges[2], a) <==> Top(a, 16) == 0xc0a8))
            && (forall a: Addr :: a.width == 128 ==> (Contains(ranges[3], a) <==> Top(a, 7) == 0x7e))
  {
    hide Pow2;
    hide Contains;
    hide Top;
    Powers();
    var ranges := AllowedRanges();
    RangeValid(ranges[0], 10);
    RangeValid(ranges[1], 0xac1);
    RangeValid(ranges[2], 0xc0a8);
    RangeValid(ranges[3], 0x7e);
  }

  lemma RangesValid()
    ensures forall range <- AllowedRanges() :: ValidPrefix(range)
    ensures forall a: Addr :: ValidAddr(a) ==>
              (IsPrivate(a) <==> exists range <- AllowedRanges() :: Contains(range, a))
  {
    hide Pow2;
    hide Top;
    RangesSpelled();
    var ranges := AllowedRanges();
    forall a: Addr | ValidAddr(a) ensures IsPrivate(a) <==> exists range <- ranges :: Contains(range, a) {
      assert (exists range <- ranges :: Contains(range, a)) <==>
             Contains(ranges[0], a) || Contains(ranges[1], a) || Contains(ranges[2], a) || Contains(ranges[3], a);
    }
  }

  /** Accepted exactly when the target is a private address and the network is the default single host or
      a canonical block that holds the target and lies wholly inside one private range. */
  lemma ChoiceIff(target: Option<Addr>, network: NetworkText)
    requires target.Some? ==> ValidAddr(target.value)
    requires network.Cidr? ==> ValidPrefix(network.prefix)
    ensures Choice(target, network).Some? <==>
            && target.Some? && IsPrivate(target.value) && !Is4In6(target.value)
            && (network == Empty ||
                (network.Cidr? && network.prefix == Masked(network.prefix) &&
                 Contains(network.prefix, target.value) &&
                 exists range <- AllowedRanges() :: Inside(network.prefix, range)))
  {
    RangesValid();
    if network.Cidr? {
      forall range | range in AllowedRanges()
        ensures Admits(range, network.prefix) <==> Inside(network.prefix, range)
      {
        InsideIff(network.prefix, range);
      }
    }
  }

  /** What an accepted network denotes. */
  lemma ChosenBlock(target: Option<Addr>, network: NetworkText)
    requires target.Some? ==> ValidAddr(target.value)
    requires network.Cidr? ==> ValidPrefix(network.prefix)
    requires Choice(target, network).Some?
    ensures var p := Choice(target, network).value;
            && ValidPrefix(p) && p == Masked(p) && Contains(p, target.value)
            && (network == Empty ==> forall a: Addr :: Contains(p, a) <==> a == target.value)
            && exists range <- AllowedRanges() :: Inside(p, range)
  {
    RangesValid();
    var p := Choice(target, network).value;
    var ip := target.value;
    if network == Empty {
      assert BlockSize(p) == 1;
      forall a: Addr ensures Contains(p, a) <==> a == ip {
      }
      var range :| range in AllowedRanges() && Contains(range, ip);
      InsideIff(p, range);
      assert Inside(p, range);
    } else {
      var range :| range in AllowedRanges() && Admits(range, network.prefix);
      InsideIff(p, range);
      assert Inside(p, range);
    }
  }
}
