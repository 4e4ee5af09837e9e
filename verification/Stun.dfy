/** STUN binding responses (sections 5 and 14 of RFC 8489, OTHER-ADDRESS of section 7.4 of RFC 5780):
    the parser of internal/engine/diagnostics.go and the encoding it undoes. */
module Stun {
  import opened Basics

  type Byte = x: int | 0 <= x < 256

  datatype Error =
    | Invalid | Mismatch | WrongType | Truncated | TruncatedAttribute | BadAddress | BadFamily | NoMapped

  datatype Result<T> = Ok(value: T) | Err(error: Error)

  /** A net.UDPAddr. */
  datatype Endpoint = Endpoint(ip: seq<Byte>, port: nat)

  datatype Binding = Binding(family: string, mapped: Option<Endpoint>, other: Option<Endpoint>)

  const NOTHING: Binding := Binding("", None, None)
  const COOKIE: seq<Byte> := [0x21, 0x12, 0xA4, 0x42]
  const MAPPED: nat := 0x0001
  const XOR_MAPPED: nat := 0x0020
  const OTHER: nat := 0x802c

  // ----- bits

  /** Bitwise exclusive or of the low n bits. */
  function XorBits(a: nat, b: nat, n: nat): (r: nat)
    ensures r < Pow2(n)
  {
    if n == 0 then 0 else 2 * XorBits(a / 2, b / 2, n - 1) + (if a % 2 == b % 2 then 0 else 1)
  }

  function OrBits(a: nat, b: nat, n: nat): (r: nat)
    ensures r < Pow2(n)
  {
    if n == 0 then 0 else 2 * OrBits(a / 2, b / 2, n - 1) + (if a % 2 == 0 && b % 2 == 0 then 0 else 1)
  }

  lemma {:induction false} XorUndone(a: nat, b: nat, n: nat)
    requires a < Pow2(n)
    ensures XorBits(XorBits(a, b, n), b, n) == a
  {
    if n > 0 {
      XorUndone(a / 2, b / 2, n - 1);
      var r := XorBits(a, b, n);
      assert r / 2 == XorBits(a / 2, b / 2, n - 1);
    }
  }

  lemma {:induction false} XorZero(a: nat, b: nat, n: nat)
    requires a < Pow2(n) && b < Pow2(n)
    ensures XorBits(a, b, n) == 0 <==> a == b
  {
    if n > 0 {
      XorZero(a / 2, b / 2, n - 1);
    }
  }

  lemma {:induction false} OrZero(a: nat, b: nat, n: nat)
    requires a < Pow2(n) && b < Pow2(n)
    ensures OrBits(a, b, n) == 0 <==> a == 0 && b == 0
  {
    if n > 0 {
      OrZero(a / 2, b / 2, n - 1);
    }
  }

  lemma Widths()
    ensures Pow2(8) == 256 && Pow2(16) == 0x1_0000
  {
    hide Pow2;
    Powers();
  }

  function Xor(a: Byte, b: Byte): Byte {
    Widths();
    XorBits(a, b, 8)
  }

  function Or(a: Byte, b: Byte): Byte {
    Widths();
    OrBits(a, b, 8)
  }

  function Xor16(a: nat, b: nat): (r: nat)
    ensures r < 0x1_0000
  {
    Widths();
    XorBits(a, b, 16)
  }

  function Uint16(hi: Byte, lo: Byte): (r: nat)
    ensures r < 0x1_0000
  {
    hi * 256 + lo
  }

  function Bytes16(n: nat): (s: seq<Byte>)
    requires n < 0x1_0000
    ensures |s| == 2 && Uint16(s[0], s[1]) == n
  {
    [n / 256, n % 256]
  }

  /** equalBytes: the OR of all XORs is zero exactly for equal contents. */
  method EqualBytes(left: seq<Byte>, right: seq<Byte>) returns (equal: bool)
    ensures equal <==> left == right
  {
    hide XorBits;
    hide OrBits;
    if |left| != |right| {
      return false;
    }
    Widths();
    var different: Byte := 0;
    for i := 0 to |left|
      invariant different == 0 <==> left[..i] == right[..i]
    {
      XorZero(left[i], right[i], 8);
      OrZero(different, Xor(left[i], right[i]), 8);
      different := Or(different, Xor(left[i], right[i]));
      assert left[..i + 1] == left[..i] + [left[i]] && right[..i + 1] == right[..i] + [right[i]];
    }
    assert left[..|left|] == left && right[..|right|] == right;
    return different == 0;
  }

  function Masked(s: seq<Byte>, mask: seq<Byte>): (r: seq<Byte>)
    requires |mask| >= |s|
    ensures |r| == |s|
  {
    seq(|s|, i requires 0 <= i < |s| => Xor(s[i], mask[i]))
  }

  lemma MaskUndone(s: seq<Byte>, mask: seq<Byte>)
    requires |mask| >= |s|
    ensures Masked(Masked(s, mask), mask) == s
  {
    hide XorBits;
    Widths();
    forall i | 0 <= i < |s| ensures Masked(Masked(s, mask), mask)[i] == s[i] {
      XorUndone(s[i], mask[i], 8);
    }
  }

  // ----- addresses

  /** What the address of an XOR attribute is masked with. */
  function Mask(tx: seq<Byte>): seq<Byte> { COOKIE + tx }

  function Unmask(ip: seq<Byte>, xor: bool, tx: seq<Byte>): seq<Byte>
    requires |tx| == 12 && |ip| <= 16
  {
    if xor then Masked(ip, Mask(tx)) else ip
  }

  function Address(value: seq<Byte>, xor: bool, tx: seq<Byte>): Result<Endpoint>
    requires |tx| == 12
  {
    if |value| < 8 then Err(BadAddress)
    else
      var port := Uint16(value[2], value[3]);
      var shown := if xor then Xor16(port, 0x2112) else port;
      if value[1] == 1 then Ok(Endpoint(Unmask(value[4..8], xor, tx), shown))
      else if value[1] != 2 then Err(BadFamily)
      else if |value| < 20 then Err(BadAddress)
      else Ok(Endpoint(Unmask(value[4..20], xor, tx), shown))
  }

  /** The masking loop over a copy of the address. */
  method XorInPlace(address: array<Byte>, mask: seq<Byte>)
    requires |mask| >= address.Length
    modifies address
    ensures address[..] == Masked(old(address[..]), mask)
  {
    hide Xor;
    for i := 0 to address.Length
      invariant forall k :: 0 <= k < i ==> address[k] == Xor(old(address[k]), mask[k])
      invariant forall k :: i <= k < address.Length ==> address[k] == old(address[k])
    {
      address[i] := Xor(address[i], mask[i]);
    }
  }

  method CopyAndXor(part: seq<Byte>, xor: bool, tx: seq<Byte>) returns (ip: seq<Byte>)
    requires |tx| == 12 && |part| <= 16
    ensures ip == Unmask(part, xor, tx)
  {
    var address := new Byte[|part|](i requires 0 <= i < |part| => part[i]);
    assert address[..] == part;
    if xor {
      XorInPlace(address, Mask(tx));
    }
    ip := address[..];
  }

  method ParseAddress(value: seq<Byte>, xor: bool, tx: seq<Byte>) returns (r: Result<Endpoint>)
    requires |tx| == 12
    ensures r == Address(value, xor, tx)
    ensures r == Err(BadAddress) <==> |value| < 8 || (value[1] == 2 && |value| < 20)
    ensures r == Err(BadFamily) <==> |value| >= 8 && value[1] != 1 && value[1] != 2
    ensures r.Ok? && !xor ==>
              && r.value.ip == value[4..if value[1] == 1 then 8 else 20]
              && r.value.port == 256 * (value[2] as int) + value[3] as int
  {
    hide XorBits;
    if |value| < 8 {
      return Err(BadAddress);
    }
    var port := Uint16(value[2], value[3]);
    if xor {
      port := Xor16(port, 0x2112);
    }
    var size := 4;
    if value[1] == 2 {
      if |value| < 20 {
        return Err(BadAddress);
      }
      size := 16;
    } else if value[1] != 1 {
      return Err(BadFamily);
    }
    var ip := CopyAndXor(value[4..4 + size], xor, tx);
    r := Ok(Endpoint(ip, port));
  }

  // ----- responses

  /** net.IP.To4: a 4-byte address, or an IPv4-mapped one. */
  predicate Is4(ip: seq<Byte>) {
    |ip| == 4 || (|ip| == 16 && (forall i :: 0 <= i < 10 ==> ip[i] == 0) && ip[10] == 0xff && ip[11] == 0xff)
  }

  function FamilyOf(e: Endpoint): string { if Is4(e.ip) then "IPv4" else "IPv6" }

  /** One attribute of a known type. */
  function Noted(b: Binding, kind: nat, e: Endpoint): Binding {
    if kind == OTHER then b.(other := Some(e))
    else if b.mapped.None? || kind == XOR_MAPPED then b.(mapped := Some(e), family := FamilyOf(e))
    else b
  }

  predicate Known(kind: nat) { kind == XOR_MAPPED || kind == MAPPED || kind == OTHER }

  function Padding(length: nat): nat { (4 - length % 4) % 4 }

  /** Attributes begin at multiples of four. */
  lemma PaddingAligns(length: nat, padding: nat)
    ensures (length + padding) % 4 == 0 && padding < 4 <==> padding == Padding(length)
  {
  }

  /** The attributes from `offset` on; `end` is where the declared body ends. */
  function Attributes(m: seq<Byte>, offset: nat, end: nat, tx: seq<Byte>, b: Binding): Result<Binding>
    requires end <= |m| && |tx| == 12
    decreases |m| + 4 - offset
  {
    if offset + 4 > end then (if b.mapped.None? then Err(NoMapped) else Ok(b))
    else
      var kind, length := Uint16(m[offset], m[offset + 1]), Uint16(m[offset + 2], m[offset + 3]);
      var stop := offset + 4 + length;
      if stop > |m| then Err(TruncatedAttribute)
      else if !Known(kind) then Attributes(m, stop + Padding(length), end, tx, b)
      else
        match Address(m[offset + 4..stop], kind == XOR_MAPPED, tx)
        case Err(e) => Err(e)
        case Ok(e) => Attributes(m, stop + Padding(length), end, tx, Noted(b, kind, e))
  }

  function Parse(m: seq<Byte>, tx: seq<Byte>): Result<Binding> {
    if |m| < 20 || m[4..8] != COOKIE then Err(Invalid)
    else if m[8..20] != tx then Err(Mismatch)
    else if Uint16(m[0], m[1]) != 0x0101 then Err(WrongType)
    else
      var end := 20 + Uint16(m[2], m[3]);
      if end > |m| then Err(Truncated) else Attributes(m, 20, end, tx, NOTHING)
  }

  /** Total on arbitrary bytes: no index leaves the datagram, and the loop ends. */
  method ParseResponse(m: seq<Byte>, tx: seq<Byte>) returns (r: Result<Binding>)
    ensures r == Parse(m, tx)
    ensures |m| < 20 || m[4..8] != [0x21, 0x12, 0xa4, 0x42] <==> r == Err(Invalid)
    ensures |m| >= 20 && m[4..8] == [0x21, 0x12, 0xa4, 0x42] ==>
              && (r == Err(Mismatch) <==> m[8..20] != tx)
              && (r == Err(WrongType) <==> m[8..20] == tx && (m[0] != 1 || m[1] != 1))
              && (r == Err(Truncated) <==> && m[8..20] == tx && m[0] == 1 && m[1] == 1
                                           && |m| < 20 + 256 * (m[2] as int) + m[3] as int)
  {
    hide Address;
    hide Noted;
    BodyErrors(m, tx);
    if |m| < 20 || m[4..8] != COOKIE {
      return Err(Invalid);
    }
    var same := EqualBytes(m[8..20], tx);
    if !same {
      return Err(Mismatch);
    }
    if Uint16(m[0], m[1]) != 0x0101 {
      return Err(WrongType);
    }
    var end := 20 + Uint16(m[2], m[3]);
    if end > |m| {
      return Err(Truncated);
    }
    var result, offset := NOTHING, 20;
    while offset + 4 <= end
      invariant Attributes(m, offset, end, tx, result) == Attributes(m, 20, end, tx, NOTHING)
      decreases |m| + 4 - offset
    {
      var kind, length := Uint16(m[offset], m[offset + 1]), Uint16(m[offset + 2], m[offset + 3]);
      var stop := offset + 4 + length;
      if stop > |m| {
        return Err(TruncatedAttribute);
      }
      if Known(kind) {
        var address := ParseAddress(m[offset + 4..stop], kind == XOR_MAPPED, tx);
        if address.Err? {
          return Err(address.error);
        }
        result := Noted(result, kind, address.value);
      }
      offset := stop + Padding(length);
    }
    r := if result.mapped.None? then Err(NoMapped) else Ok(result);
  }

  /** The walk over the attributes has errors of its own. */
  lemma {:induction false} WalkErrors(m: seq<Byte>, offset: nat, end: nat, tx: seq<Byte>, b: Binding)
    requires end <= |m| && |tx| == 12
    ensures Attributes(m, offset, end, tx, b) !in {Err(Invalid), Err(Mismatch), Err(WrongType), Err(Truncated)}
    decreases |m| + 4 - offset
  {
    hide Noted;
    hide Uint16;
    if offset + 4 <= end {
      var kind, length := Uint16(m[offset], m[offset + 1]), Uint16(m[offset + 2], m[offset + 3]);
      var stop := offset + 4 + length;
      if stop <= |m| {
        if !Known(kind) {
          WalkErrors(m, stop + Padding(length), end, tx, b);
        } else {
          var address := Address(m[offset + 4..stop], kind == XOR_MAPPED, tx);
          if address.Ok? {
            WalkErrors(m, stop + Padding(length), end, tx, Noted(b, kind, address.value));
          }
        }
      }
    }
  }

  lemma BodyErrors(m: seq<Byte>, tx: seq<Byte>)
    ensures |m| >= 20 && |tx| == 12 ==>
              var end := 20 + Uint16(m[2], m[3]);
              end <= |m| ==>
                Attributes(m, 20, end, tx, NOTHING) !in {Err(Invalid), Err(Mismatch), Err(WrongType), Err(Truncated)}
  {
    if |m| >= 20 && |tx| == 12 && 20 + Uint16(m[2], m[3]) <= |m| {
      WalkErrors(m, 20, 20 + Uint16(m[2], m[3]), tx, NOTHING);
    }
  }

  // ----- the encoding

  datatype Attribute =
    | XorMapped(e: Endpoint) | Mapped(e: Endpoint) | Other(e: Endpoint)
    | Unknown(kind: nat, value: seq<Byte>, padding: seq<Byte>)

  predicate ValidEndpoint(e: Endpoint) { (|e.ip| == 4 || |e.ip| == 16) && e.port < 0x1_0000 }

  /** Padding up to the next multiple of four, of any bytes. */
  predicate ValidAttribute(a: Attribute) {
    match a
    case Unknown(kind, value, padding) =>
      && kind < 0x1_0000 && kind !in {0x0001, 0x0020, 0x802c} && |value| < 0x1_0000
      && (|value| + |padding|) % 4 == 0 && |padding| < 4
    case _ => ValidEndpoint(a.e)
  }

  function AddressValue(e: Endpoint, xor: bool, tx: seq<Byte>): seq<Byte>
    requires ValidEndpoint(e) && |tx| == 12
  {
    [0, if |e.ip| == 4 then 1 else 2] + Bytes16(if xor then Xor16(e.port, 0x2112) else e.port) + Unmask(e.ip, xor, tx)
  }

  function KindOf(a: Attribute): nat {
    match a
    case XorMapped(_) => XOR_MAPPED
    case Mapped(_) => MAPPED
    case Other(_) => OTHER
    case Unknown(kind, _, _) => kind
  }

  function ValueOf(a: Attribute, tx: seq<Byte>): (v: seq<Byte>)
    requires ValidAttribute(a) && |tx| == 12
    ensures |v| < 0x1_0000
  {
    if a.Unknown? then a.value else AddressValue(a.e, a.XorMapped?, tx)
  }

  function PaddingOf(a: Attribute): seq<Byte> { if a.Unknown? then a.padding else [] }

  function Encoded(a: Attribute, tx: seq<Byte>): seq<Byte>
    requires ValidAttribute(a) && |tx| == 12
  {
    Bytes16(KindOf(a)) + Bytes16(|ValueOf(a, tx)|) + ValueOf(a, tx) + PaddingOf(a)
  }

  function Body(attributes: seq<Attribute>, tx: seq<Byte>): seq<Byte>
    requires (forall a <- attributes :: ValidAttribute(a)) && |tx| == 12
  {
    if attributes == [] then [] else Encoded(attributes[0], tx) + Body(attributes[1..], tx)
  }

  /** A Binding success response. */
  function Response(attributes: seq<Attribute>, tx: seq<Byte>): seq<Byte>
    requires (forall a <- attributes :: ValidAttribute(a)) && |tx| == 12 && |Body(attributes, tx)| < 0x1_0000
  {
    Bytes16(0x0101) + Bytes16(|Body(attributes, tx)|) + COOKIE + tx + Body(attributes, tx)
  }

  // ----- what a response says

  /** The last XOR-MAPPED-ADDRESS. */
  function LastXor(attributes: seq<Attribute>): Option<Endpoint> {
    if attributes == [] then None
    else
      var last := attributes[|attributes| - 1];
      if last.XorMapped? then Some(last.e) else LastXor(attributes[..|attributes| - 1])
  }

  /** The first MAPPED-ADDRESS. */
  function FirstMapped(attributes: seq<Attribute>): Option<Endpoint> {
    if attributes == [] then None
    else if attributes[0].Mapped? then Some(attributes[0].e) else FirstMapped(attributes[1..])
  }

  /** The last OTHER-ADDRESS. */
  function LastOther(attributes: seq<Attribute>): Option<Endpoint> {
    if attributes == [] then None
    else
      var last := attributes[|attributes| - 1];
      if last.Other? then Some(last.e) else LastOther(attributes[..|attributes| - 1])
  }

  function Meant(attributes: seq<Attribute>): Option<Endpoint> {
    if LastXor(attributes).Some? then LastXor(attributes) else FirstMapped(attributes)
  }

  // ----- the parser undoes the encoding

  lemma AddressUndone(e: Endpoint, xor: bool, tx: seq<Byte>)
    requires ValidEndpoint(e) && |tx| == 12
    ensures Address(AddressValue(e, xor, tx), xor, tx) == Ok(e)
  {
    hide XorBits;
    Widths();
    var value := AddressValue(e, xor, tx);
    assert |Unmask(e.ip, xor, tx)| == |e.ip|;
    assert value[4..4 + |e.ip|] == Unmask(e.ip, xor, tx);
    XorUndone(e.port, 0x2112, 16);
    MaskUndone(e.ip, Mask(tx));
  }

  /** The result after the attributes, in order. */
  function Collected(attributes: seq<Attribute>, b: Binding): Binding
    decreases |attributes|
  {
    if attributes == [] then b
    else if attributes[0].Unknown? then Collected(attributes[1..], b)
    else Collected(attributes[1..], Noted(b, KindOf(attributes[0]), attributes[0].e))
  }

  function Outcome(b: Binding): Result<Binding> { if b.mapped.None? then Err(NoMapped) else Ok(b) }

  /** One encoded attribute in a message: where its fields stand. */
  lemma FieldsOf(before: seq<Byte>, a: Attribute, after: seq<Byte>, tx: seq<Byte>)
    requires ValidAttribute(a) && |tx| == 12
    ensures var m, at, v := before + Encoded(a, tx) + after, |before|, ValueOf(a, tx);
            && at + 4 + |v| <= |m| && Uint16(m[at], m[at + 1]) == KindOf(a) && Uint16(m[at + 2], m[at + 3]) == |v|
            && m[at + 4..at + 4 + |v|] == v && |Encoded(a, tx)| == 4 + |v| + Padding(|v|)
  {
    hide ValueOf;
    hide Uint16;
    hide Bytes16;
    PaddingFits(a, tx);
    var m, at, v := before + Encoded(a, tx) + after, |before|, ValueOf(a, tx);
    assert m[at..at + 4] == Bytes16(KindOf(a)) + Bytes16(|v|);
    assert m[at] == m[at..at + 4][0] && m[at + 1] == m[at..at + 4][1];
    assert m[at + 2] == m[at..at + 4][2] && m[at + 3] == m[at..at + 4][3];
  }

  lemma PaddingFits(a: Attribute, tx: seq<Byte>)
    requires ValidAttribute(a) && |tx| == 12
    ensures |PaddingOf(a)| == Padding(|ValueOf(a, tx)|)
  {
    PaddingAligns(|ValueOf(a, tx)|, |PaddingOf(a)|);
  }

  lemma {:induction false} BodyDecodes(before: seq<Byte>, attributes: seq<Attribute>, after: seq<Byte>, tx: seq<Byte>,
                                       b: Binding)
    requires (forall a <- attributes :: ValidAttribute(a)) && |tx| == 12
    ensures var body := Body(attributes, tx);
            Attributes(before + body + after, |before|, |before| + |body|, tx, b) == Outcome(Collected(attributes, b))
    decreases |attributes|
  {
    hide Address;
    hide AddressValue;
    hide Noted;
    hide Encoded;
    hide Attributes;
    hide ValidAttribute;
    if attributes == [] {
      assert before + [] + after == before + after;
      NothingLeft(before + after, |before|, tx, b);
    } else {
      var a, body := attributes[0], Body(attributes, tx);
      var code, rest := Encoded(a, tx), Body(attributes[1..], tx);
      assert before + body + after == before + code + (rest + after) == before + code + rest + after;
      StepDecodes(before, a, rest + after, |before| + |body|, tx, b);
      BodyDecodes(before + code, attributes[1..], after, tx, if a.Unknown? then b else Noted(b, KindOf(a), a.e));
    }
  }

  lemma NothingLeft(m: seq<Byte>, end: nat, tx: seq<Byte>, b: Binding)
    requires end <= |m| && |tx| == 12
    ensures Attributes(m, end, end, tx, b) == Outcome(b)
  {
  }

  /** The loop body on an encoded attribute. */
  lemma StepDecodes(before: seq<Byte>, a: Attribute, after: seq<Byte>, end: nat, tx: seq<Byte>, b: Binding)
    requires ValidAttribute(a) && |tx| == 12
    requires |before| + |Encoded(a, tx)| <= end <= |before + Encoded(a, tx) + after|
    ensures var m := before + Encoded(a, tx) + after;
            Attributes(m, |before|, end, tx, b) ==
            Attributes(m, |before| + |Encoded(a, tx)|, end, tx, if a.Unknown? then b else Noted(b, KindOf(a), a.e))
  {
    hide Address;
    hide AddressValue;
    hide Noted;
    hide Encoded;
    hide Attributes;
    hide ValueOf;
    hide Uint16;
    hide Padding;
    FieldsOf(before, a, after, tx);
    AttributeReads(before + Encoded(a, tx) + after, |before|, end, tx, b, KindOf(a), ValueOf(a, tx));
    if !a.Unknown? {
      ValueIsAddress(a, tx);
      AddressUndone(a.e, a.XorMapped?, tx);
    }
  }

  lemma ValueIsAddress(a: Attribute, tx: seq<Byte>)
    requires ValidAttribute(a) && |tx| == 12 && !a.Unknown?
    ensures ValueOf(a, tx) == AddressValue(a.e, a.XorMapped?, tx)
  {
  }

  /** The loop body, once the fields of the attribute are known. */
  lemma AttributeReads(m: seq<Byte>, at: nat, end: nat, tx: seq<Byte>, b: Binding, kind: nat, value: seq<Byte>)
    requires end <= |m| && |tx| == 12 && at + 4 <= end && at + 4 + |value| <= |m|
    requires Uint16(m[at], m[at + 1]) == kind && Uint16(m[at + 2], m[at + 3]) == |value|
    requires m[at + 4..at + 4 + |value|] == value
    ensures var next := at + 4 + |value| + Padding(|value|);
            Attributes(m, at, end, tx, b) ==
            if !Known(kind) then Attributes(m, next, end, tx, b)
            else match Address(value, kind == XOR_MAPPED, tx)
              case Err(e) => Err(e)
              case Ok(e) => Attributes(m, next, end, tx, Noted(b, kind, e))
  {
    hide Address;
    hide Noted;
    hide Padding;
  }

  lemma {:induction false} CollectedMeans(attributes: seq<Attribute>, b: Binding)
    requires b.mapped.Some? ==> b.family == FamilyOf(b.mapped.value)
    ensures var r := Collected(attributes, b);
            && r.mapped == (if LastXor(attributes).Some? then LastXor(attributes)
                            else if b.mapped.Some? then b.mapped else FirstMapped(attributes))
            && r.other == (if LastOther(attributes).Some? then LastOther(attributes) else b.other)
            && r.family == (if r.mapped.Some? then FamilyOf(r.mapped.value) else b.family)
    decreases |attributes|
  {
    hide FamilyOf;
    if attributes != [] {
      var a, rest := attributes[0], attributes[1..];
      LastOfRest(attributes);
      CollectedMeans(rest, if a.Unknown? then b else Noted(b, KindOf(a), a.e));
    }
  }

  /** Last occurrences, seen from the front. */
  lemma {:induction false} LastOfRest(attributes: seq<Attribute>)
    requires attributes != []
    ensures var a, rest := attributes[0], attributes[1..];
            && LastXor(attributes) ==
                 (if LastXor(rest).Some? then LastXor(rest) else if a.XorMapped? then Some(a.e) else None)
            && LastOther(attributes) ==
                 (if LastOther(rest).Some? then LastOther(rest) else if a.Other? then Some(a.e) else None)
    decreases |attributes|
  {
    var n := |attributes| - 1;
    if n > 0 {
      LastOfRest(attributes[..n]);
      assert attributes[..n][1..] == attributes[1..][..n - 1];
      assert attributes[1..][n - 1] == attributes[n];
    }
  }

  /** Every encoded Binding success response, whatever unknown attributes, padding and trailing bytes it carries, reads
      as it was meant: the last XOR-MAPPED-ADDRESS or else the first MAPPED-ADDRESS, and the last OTHER-ADDRESS. */
  lemma RoundTrip(attributes: seq<Attribute>, tx: seq<Byte>, trailing: seq<Byte>)
    requires (forall a <- attributes :: ValidAttribute(a)) && |tx| == 12 && |Body(attributes, tx)| < 0x1_0000
    ensures var m, meant := Response(attributes, tx) + trailing, Meant(attributes);
            Parse(m, tx) == if meant.None? then Err(NoMapped)
                            else Ok(Binding(FamilyOf(meant.value), meant, LastOther(attributes)))
  {
    hide Attributes;
    hide Collected;
    hide Uint16;
    hide Bytes16;
    hide Body;
    hide ValidAttribute;
    hide FamilyOf;
    hide LastXor;
    hide LastOther;
    hide FirstMapped;
    var body := Body(attributes, tx);
    var header := Bytes16(0x0101) + Bytes16(|body|) + COOKIE + tx;
    var m := Response(attributes, tx) + trailing;
    assert m == header + body + trailing && |header| == 20;
    HeaderReads(header, body + trailing, |body|, tx);
    assert m == header + (body + trailing);
    BodyDecodes(header, attributes, trailing, tx, NOTHING);
    CollectedMeans(attributes, NOTHING);
  }

  lemma HeaderReads(header: seq<Byte>, rest: seq<Byte>, length: nat, tx: seq<Byte>)
    requires |tx| == 12 && length < 0x1_0000 && header == Bytes16(0x0101) + Bytes16(length) + COOKIE + tx
    ensures var m := header + rest;
            |m| >= 20 && m[4..8] == COOKIE && m[8..20] == tx &&
            Uint16(m[0], m[1]) == 0x0101 && Uint16(m[2], m[3]) == length
  {
  }

  // ----- responses byte by byte

  const SAMPLE_TX: seq<Byte> := [0xb7, 0xe7, 0xa7, 0x01, 0xbc, 0x34, 0xd6, 0x86, 0xfa, 0x87, 0xdf, 0xae]
  const SOFTWARE: seq<Byte> := [0x74, 0x65, 0x73, 0x74, 0x20, 0x76, 0x65, 0x63, 0x74, 0x6f, 0x72]
  const INTEGRITY: seq<Byte> := [
    0x2b, 0x91, 0xf5, 0x99, 0xfd, 0x9e, 0x90, 0xc3, 0x8c, 0x74, 0x89, 0xf9, 0x2a, 0xf9, 0xba, 0x53,
    0xf0, 0x6b, 0xe7, 0xd7]
  const FINGERPRINT: seq<Byte> := [0xc0, 0x7d, 0x4c, 0x96]

  /** The sample IPv4 response in section 2.2 of RFC 5769: a padded attribute, a masked address, and two attributes that
      are not looked at. */
  const SAMPLE_ONE: seq<Byte> := [0x80, 0x22, 0x00, 0x0b] + SOFTWARE + [0x20]
  const SAMPLE_TWO: seq<Byte> := [0x00, 0x20, 0x00, 0x08, 0x00, 0x01, 0xa1, 0x47, 0xe1, 0x12, 0xa6, 0x43]
  const SAMPLE_THREE: seq<Byte> := [0x00, 0x08, 0x00, 0x14] + INTEGRITY
  const SAMPLE_FOUR: seq<Byte> := [0x80, 0x28, 0x00, 0x04] + FINGERPRINT
  const SAMPLE_BODY: seq<Byte> := SAMPLE_ONE + SAMPLE_TWO + SAMPLE_THREE + SAMPLE_FOUR
  const SAMPLE: seq<Byte> := [0x01, 0x01, 0x00, 0x3c, 0x21, 0x12, 0xa4, 0x42] + SAMPLE_TX + SAMPLE_BODY

  lemma SampleXors()
    ensures Xor(192, 0x21) == 0xe1 && Xor(0, 0x12) == 0x12 && Xor(2, 0xa4) == 0xa6 && Xor(1, 0x42) == 0x43
  {
    hide Xor;
    OneXor();
    TwoXor();
    ThreeXor();
    FourXor();
  }

  lemma OneXor()
    ensures Xor(192, 0x21) == 0xe1
  {
  }

  lemma TwoXor()
    ensures Xor(0, 0x12) == 0x12
  {
  }

  lemma ThreeXor()
    ensures Xor(2, 0xa4) == 0xa6
  {
  }

  lemma FourXor()
    ensures Xor(1, 0x42) == 0x43
  {
  }

  lemma XorStep(a: nat, b: nat, n: nat)
    requires n > 0
    ensures XorBits(a, b, n) == 2 * XorBits(a / 2, b / 2, n - 1) + if a % 2 == b % 2 then 0 else 1
  {
  }

  lemma SamplePort()
    ensures Xor16(32853, 0x2112) == 0xa147
  {
    hide XorBits;
    hide Pow2;
    XorStep(32853, 8466, 16);
    XorStep(16426, 4233, 15);
    XorStep(8213, 2116, 14);
    XorStep(4106, 1058, 13);
    XorStep(2053, 529, 12);
    XorStep(1026, 264, 11);
    XorStep(513, 132, 10);
    XorStep(256, 66, 9);
    SamplePortHigh();
  }

  lemma SamplePortHigh()
    ensures XorBits(128, 33, 8) == 0xa1
  {
    hide XorBits;
    XorStep(128, 33, 8);
    XorStep(64, 16, 7);
    XorStep(32, 8, 6);
    XorStep(16, 4, 5);
    XorStep(8, 2, 4);
    XorStep(4, 1, 3);
    XorStep(2, 0, 2);
    XorStep(1, 0, 1);
    XorNothing();
  }

  lemma XorNothing()
    ensures XorBits(0, 0, 0) == 0
  {
  }

  lemma SampleAddress()
    ensures AddressValue(Endpoint([192, 0, 2, 1], 32853), true, SAMPLE_TX) ==
            [0x00, 0x01, 0xa1, 0x47, 0xe1, 0x12, 0xa6, 0x43]
  {
    SampleXors();
    SamplePort();
    hide Xor;
    hide Xor16;
    assert Masked([192, 0, 2, 1], Mask(SAMPLE_TX)) == [0xe1, 0x12, 0xa6, 0x43];
  }

  const SAMPLE_ENDPOINT: Endpoint := Endpoint([192, 0, 2, 1], 32853)
  const SAMPLE_ATTRIBUTES: seq<Attribute> := [
    Unknown(0x8022, SOFTWARE, [0x20]), XorMapped(SAMPLE_ENDPOINT),
    Unknown(0x0008, INTEGRITY, []), Unknown(0x8028, FINGERPRINT, [])]

  lemma PlainEncoded(kind: nat, value: seq<Byte>, padding: seq<Byte>, tx: seq<Byte>)
    requires ValidAttribute(Unknown(kind, value, padding)) && |tx| == 12
    ensures Encoded(Unknown(kind, value, padding), tx) == Bytes16(kind) + Bytes16(|value|) + value + padding
  {
  }

  lemma SampleEncoded(tx: seq<Byte>)
    requires tx == SAMPLE_TX && ValidAttribute(XorMapped(SAMPLE_ENDPOINT))
    ensures Encoded(XorMapped(SAMPLE_ENDPOINT), tx) ==
            SAMPLE_TWO
  {
    hide AddressValue;
    SampleAddress();
  }

  lemma SampleParts(tx: seq<Byte>)
    requires tx == SAMPLE_TX && forall a <- SAMPLE_ATTRIBUTES :: ValidAttribute(a)
    ensures Encoded(Unknown(0x8022, SOFTWARE, [0x20]), tx) == SAMPLE_ONE
    ensures Encoded(Unknown(0x0008, INTEGRITY, []), tx) == SAMPLE_THREE
    ensures Encoded(Unknown(0x8028, FINGERPRINT, []), tx) == SAMPLE_FOUR
  {
    hide Encoded;
    SampleValid();
    PlainEncoded(0x8022, SOFTWARE, [0x20], tx);
    PlainEncoded(0x0008, INTEGRITY, [], tx);
    PlainEncoded(0x8028, FINGERPRINT, [], tx);
  }

  lemma SampleValid()
    ensures forall a <- SAMPLE_ATTRIBUTES :: ValidAttribute(a)
    ensures |SOFTWARE| == 11 && |INTEGRITY| == 20 && |FINGERPRINT| == 4 && |SAMPLE_BODY| == 60
  {
  }

  lemma SampleBody(tx: seq<Byte>)
    requires tx == SAMPLE_TX
    ensures forall a <- SAMPLE_ATTRIBUTES :: ValidAttribute(a)
    ensures Body(SAMPLE_ATTRIBUTES, tx) == SAMPLE_BODY
  {
    hide Body;
    hide Encoded;
    hide ValidAttribute;
    SampleValid();
    var a, b := Unknown(0x8022, SOFTWARE, [0x20]), XorMapped(SAMPLE_ENDPOINT);
    var c, d := Unknown(0x0008, INTEGRITY, []), Unknown(0x8028, FINGERPRINT, []);
    assert b == SAMPLE_ATTRIBUTES[1];
    SampleParts(tx);
    SampleEncoded(tx);
    FourBodies(a, b, c, d, tx);
  }

  lemma LastNext(attributes: seq<Attribute>, a: Attribute)
    ensures LastXor(attributes + [a]) == if a.XorMapped? then Some(a.e) else LastXor(attributes)
    ensures LastOther(attributes + [a]) == if a.Other? then Some(a.e) else LastOther(attributes)
    ensures LastOther([]) == LastXor([]) == None
  {
    assert (attributes + [a])[..|attributes|] == attributes;
  }

  lemma SampleMeant()
    ensures Meant(SAMPLE_ATTRIBUTES) == Some(SAMPLE_ENDPOINT) && LastOther(SAMPLE_ATTRIBUTES) == None
  {
    hide LastXor;
    hide LastOther;
    var a, b := Unknown(0x8022, SOFTWARE, [0x20]), XorMapped(SAMPLE_ENDPOINT);
    var c, d := Unknown(0x0008, INTEGRITY, []), Unknown(0x8028, FINGERPRINT, []);
    LastNext([], a);
    LastNext([a], b);
    LastNext([a, b], c);
    LastNext([a, b, c], d);
    assert [] + [a] == [a] && [a] + [b] == [a, b] && [a, b] + [c] == [a, b, c];
    assert [a, b, c] + [d] == SAMPLE_ATTRIBUTES;
  }

  lemma SampleResponse(tx: seq<Byte>)
    requires tx == SAMPLE_TX
    ensures forall a <- SAMPLE_ATTRIBUTES :: ValidAttribute(a)
    ensures |Body(SAMPLE_ATTRIBUTES, tx)| < 0x1_0000 && Response(SAMPLE_ATTRIBUTES, tx) + [] == SAMPLE
  {
    hide Body;
    hide ValidAttribute;
    SampleValid();
    SampleBody(tx);
    assert Bytes16(0x0101) + Bytes16(60) + COOKIE == [0x01, 0x01, 0x00, 0x3c, 0x21, 0x12, 0xa4, 0x42];
  }

  lemma SampleParses()
    ensures Parse(SAMPLE, SAMPLE_TX) == Ok(Binding("IPv4", Some(Endpoint([192, 0, 2, 1], 32853)), None))
  {
    hide Parse;
    hide Body;
    hide Response;
    hide Meant;
    hide LastOther;
    hide ValidAttribute;
    var tx, all := SAMPLE_TX, SAMPLE_ATTRIBUTES;
    SampleResponse(tx);
    SampleMeant();
    RoundTrip(all, tx, []);
  }

  /** The types on the wire. */
  lemma WireTypes(e: Endpoint, tx: seq<Byte>)
    requires ValidEndpoint(e) && |tx| == 12
    ensures Bytes16(KindOf(Mapped(e))) == [0x00, 0x01] && Bytes16(KindOf(XorMapped(e))) == [0x00, 0x20]
    ensures Bytes16(KindOf(Other(e))) == [0x80, 0x2c]
  {
  }

  /** The form of an unmasked address. */
  lemma WireAddress(e: Endpoint, tx: seq<Byte>)
    requires ValidEndpoint(e) && |tx| == 12
    ensures AddressValue(e, false, tx) ==
            [0x00, if |e.ip| == 4 then 0x01 else 0x02, e.port / 256, e.port % 256] + e.ip
  {
  }

  /** An IPv4-mapped address counts as IPv4. */
  lemma FamilyNames(e: Endpoint)
    requires ValidEndpoint(e)
    ensures |e.ip| == 4 ==> FamilyOf(e) == "IPv4"
    ensures |e.ip| == 16 ==>
              FamilyOf(e) == if e.ip[..12] == [0, 0, 0, 0, 0, 0, 0, 0, 0, 0, 0xff, 0xff] then "IPv4" else "IPv6"
  {
    if |e.ip| == 16 && Is4(e.ip) {
      assert forall i :: 0 <= i < 12 ==> e.ip[..12][i] == e.ip[i];
    } else if |e.ip| == 16 {
      assert forall i :: 0 <= i < 12 ==> e.ip[i] == e.ip[..12][i];
    }
  }

  lemma FourBodies(a: Attribute, b: Attribute, c: Attribute, d: Attribute, tx: seq<Byte>)
    requires |tx| == 12 && forall x <- [a, b, c, d] :: ValidAttribute(x)
    ensures Body([a, b, c, d], tx) == Encoded(a, tx) + Encoded(b, tx) + Encoded(c, tx) + Encoded(d, tx)
  {
    hide Encoded;
    hide ValidAttribute;
    hide Body;
    BodyOf(a, [b, c, d], tx);
    BodyOf(b, [c, d], tx);
    BodyOf(c, [d], tx);
    BodyOf(d, [], tx);
    assert [a] + [b, c, d] == [a, b, c, d] && [b] + [c, d] == [b, c, d] && [c] + [d] == [c, d] && [d] + [] == [d];
  }

  lemma BodyOf(a: Attribute, rest: seq<Attribute>, tx: seq<Byte>)
    requires |tx| == 12 && ValidAttribute(a) && forall x <- rest :: ValidAttribute(x)
    ensures Body([a] + rest, tx) == Encoded(a, tx) + Body(rest, tx) && Body([], tx) == []
  {
    assert ([a] + rest)[1..] == rest;
  }

  // ----- whose response it is

  /** A success echoes the transaction of the request. */
  lemma SuccessIsOwn(m: seq<Byte>, tx: seq<Byte>)
    requires Parse(m, tx).Ok?
    ensures |m| >= 20 && m[8..20] == tx && m[4..8] == COOKIE && Parse(m, tx).value.mapped.Some?
  {
    AttributesMapped(m, 20, 20 + Uint16(m[2], m[3]), tx, NOTHING);
  }

  lemma {:induction false} AttributesMapped(m: seq<Byte>, offset: nat, end: nat, tx: seq<Byte>, b: Binding)
    requires end <= |m| && |tx| == 12
    ensures Attributes(m, offset, end, tx, b).Ok? ==> Attributes(m, offset, end, tx, b).value.mapped.Some?
    decreases |m| + 4 - offset
  {
    hide Address;
    hide Noted;
    if offset + 4 <= end {
      var kind, length := Uint16(m[offset], m[offset + 1]), Uint16(m[offset + 2], m[offset + 3]);
      var stop := offset + 4 + length;
      if stop <= |m| {
        if !Known(kind) {
          AttributesMapped(m, stop + Padding(length), end, tx, b);
        } else {
          var address := Address(m[offset + 4..stop], kind == XOR_MAPPED, tx);
          if address.Ok? {
            AttributesMapped(m, stop + Padding(length), end, tx, Noted(b, kind, address.value));
          }
        }
      }
    }
  }

  const BUFFER: nat := 2048

  function Received(datagram: seq<Byte>): seq<Byte> { if |datagram| > BUFFER then datagram[..BUFFER] else datagram }

  /** stunBindingUDP: `datagrams` arrive before the deadline, None is the deadline. `used` of them are read; all but
      the last answer another transaction, and the last one decides. */
  method BindingUdp(tx: seq<Byte>, datagrams: seq<seq<Byte>>) returns (r: Option<Result<Binding>>, used: nat)
    requires |tx| == 12
    ensures used <= |datagrams|
    ensures forall k :: 0 <= k < (if r.Some? then used - 1 else used) ==>
              Parse(Received(datagrams[k]), tx) == Err(Mismatch)
    ensures r.None? ==> used == |datagrams|
    ensures r.Some? ==> used > 0 && r.value == Parse(Received(datagrams[used - 1]), tx) && r.value != Err(Mismatch)
    ensures r.Some? && r.value.Ok? ==> |datagrams[used - 1]| >= 20 && datagrams[used - 1][8..20] == tx
  {
    used := 0;
    while used < |datagrams|
      invariant 0 <= used <= |datagrams|
      invariant forall k :: 0 <= k < used ==> Parse(Received(datagrams[k]), tx) == Err(Mismatch)
    {
      var result := ParseResponse(Received(datagrams[used]), tx);
      used := used + 1;
      if result != Err(Mismatch) {
        if result.Ok? {
          SuccessIsOwn(Received(datagrams[used - 1]), tx);
        }
        return Some(result), used;
      }
    }
    r := None;
  }

  // ----- bytes past the declared body

  /** Before its first error the walk over the attributes meets one that ends past the declared body. */
  predicate Overruns(m: seq<Byte>, offset: nat, end: nat, tx: seq<Byte>)
    requires end <= |m| && |tx| == 12
    decreases |m| + 4 - offset
  {
    if offset + 4 > end then false
    else
      var kind, length := Uint16(m[offset], m[offset + 1]), Uint16(m[offset + 2], m[offset + 3]);
      var stop := offset + 4 + length;
      stop > end ||
      ((Known(kind) ==> Address(m[offset + 4..stop], kind == XOR_MAPPED, tx).Ok?) &&
       Overruns(m, stop + Padding(length), end, tx))
  }

  /** The header is in order, and the declared body ends where the datagram does. */
  predicate Headed(m: seq<Byte>, tx: seq<Byte>) {
    && |m| >= 20 && m[4..8] == COOKIE && m[8..20] == tx && Uint16(m[0], m[1]) == 0x0101
    && 20 + Uint16(m[2], m[3]) == |m|
  }

  lemma SameWalk(m: seq<Byte>, t: seq<Byte>, offset: nat, length: nat)
    requires offset + 4 + length <= |m|
    ensures var n := m + t;
            && n[offset] == m[offset] && n[offset + 1] == m[offset + 1] && n[offset + 2] == m[offset + 2]
            && n[offset + 3] == m[offset + 3] &&
               n[offset + 4..offset + 4 + length] == m[offset + 4..offset + 4 + length]
  {
  }

  /** Without an overrun, what follows the body is not read. */
  lemma {:induction false} BodyAlone(m: seq<Byte>, t: seq<Byte>, offset: nat, tx: seq<Byte>, b: Binding)
    requires |tx| == 12 && !Overruns(m, offset, |m|, tx)
    ensures Attributes(m + t, offset, |m|, tx, b) == Attributes(m, offset, |m|, tx, b)
    decreases |m| + 4 - offset
  {
    hide Address;
    hide Noted;
    hide Uint16;
    if offset + 4 <= |m| {
      var kind, length := Uint16(m[offset], m[offset + 1]), Uint16(m[offset + 2], m[offset + 3]);
      var next := offset + 4 + length + Padding(length);
      SameWalk(m, t, offset, length);
      if !Known(kind) {
        BodyAlone(m, t, next, tx, b);
      } else {
        var address := Address(m[offset + 4..offset + 4 + length], kind == XOR_MAPPED, tx);
        if address.Ok? {
          BodyAlone(m, t, next, tx, Noted(b, kind, address.value));
        }
      }
    }
  }

  /** With an overrun, the body alone is truncated, and is not with enough bytes behind it. */
  lemma {:induction false} OverrunDecides(m: seq<Byte>, t: seq<Byte>, offset: nat, tx: seq<Byte>, b: Binding)
    requires |tx| == 12 && |t| >= 0x1_0000 && Overruns(m, offset, |m|, tx)
    ensures Attributes(m, offset, |m|, tx, b) == Err(TruncatedAttribute)
    ensures Attributes(m + t, offset, |m|, tx, b) != Err(TruncatedAttribute)
    decreases |m| + 4 - offset
  {
    hide Noted;
    hide Uint16;
    hide Unmask;
    hide Xor16;
    var kind, length := Uint16(m[offset], m[offset + 1]), Uint16(m[offset + 2], m[offset + 3]);
    var next := offset + 4 + length + Padding(length);
    SameWalk(m, t, offset, 0);
    if offset + 4 + length <= |m| {
      SameWalk(m, t, offset, length);
      if !Known(kind) {
        OverrunDecides(m, t, next, tx, b);
      } else {
        var address := Address(m[offset + 4..offset + 4 + length], kind == XOR_MAPPED, tx);
        OverrunDecides(m, t, next, tx, Noted(b, kind, address.value));
      }
    }
  }

  lemma HeadedParses(m: seq<Byte>, t: seq<Byte>, tx: seq<Byte>)
    requires Headed(m, tx)
    ensures Parse(m + t, tx) == Attributes(m + t, 20, |m|, tx, NOTHING)
  {
    var n := m + t;
    assert n[4..8] == m[4..8] && n[8..20] == m[8..20];
  }

  /** What follows the declared body changes the answer for some continuation exactly when an attribute overruns the
      body: it is bounded by the datagram, and not by the body. */
  lemma TrailingIff(m: seq<Byte>, tx: seq<Byte>)
    requires Headed(m, tx)
    ensures (forall t: seq<Byte> :: Parse(m + t, tx) == Parse(m, tx)) <==> !Overruns(m, 20, |m|, tx)
  {
    hide Parse;
    hide Attributes;
    hide Overruns;
    assert m + [] == m;
    HeadedParses(m, [], tx);
    if Overruns(m, 20, |m|, tx) {
      var t: seq<Byte> := seq(0x1_0000, _ => 0);
      HeadedParses(m, t, tx);
      OverrunDecides(m, t, 20, tx, NOTHING);
      assert Parse(m + t, tx) != Parse(m, tx);
    } else {
      forall t: seq<Byte> ensures Parse(m + t, tx) == Parse(m, tx) {
        HeadedParses(m, t, tx);
        BodyAlone(m, t, 20, tx, NOTHING);
      }
    }
  }

  /** A mapped address whose value lies past the declared body. */
  const OVERRUN: seq<Byte> := [0x00, 0x01, 0x00, 0x08]

  /** The overrun at its worst: bytes past the body decide whether the response is rejected, and what it says. */
  lemma BodyEndIgnored(tx: seq<Byte>, value: seq<Byte>)
    requires |tx| == 12 && |value| == 8 && value[1] == 1
    ensures var m := Bytes16(0x0101) + Bytes16(4) + COOKIE + tx + OVERRUN;
            && Parse(m, tx) == Err(TruncatedAttribute)
            && Parse(m + value, tx).Ok?
            && Parse(m + value, tx).value.mapped == Some(Endpoint(value[4..8], Uint16(value[2], value[3])))
  {
    var header := Bytes16(0x0101) + Bytes16(4) + COOKIE + tx;
    HeaderReads(header, OVERRUN, 4, tx);
    HeaderReads(header, OVERRUN + value, 4, tx);
    assert header + OVERRUN + value == header + (OVERRUN + value);
    var m, long := header + OVERRUN, header + (OVERRUN + value);
    assert long[24..32] == value;
    assert Attributes(m, 20, 24, tx, NOTHING) == Err(TruncatedAttribute);
    var e := Endpoint(value[4..8], Uint16(value[2], value[3]));
    assert long[20] == 0 && long[21] == 1 && long[22] == 0 && long[23] == 8;
    assert Address(value, false, tx) == Ok(e);
    assert Attributes(long, 20, 24, tx, NOTHING) == Attributes(long, 32, 24, tx, Noted(NOTHING, MAPPED, e));
  }
}
