/** The scanner of internal/engine/quick_tunnel.go, which finds the generated address in cloudflared's output however
    the output is cut into writes. A char stands for a byte. */
module QuickTunnel {
  import opened Basics

  const BUFFER_LIMIT: nat := 8192
  const SCHEME: string := "https://"
  const DOMAIN: string := ".trycloudflare.com"

  // ----- quickURLPattern as a language

  predicate Alphanumeric(c: char) { 'a' <= c <= 'z' || '0' <= c <= '9' }

  /** [a-z0-9]+ */
  predicate Word(s: string) { s != "" && forall c <- s :: Alphanumeric(c) }

  /** [a-z0-9]+(?:-[a-z0-9]+)* */
  predicate Label(s: string)
    decreases |s|
  {
    Word(s) || exists k :: 0 < k < |s| && s[k] == '-' && Word(s[..k]) && Label(s[k + 1..])
  }

  /** [\s"/], where \s is the set of RE2. */
  predicate Terminator(c: char) { c in {' ', '\t', '\n', '\r', FORM_FEED, '\"', '/'} }

  const FORM_FEED: char := 12 as char

  ghost predicate Address(s: string) {
    exists name :: Label(name) && s == SCHEME + name + DOMAIN
  }

  /** The pattern matches s from i up to j: an address and one terminator, or an address that ends the text. */
  ghost predicate Matches(s: string, i: nat, j: nat) {
    && i <= j <= |s|
    && ((j == |s| && Address(s[i..j])) || (i < j && Address(s[i..j - 1]) && Terminator(s[j - 1])))
  }

  /** Lower-case letters, digits and inner hyphens, none beside another. */
  predicate Hyphenated(s: string) {
    && s != "" && s[0] != '-' && s[|s| - 1] != '-'
    && (forall i :: 0 <= i < |s| ==> 'a' <= s[i] <= 'z' || '0' <= s[i] <= '9' || s[i] == '-')
    && forall i :: 0 <= i < |s| - 1 ==> s[i] != '-' || s[i + 1] != '-'
  }

  lemma WordIs(s: string)
    ensures Word(s) <==> s != "" && forall i :: 0 <= i < |s| ==> 'a' <= s[i] <= 'z' || '0' <= s[i] <= '9'
  {
    if Word(s) {
      forall i | 0 <= i < |s| ensures 'a' <= s[i] <= 'z' || '0' <= s[i] <= '9' {
        assert s[i] in s;
      }
    }
  }

  lemma HyphenJoins(a: string, b: string)
    requires Word(a) && Hyphenated(b)
    ensures Hyphenated(a + "-" + b)
  {
    WordIs(a);
    hide Word;
    var s := a + "-" + b;
    assert forall i :: |a| < i < |s| ==> s[i] == b[i - |a| - 1];
    assert s[|a|] == '-' && s[0] == a[0] && s[|s| - 1] == b[|b| - 1];
  }

  lemma HyphenSplits(s: string, k: nat)
    requires Hyphenated(s) && k < |s| && s[k] == '-' && forall i :: 0 <= i < k ==> s[i] != '-'
    ensures 0 < k < |s| - 1 && Word(s[..k]) && Hyphenated(s[k + 1..])
  {
    WordIs(s[..k]);
    hide Word;
    var rest := s[k + 1..];
    assert forall i :: 0 <= i < |rest| ==> rest[i] == s[i + k + 1];
  }

  lemma WordIsHyphenated(s: string)
    ensures Word(s) <==> Hyphenated(s) && forall i :: 0 <= i < |s| ==> s[i] != '-'
  {
    WordIs(s);
  }

  lemma {:induction false} LabelIff(s: string)
    ensures Label(s) <==> Hyphenated(s)
    decreases |s|
  {
    hide Word;
    hide Hyphenated;
    WordIsHyphenated(s);
    if Label(s) && !Word(s) {
      var k :| 0 < k < |s| && s[k] == '-' && Word(s[..k]) && Label(s[k + 1..]);
      LabelIff(s[k + 1..]);
      HyphenJoins(s[..k], s[k + 1..]);
      assert s == s[..k] + "-" + s[k + 1..];
    }
    if Hyphenated(s) && !Word(s) {
      var k := FirstHyphen(s);
      HyphenSplits(s, k);
      LabelIff(s[k + 1..]);
    }
  }

  lemma {:induction false} FirstHyphen(s: string) returns (k: nat)
    requires exists i :: 0 <= i < |s| && s[i] == '-'
    ensures k < |s| && s[k] == '-' && forall i :: 0 <= i < k ==> s[i] != '-'
  {
    if s[0] == '-' {
      k := 0;
    } else {
      k := FirstHyphen(s[1..]);
      k := k + 1;
      assert forall i :: 1 <= i < k ==> s[i] == s[1..][i - 1];
    }
  }

  /** What the pattern means: a generated address, and the characters that may follow it. */
  lemma AddressIff(s: string, c: char)
    ensures Address(s) <==> exists name :: Hyphenated(name) && s == "https://" + name + ".trycloudflare.com"
    ensures Terminator(c) <==> c in [' ', '\t', '\n', 12 as char, '\r', '\"', '/']
  {
    hide Label;
    hide Hyphenated;
    forall name ensures Label(name) <==> Hyphenated(name) {
      LabelIff(name);
    }
  }

  // ----- an explicit matcher

  predicate NameChar(c: char) { Alphanumeric(c) || c == '-' }

  /** The first index from i on that is no name character. */
  function RunEnd(s: string, i: nat): (k: nat)
    requires i <= |s|
    ensures i <= k <= |s|
    ensures forall x :: i <= x < k ==> NameChar(s[x])
    ensures k < |s| ==> !NameChar(s[k])
    decreases |s| - i
  {
    if i < |s| && NameChar(s[i]) then RunEnd(s, i + 1) else i
  }

  predicate StartsAt(s: string, i: nat, part: string) {
    i + |part| <= |s| && s[i..i + |part|] == part
  }

  /** The end of the match that starts at i. */
  function MatchEnd(s: string, i: nat): (j: Option<nat>)
    requires i <= |s|
    ensures j.Some? ==> i < j.value <= |s|
  {
    if !StartsAt(s, i, SCHEME) then None
    else
      var k := RunEnd(s, i + |SCHEME|);
      if !Label(s[i + |SCHEME|..k]) || !StartsAt(s, k, DOMAIN) then None
      else
        var e := k + |DOMAIN|;
        if e == |s| then Some(e) else if Terminator(s[e]) then Some(e + 1) else None
  }

  /** FindString: the match that starts leftmost, from `from` on. */
  function Find(s: string, from: nat): Option<string>
    requires from <= |s|
    decreases |s| - from
  {
    var end := MatchEnd(s, from);
    if end.Some? then Some(s[from..end.value])
    else if from < |s| then Find(s, from + 1) else None
  }

  // ----- the matcher accepts the language

  lemma {:induction false} LabelIsName(s: string)
    requires Label(s)
    ensures s != "" && forall x :: 0 <= x < |s| ==> NameChar(s[x])
    decreases |s|
  {
    if !Word(s) {
      var k :| 0 < k < |s| && s[k] == '-' && Word(s[..k]) && Label(s[k + 1..]);
      var first, rest := s[..k], s[k + 1..];
      LabelIsName(rest);
      forall x | 0 <= x < |s| ensures NameChar(s[x]) {
        if x < k {
          assert s[x] == first[x] && first[x] in first;
        } else if x > k {
          assert s[x] == rest[x - k - 1];
        }
      }
    }
  }

  /** The run of name characters after the scheme is the only candidate. */
  lemma RunIs(s: string, i: nat, name: string)
    requires i + |name| < |s| && s[i..i + |name|] == name && (forall x :: 0 <= x < |name| ==> NameChar(name[x]))
    requires !NameChar(s[i + |name|])
    ensures RunEnd(s, i) == i + |name|
  {
    assert forall x :: i <= x < i + |name| ==> s[x] == name[x - i];
  }

  /** The explicit matcher decides the pattern, and a match is determined by where it starts. */
  lemma MatcherDecides(s: string, i: nat, j: nat)
    requires i <= |s|
    ensures MatchEnd(s, i) == Some(j) <==> Matches(s, i, j)
  {
    if MatchEnd(s, i) == Some(j) {
      MatchEndSound(s, i, j);
    }
    if Matches(s, i, j) {
      if j == |s| && Address(s[i..j]) {
        AddressFound(s, i, j);
      } else {
        AddressFound(s, i, j - 1);
      }
    }
  }

  lemma MatchEndSound(s: string, i: nat, j: nat)
    requires i <= |s| && MatchEnd(s, i) == Some(j)
    ensures Matches(s, i, j)
  {
    hide Label;
    hide Terminator;
    hide RunEnd;
    var k := RunEnd(s, i + |SCHEME|);
    var name, e := s[i + |SCHEME|..k], k + |DOMAIN|;
    assert s[i..e] == SCHEME + name + DOMAIN;
  }

  lemma Slice(s: string, i: nat, e: nat, x: nat, y: nat)
    requires i <= e <= |s| && x <= y <= e - i
    ensures s[i..e][x..y] == s[i + x..i + y]
  {
    var t, u := s[i..e][x..y], s[i + x..i + y];
    forall k | 0 <= k < |t| ensures t[k] == u[k] {
      assert t[k] == s[i..e][x + k];
    }
  }

  /** The parts of a slice, where they stand in the text. */
  lemma Parts(s: string, i: nat, e: nat, a: string, b: string, c: string)
    requires i <= e <= |s| && s[i..e] == a + b + c
    ensures StartsAt(s, i, a) && StartsAt(s, i + |a|, b) && StartsAt(s, i + |a| + |b|, c) && e == i + |a| + |b| + |c|
  {
    var t := s[i..e];
    Slice(s, i, e, 0, |a|);
    Slice(s, i, e, |a|, |a| + |b|);
    Slice(s, i, e, |a| + |b|, |t|);
    assert t[..|a|] == a && t[|a|..|a| + |b|] == b && t[|a| + |b|..] == c;
  }

  lemma AddressFound(s: string, i: nat, e: nat)
    requires i <= e <= |s| && Address(s[i..e])
    ensures MatchEnd(s, i) == if e == |s| then Some(e) else if Terminator(s[e]) then Some(e + 1) else None
  {
    hide Label;
    hide Terminator;
    var name :| Label(name) && s[i..e] == SCHEME + name + DOMAIN;
    LabelIsName(name);
    Parts(s, i, e, SCHEME, name, DOMAIN);
    var k := i + |SCHEME| + |name|;
    assert s[k] == s[k..k + |DOMAIN|][0] == '.';
    RunIs(s, i + |SCHEME|, name);
  }

  // ----- a match does not cross a line

  predicate Ended(s: string) { s != "" && s[|s| - 1] == '\n' }

  lemma StartsBefore(a: string, b: string, i: nat, part: string)
    requires Ended(a) && i < |a| && '\n' !in part
    ensures StartsAt(a + b, i, part) <==> StartsAt(a, i, part)
  {
    if i + |part| <= |a| {
      assert (a + b)[i..i + |part|] == a[i..i + |part|];
    } else {
      var last := (a + b)[|a| - 1];
      assert StartsAt(a + b, i, part) ==> last in part;
    }
  }

  lemma {:induction false} RunBefore(a: string, b: string, i: nat)
    requires Ended(a) && i < |a|
    ensures RunEnd(a + b, i) == RunEnd(a, i) < |a|
    decreases |a| - i
  {
    if NameChar(a[i]) {
      RunBefore(a, b, i + 1);
    }
  }

  lemma MatchBefore(a: string, b: string, i: nat)
    requires Ended(a) && i < |a|
    ensures MatchEnd(a + b, i) == MatchEnd(a, i)
  {
    hide Label;
    StartsBefore(a, b, i, SCHEME);
    if StartsAt(a, i, SCHEME) {
      SchemeInside(a, i);
      RunBefore(a, b, i + |SCHEME|);
      var k := RunEnd(a, i + |SCHEME|);
      assert (a + b)[i + |SCHEME|..k] == a[i + |SCHEME|..k];
      StartsBefore(a, b, k, DOMAIN);
      if StartsAt(a, k, DOMAIN) {
        DomainInside(a, k);
      }
    }
  }

  /** The scheme and the domain end before the newline. */
  lemma SchemeInside(a: string, i: nat)
    requires Ended(a) && StartsAt(a, i, SCHEME)
    ensures i + |SCHEME| < |a|
  {
    assert a[i + |SCHEME| - 1] == a[i..i + |SCHEME|][|SCHEME| - 1] == '/';
  }

  lemma DomainInside(a: string, i: nat)
    requires Ended(a) && StartsAt(a, i, DOMAIN)
    ensures i + |DOMAIN| < |a|
  {
    assert a[i + |DOMAIN| - 1] == a[i..i + |DOMAIN|][|DOMAIN| - 1] == 'm';
  }

  lemma StartsAfter(a: string, b: string, i: nat, part: string)
    ensures StartsAt(a + b, |a| + i, part) <==> StartsAt(b, i, part)
    ensures StartsAt(b, i, part) ==> i + |part| <= |b|
  {
    if i + |part| <= |b| {
      assert (a + b)[|a| + i..|a| + i + |part|] == b[i..i + |part|];
    }
  }

  lemma {:induction false} RunAfter(a: string, b: string, i: nat)
    requires i <= |b|
    ensures RunEnd(a + b, |a| + i) == |a| + RunEnd(b, i)
    decreases |b| - i
  {
    if i < |b| && NameChar(b[i]) {
      RunAfter(a, b, i + 1);
    }
  }

  lemma MatchAfter(a: string, b: string, i: nat)
    requires i <= |b|
    ensures MatchEnd(a + b, |a| + i) == (match MatchEnd(b, i) case None => None case Some(j) => Some(|a| + j))
  {
    hide Label;
    hide StartsAt;
    hide Terminator;
    StartsAfter(a, b, i, SCHEME);
    if StartsAt(b, i, SCHEME) {
      RunAfter(a, b, i + |SCHEME|);
      var k := RunEnd(b, i + |SCHEME|);
      assert (a + b)[|a| + i + |SCHEME|..|a| + k] == b[i + |SCHEME|..k];
      StartsAfter(a, b, k, DOMAIN);
    }
  }

  lemma {:induction false} FindAfter(a: string, b: string, i: nat)
    requires i <= |b|
    ensures Find(a + b, |a| + i) == Find(b, i)
    decreases |b| - i
  {
    hide MatchEnd;
    MatchAfter(a, b, i);
    if MatchEnd(b, i).Some? {
      assert (a + b)[|a| + i..|a| + MatchEnd(b, i).value] == b[i..MatchEnd(b, i).value];
    } else if i < |b| {
      FindAfter(a, b, i + 1);
    }
  }

  lemma NothingAtEnd(s: string)
    ensures MatchEnd(s, |s|) == None
  {
  }

  /** The leftmost match of two runs of lines is that of the first, or else that of the second. */
  lemma {:induction false} FindSplit(a: string, b: string, i: nat)
    requires Ended(a) && i <= |a|
    ensures Find(a + b, i) == if Find(a, i).Some? then Find(a, i) else Find(b, 0)
    decreases |a| - i
  {
    hide MatchEnd;
    if i == |a| {
      NothingAtEnd(a);
      FindAfter(a, b, 0);
    } else {
      MatchBefore(a, b, i);
      if MatchEnd(a, i).Some? {
        assert (a + b)[i..MatchEnd(a, i).value] == a[i..MatchEnd(a, i).value];
      } else {
        FindSplit(a, b, i + 1);
      }
    }
  }

  // ----- the scanner

  /** The length of the longest prefix that ends with a newline. */
  function LineEnd(s: string): (n: nat)
    ensures n <= |s| && (n == 0 || s[n - 1] == '\n')
    ensures forall k :: n <= k < |s| ==> s[k] != '\n'
  {
    if s == "" then 0 else if s[|s| - 1] == '\n' then |s| else LineEnd(s[..|s| - 1])
  }

  /** The complete lines of a text, and what follows them. */
  function Lines(s: string): string { s[..LineEnd(s)] }

  function Tail(s: string): string { s[LineEnd(s)..] }

  /** strings.TrimRight with the cutset of Write, which lacks the form feed. */
  function TrimRight(s: string): string {
    if s != "" && s[|s| - 1] in {' ', '\r', '\n', '\t', '\"', '/'} then TrimRight(s[..|s| - 1]) else s
  }

  /** Only characters of the cutset go, and all of them at the end. */
  lemma {:induction false} TrimRightIs(s: string)
    ensures var t := TrimRight(s);
            && t <= s && (t != "" ==> t[|t| - 1] !in [' ', '\r', '\n', '\t', '\"', '/'])
            && forall i :: |t| <= i < |s| ==> s[i] in [' ', '\r', '\n', '\t', '\"', '/']
  {
    if s != "" {
      var last := s[|s| - 1];
      if last == ' ' || last == '\r' || last == '\n' || last == '\t' || last == '\"' || last == '/' {
        TrimRightIs(s[..|s| - 1]);
        assert TrimRight(s) == TrimRight(s[..|s| - 1]);
      }
    }
  }

  function LastBytes(s: string): string {
    if |s| > BUFFER_LIMIT then s[|s| - BUFFER_LIMIT..] else s
  }

  /** The last 8192 bytes are kept. */
  lemma LastBytesIs(s: string)
    ensures |s| <= 8192 ==> LastBytes(s) == s
    ensures |s| > 8192 ==> LastBytes(s) == s[|s| - 8192..]
  {
  }

  /** `recorded` is the address this output has written to its service row. */
  datatype Output = Output(buffer: string, found: bool, recorded: Option<string>)

  const FRESH: Output := Output("", false, None)

  /** One Write; `accepted`: the command is current and the row could be saved. */
  function Written(o: Output, data: string, accepted: bool): Output {
    if o.found then o
    else
      var text := o.buffer + data;
      var hit := Find(Lines(text), 0);
      if hit.Some? && accepted then Output(LastBytes(Tail(text)), true, Some(TrimRight(hit.value)))
      else Output(LastBytes(Tail(text)), false, o.recorded)
  }

  function WriteAll(o: Output, chunks: seq<string>): Output
    decreases |chunks|
  {
    if chunks == [] then o else WriteAll(Written(o, chunks[0], true), chunks[1..])
  }

  function Concat(chunks: seq<string>): string {
    if chunks == [] then "" else chunks[0] + Concat(chunks[1..])
  }

  // ----- what the scanner finds

  /** For every stream: partial lines take bounded memory. */
  lemma {:induction false} BufferBounded(o: Output, chunks: seq<string>)
    requires |o.buffer| <= BUFFER_LIMIT
    ensures |WriteAll(o, chunks).buffer| <= BUFFER_LIMIT
    decreases |chunks|
  {
    hide Find;
    if chunks != [] {
      BufferBounded(Written(o, chunks[0], true), chunks[1..]);
    }
  }

  /** No unterminated tail exceeds the buffer, wherever a write ends. */
  predicate TailsFit(before: string, chunks: seq<string>)
    decreases |chunks|
  {
    chunks == [] || (|Tail(before + chunks[0])| <= BUFFER_LIMIT && TailsFit(before + chunks[0], chunks[1..]))
  }

  /** The scanner after the stream so far: the address of the leftmost match in its complete lines, or else the
      unterminated tail. */
  ghost predicate Scanned(o: Output, stream: string) {
    var hit := Find(Lines(stream), 0);
    && o.found == hit.Some?
    && o.recorded == (if hit.Some? then Some(TrimRight(hit.value)) else None)
    && (!o.found ==> o.buffer == Tail(stream))
  }

  lemma LineEndIs(s: string, n: nat)
    requires n <= |s| && (n == 0 || s[n - 1] == '\n') && forall k :: n <= k < |s| ==> s[k] != '\n'
    ensures LineEnd(s) == n
  {
  }

  lemma LineEndSplit(a: string, b: string)
    requires a == "" || Ended(a)
    ensures LineEnd(a + b) == |a| + LineEnd(b)
  {
    hide LineEnd;
    var s, m := a + b, LineEnd(b);
    forall k | |a| + m <= k < |s| ensures s[k] != '\n' {
      assert s[k] == b[k - |a|];
    }
    LineEndIs(s, |a| + m);
  }

  /** More output completes the tail: what was complete stays, and the tail is scanned again with the new data. */
  lemma LinesGrow(s: string, data: string)
    ensures Lines(s + data) == Lines(s) + Lines(Tail(s) + data)
    ensures Tail(s + data) == Tail(Tail(s) + data)
  {
    hide LineEnd;
    var a, rest := Lines(s), Tail(s) + data;
    LineEndSplit(a, rest);
    SliceSplit(a, rest, LineEnd(rest));
    assert s + data == a + rest;
  }

  lemma SliceSplit(a: string, b: string, m: nat)
    requires m <= |b|
    ensures (a + b)[..|a| + m] == a + b[..m] && (a + b)[|a| + m..] == b[m..]
  {
  }

  lemma WrittenKeepsScanned(o: Output, stream: string, data: string)
    requires Scanned(o, stream) && |Tail(stream + data)| <= BUFFER_LIMIT
    ensures Scanned(Written(o, data, true), stream + data)
  {
    hide Find;
    hide TrimRight;
    LinesGrow(stream, data);
    var a, b := Lines(stream), Lines(Tail(stream) + data);
    if a == "" {
      assert a + b == b;
      NothingInNothing();
    } else {
      FindSplit(a, b, 0);
    }
  }

  lemma NothingInNothing()
    ensures Find("", 0) == None
  {
  }

  lemma {:induction false} WriteAllScanned(o: Output, stream: string, chunks: seq<string>)
    requires Scanned(o, stream) && TailsFit(stream, chunks)
    ensures Scanned(WriteAll(o, chunks), stream + Concat(chunks))
    decreases |chunks|
  {
    hide Scanned;
    hide Written;
    if chunks == [] {
      assert stream + Concat(chunks) == stream;
    } else {
      WrittenKeepsScanned(o, stream, chunks[0]);
      WriteAllScanned(Written(o, chunks[0], true), stream + chunks[0], chunks[1..]);
      assert stream + chunks[0] + Concat(chunks[1..]) == stream + Concat(chunks);
    }
  }

  /** However the output is cut into writes, the recorded address is that of the leftmost match in the complete
      lines of the whole output. */
  lemma ChunkingIsInvisible(chunks: seq<string>)
    requires TailsFit("", chunks)
    ensures var hit := Find(Lines(Concat(chunks)), 0);
            && WriteAll(FRESH, chunks).found == hit.Some?
            && WriteAll(FRESH, chunks).recorded == (if hit.Some? then Some(TrimRight(hit.value)) else None)
  {
    assert Lines("") == "";
    NothingInNothing();
    assert "" + Concat(chunks) == Concat(chunks);
    WriteAllScanned(FRESH, "", chunks);
  }

  // ----- what is recorded

  ghost predicate LeftmostFrom(s: string, from: nat, i: nat, j: nat) {
    from <= i <= j <= |s| && Matches(s, i, j) && forall h: nat, k: nat :: from <= h < i ==> !Matches(s, h, k)
  }

  /** Find returns the match with the least start, and misses none. */
  lemma {:induction false} FindIsLeftmost(s: string, from: nat)
    requires from <= |s|
    ensures match Find(s, from)
            case None => forall i: nat, j: nat :: from <= i ==> !Matches(s, i, j)
            case Some(m) => exists i: nat, j: nat :: LeftmostFrom(s, from, i, j) && m == s[i..j]
    decreases |s| - from
  {
    hide MatchEnd;
    hide Matches;
    forall j: nat ensures MatchEnd(s, from) == Some(j) <==> Matches(s, from, j) { MatcherDecides(s, from, j); }
    if MatchEnd(s, from).Some? {
      assert LeftmostFrom(s, from, from, MatchEnd(s, from).value);
    } else if from < |s| {
      FindIsLeftmost(s, from + 1);
      if Find(s, from).Some? {
        var i: nat, j: nat :| LeftmostFrom(s, from + 1, i, j) && Find(s, from).value == s[i..j];
        assert LeftmostFrom(s, from, i, j);
      }
    } else {
      forall i: nat, j: nat | from <= i ensures !Matches(s, i, j) { NoMatchBeyond(s, i, j); }
    }
  }

  lemma NoMatchBeyond(s: string, i: nat, j: nat)
    requires i >= |s|
    ensures !Matches(s, i, j)
  {
    if Matches(s, i, j) {
      MatcherDecides(s, i, j);
    }
  }

  lemma AddressEnds(s: string)
    requires Address(s)
    ensures s != "" && s[|s| - 1] == 'm'
  {
    var name :| Label(name) && s == SCHEME + name + DOMAIN;
  }

  /** Trimming a match leaves the bare address, unless the terminator is a form feed: the pattern admits it, and the
      cutset does not. */
  lemma TrimmedIff(s: string, i: nat, j: nat)
    requires Matches(s, i, j)
    ensures i < j && (Address(TrimRight(s[i..j])) <==> s[j - 1] != FORM_FEED)
  {
    hide Address;
    if Address(s[i..j]) {
      AddressEnds(s[i..j]);
    } else {
      var address := s[i..j - 1];
      AddressEnds(address);
      assert s[i..j][..j - 1 - i] == address;
    }
  }

  /** The failing half is met by every address: after a line that ends it with a form feed, the recorded text keeps the
      form feed, and is no address. */
  lemma FormFeedIsRecorded(address: string)
    requires Address(address)
    ensures var text := address + [FORM_FEED];
            WriteAll(FRESH, [text + ['\n']]).recorded == Some(text) && !Address(text)
  {
    hide MatchEnd;
    hide Find;
    hide Matches;
    hide Address;
    var text := address + [FORM_FEED];
    var s, n := text + ['\n'], |text|;
    FeedMatches(address);
    FoundAtStart(s, n);
    TrimmedIff(s, 0, n);
    assert s[0..n] == text && text[n - 1] == FORM_FEED;
    assert TrimRight(text) == text;
    WholeLine(s);
    assert WriteAll(FRESH, [s]) == Written(FRESH, s, true);
  }

  lemma FeedMatches(address: string)
    requires Address(address)
    ensures Matches(address + [FORM_FEED, '\n'], 0, |address| + 1)
    ensures address + [FORM_FEED, '\n'] == address + [FORM_FEED] + ['\n']
  {
    hide Address;
    var s := address + [FORM_FEED, '\n'];
    assert s[0..|address|] == address;
  }

  lemma FoundAtStart(s: string, j: nat)
    requires Matches(s, 0, j)
    ensures j <= |s| && Find(s, 0) == Some(s[0..j])
  {
    hide MatchEnd;
    MatcherDecides(s, 0, j);
  }

  lemma WholeLine(s: string)
    requires Ended(s)
    ensures Lines("" + s) == s
  {
    assert "" + s == s && s[..|s|] == s;
  }

  /** One such line. */
  lemma OneFeedLine()
    ensures var text := SCHEME + "a" + DOMAIN + [FORM_FEED];
            WriteAll(FRESH, [text + ['\n']]).recorded == Some(text) && !Address(text)
  {
    hide WriteAll;
    assert Address(SCHEME + "a" + DOMAIN) by {
      assert Label("a");
    }
    hide Address;
    FormFeedIsRecorded(SCHEME + "a" + DOMAIN);
  }

  // ----- any stream

  datatype Chunk = Chunk(data: string, accepted: bool)

  function Feed(o: Output, chunks: seq<Chunk>): Output
    decreases |chunks|
  {
    if chunks == [] then o else Feed(Written(o, chunks[0].data, chunks[0].accepted), chunks[1..])
  }

  function StreamOf(chunks: seq<Chunk>): string {
    if chunks == [] then "" else chunks[0].data + StreamOf(chunks[1..])
  }

  ghost predicate Printed(lines: string, address: string) {
    exists i: nat :: i < |lines| && MatchEnd(lines, i).Some? && address == TrimRight(lines[i..MatchEnd(lines, i).value])
  }

  /** The buffer is the end of the stream, and what is recorded was matched in its complete lines. */
  ghost predicate Sound(o: Output, stream: string) {
    && (!o.found ==> |o.buffer| <= |stream| && stream[|stream| - |o.buffer|..] == o.buffer)
    && (o.recorded.Some? ==> Printed(Lines(stream), o.recorded.value))
    && (o.found <==> o.recorded.Some?)
  }

  lemma PrintedGrows(stream: string, data: string, address: string)
    requires Printed(Lines(stream), address)
    ensures Printed(Lines(stream + data), address)
  {
    hide MatchEnd;
    hide TrimRight;
    hide LineEnd;
    LinesGrow(stream, data);
    var a, b := Lines(stream), Lines(Tail(stream) + data);
    var i: nat :| i < |a| && MatchEnd(a, i).Some? && address == TrimRight(a[i..MatchEnd(a, i).value]);
    MatchBefore(a, b, i);
    assert (a + b)[i..MatchEnd(a, i).value] == a[i..MatchEnd(a, i).value];
  }

  lemma LinesInside(before: string, text: string)
    requires Lines(text) != ""
    ensures Ended(Lines(text)) && Lines(before + text) == before + Lines(text)
  {
    hide LineEnd;
    var all := before + Lines(text);
    LineEndSplit(all, Tail(text));
    NoNewlineAfter(text);
    assert before + text == all + Tail(text);
    SliceSplit(all, Tail(text), 0);
  }

  /** A match in the buffered text is one in the stream. */
  lemma PrintedInside(before: string, text: string, hit: string)
    requires Find(Lines(text), 0) == Some(hit)
    ensures Printed(Lines(before + text), TrimRight(hit))
  {
    hide MatchEnd;
    hide TrimRight;
    hide Lines;
    hide Find;
    hide Ended;
    NothingInNothing();
    LinesInside(before, text);
    var lines := Lines(text);
    FindHits(lines, 0);
    var i: nat :| i < |lines| && MatchEnd(lines, i).Some? && hit == lines[i..MatchEnd(lines, i).value];
    MatchAfter(before, lines, i);
    SliceAfter(before, lines, i, MatchEnd(lines, i).value);
  }

  lemma SliceAfter(a: string, b: string, i: nat, e: nat)
    requires i <= e <= |b|
    ensures (a + b)[|a| + i..|a| + e] == b[i..e]
  {
  }

  lemma NoNewlineAfter(text: string)
    ensures LineEnd(Tail(text)) == 0
  {
    LineEndIs(Tail(text), 0);
  }

  lemma {:induction false} FindHits(s: string, from: nat)
    requires from <= |s| && Find(s, from).Some? && Ended(s)
    ensures exists i: nat :: i < |s| && MatchEnd(s, i).Some? && Find(s, from).value == s[i..MatchEnd(s, i).value]
    decreases |s| - from
  {
    if MatchEnd(s, from).None? {
      FindHits(s, from + 1);
    }
  }

  lemma WrittenKeepsSound(o: Output, stream: string, data: string, accepted: bool)
    requires Sound(o, stream)
    ensures Sound(Written(o, data, accepted), stream + data)
  {
    hide Find;
    hide TrimRight;
    hide LineEnd;
    hide Printed;
    if o.found {
      PrintedGrows(stream, data, o.recorded.value);
      return;
    }
    var text, s := o.buffer + data, stream + data;
    var before := s[..|s| - |text|];
    assert s == before + text by {
      assert s[|s| - |text|..] == text;
    }
    var hit := Find(Lines(text), 0);
    if hit.Some? {
      PrintedInside(before, text, hit.value);
    }
    SuffixOf(s, before, text);
  }

  lemma SuffixOf(s: string, before: string, text: string)
    requires s == before + text
    ensures var b := LastBytes(Tail(text)); |b| <= |s| && s[|s| - |b|..] == b
  {
    hide LineEnd;
  }

  lemma {:induction false} FeedSound(o: Output, stream: string, chunks: seq<Chunk>)
    requires Sound(o, stream)
    ensures Sound(Feed(o, chunks), stream + StreamOf(chunks))
    decreases |chunks|
  {
    hide Sound;
    hide Written;
    if chunks == [] {
      assert stream + StreamOf(chunks) == stream;
    } else {
      WrittenKeepsSound(o, stream, chunks[0].data, chunks[0].accepted);
      FeedSound(Written(o, chunks[0].data, chunks[0].accepted), stream + chunks[0].data, chunks[1..]);
      assert stream + chunks[0].data + StreamOf(chunks[1..]) == stream + StreamOf(chunks);
    }
  }

  /** For every stream, split and truncated in any way, with the command superseded or the save failing at any write:
      a recorded address was printed by the command, as a match in its complete lines. */
  lemma RecordedWasPrinted(chunks: seq<Chunk>)
    ensures var o := Feed(FRESH, chunks); o.recorded.Some? ==> Printed(Lines(StreamOf(chunks)), o.recorded.value)
  {
    hide Printed;
    hide Feed;
    hide StreamOf;
    hide Lines;
    FeedSound(FRESH, "", chunks);
    assert "" + StreamOf(chunks) == StreamOf(chunks);
  }
}
