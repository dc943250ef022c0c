/** UTF-8 as section 3 of RFC 3629 lays it out, and cutting a text at character boundaries. */
module Utf8 {
  import opened Prelude

  type Byte = n: nat | n < 256

  function EncodeChar(c: char): (bytes: seq<Byte>)
    ensures 1 <= |bytes| <= 4 && !IsContinuation(bytes[0])
    ensures forall i | 1 <= i < |bytes| :: IsContinuation(bytes[i])
  {
    var n := c as int;
    if n < 0x80 then [n]
    else if n < 0x800 then [0xC0 + n / 0x40, 0x80 + n % 0x40]
    else if n < 0x10000 then [0xE0 + n / 0x1000, 0x80 + n / 0x40 % 0x40, 0x80 + n % 0x40]
    else [0xF0 + n / 0x40000, 0x80 + n / 0x1000 % 0x40, 0x80 + n / 0x40 % 0x40, 0x80 + n % 0x40]
  }

  predicate IsContinuation(b: Byte) {
    0x80 <= b < 0xC0
  }

  function Encode(text: string): seq<Byte> {
    if text == "" then [] else EncodeChar(text[0]) + Encode(text[1..])
  }

  /** The length of a text in bytes. */
  function ByteLength(text: string): nat {
    |Encode(text)|
  }

  // ---------- Decoding ----------

  /** How many bytes the character takes that starts with this byte; 0 when none does. */
  function SequenceLength(first: Byte): nat {
    if first <= 0x7F then 1
    else if 0xC2 <= first <= 0xDF then 2
    else if 0xE0 <= first <= 0xEF then 3
    else if 0xF0 <= first <= 0xF4 then 4
    else 0
  }

  /** The six bits of a continuation byte. */
  function Payload(b: Byte): nat {
    if IsContinuation(b) then b - 0x80 else 0
  }

  /** The number the first character of the bytes spells, by the bit layout of section 3 of RFC 3629. */
  function CodePoint(bytes: seq<Byte>): nat
    requires bytes != [] && 0 < SequenceLength(bytes[0]) <= |bytes|
  {
    match SequenceLength(bytes[0])
    case 1 => bytes[0]
    case 2 => (bytes[0] - 0xC0) * 0x40 + Payload(bytes[1])
    case 3 => (bytes[0] - 0xE0) * 0x1000 + Payload(bytes[1]) * 0x40 + Payload(bytes[2])
    case _ =>
      (bytes[0] - 0xF0) * 0x40000 + Payload(bytes[1]) * 0x1000 + Payload(bytes[2]) * 0x40 + Payload(bytes[3])
  }

  /** The first number that needs this many bytes. */
  function FirstOfLength(n: nat): nat {
    match n
    case 2 => 0x80
    case 3 => 0x800
    case 4 => 0x10000
    case _ => 0
  }

  predicate IsScalar(n: nat) {
    n < 0xD800 || 0xE000 <= n < 0x110000
  }

  /** The bytes start with a character in its only form. */
  predicate StartsWithChar(bytes: seq<Byte>) {
    && bytes != [] && 0 < SequenceLength(bytes[0]) <= |bytes|
    && (forall i | 1 <= i < SequenceLength(bytes[0]) :: IsContinuation(bytes[i]))
    && FirstOfLength(SequenceLength(bytes[0])) <= CodePoint(bytes) && IsScalar(CodePoint(bytes))
  }

  /** Read bytes as UTF-8; None when they are not. */
  function Decode(bytes: seq<Byte>): Option<string>
    decreases |bytes|
  {
    if bytes == [] then Some("")
    else if !StartsWithChar(bytes) then None
    else match Decode(bytes[SequenceLength(bytes[0])..])
      case None => None
      case Some(rest) => Some([CodePoint(bytes) as char] + rest)
  }

  /** A character spells its own number, in no more bytes than it needs. */
  lemma CharDecodes(c: char, rest: seq<Byte>)
    ensures var bytes := EncodeChar(c) + rest;
            && StartsWithChar(bytes) && CodePoint(bytes) == c as int
            && SequenceLength(bytes[0]) == |EncodeChar(c)| && bytes[|EncodeChar(c)|..] == rest
  {
    var lone, bytes := EncodeChar(c), EncodeChar(c) + rest;
    LoneCharDecodes(c);
    assert bytes[..|lone|] == lone && bytes[|lone|..] == rest;
    SameStart(lone, bytes);
  }

  /** The digits of a number in base 64. */
  lemma Digits(n: nat)
    ensures n == n / 0x40 * 0x40 + n % 0x40
    ensures n / 0x40 == n / 0x1000 * 0x40 + n / 0x40 % 0x40
    ensures n / 0x1000 == n / 0x40000 * 0x40 + n / 0x1000 % 0x40
  {
  }

  lemma LoneCharDecodes(c: char)
    ensures StartsWithChar(EncodeChar(c)) && CodePoint(EncodeChar(c)) == c as int
    ensures SequenceLength(EncodeChar(c)[0]) == |EncodeChar(c)|
  {
    Digits(c as int);
  }

  /** Only the bytes of the first character count. */
  lemma SameStart(a: seq<Byte>, b: seq<Byte>)
    requires a <= b && StartsWithChar(a)
    ensures StartsWithChar(b) && CodePoint(b) == CodePoint(a) && SequenceLength(b[0]) == SequenceLength(a[0])
  {
    assert forall i | 0 <= i < |a| :: a[i] == b[i];
  }

  /** What four digits in base 64 make, and how they come back. */
  lemma FromDigits(a: nat, b: nat, c: nat, d: nat)
    requires b < 0x40 && c < 0x40 && d < 0x40
    ensures var n := a * 0x40000 + b * 0x1000 + c * 0x40 + d;
            n / 0x40000 == a && n / 0x1000 % 0x40 == b && n / 0x40 % 0x40 == c && n % 0x40 == d
            && n / 0x1000 == a * 0x40 + b && n / 0x40 == a * 0x1000 + b * 0x40 + c
  {
  }

  /** Decoding gives every text back, whatever follows it. */
  lemma {:induction false} DecodesBack(text: string)
    ensures Decode(Encode(text)) == Some(text)
  {
    if text != "" {
      CharDecodes(text[0], Encode(text[1..]));
      DecodesBack(text[1..]);
      assert [text[0]] + text[1..] == text;
    }
  }

  /** No two texts have the same bytes. */
  lemma EncodeIsInjective(a: string, b: string)
    requires Encode(a) == Encode(b)
    ensures a == b
  {
    DecodesBack(a);
    DecodesBack(b);
  }

  lemma CharEncodesBack(bytes: seq<Byte>)
    requires StartsWithChar(bytes)
    ensures EncodeChar(CodePoint(bytes) as char) == bytes[..SequenceLength(bytes[0])]
  {
    match SequenceLength(bytes[0])
    case 1 =>
    case 2 => FromDigits(0, 0, bytes[0] - 0xC0, Payload(bytes[1]));
    case 3 => FromDigits(0, bytes[0] - 0xE0, Payload(bytes[1]), Payload(bytes[2]));
    case _ => FromDigits(bytes[0] - 0xF0, Payload(bytes[1]), Payload(bytes[2]), Payload(bytes[3]));
  }

  /** Only the bytes of a text decode, and to that text: the encoding and the decoder are inverse. */
  lemma {:induction false} DecodesExactly(bytes: seq<Byte>, text: string)
    ensures Decode(bytes) == Some(text) <==> bytes == Encode(text)
    decreases |bytes|
  {
    DecodesBack(text);
    if Decode(bytes) == Some(text) && bytes != [] {
      var n := SequenceLength(bytes[0]);
      CharEncodesBack(bytes);
      DecodesExactly(bytes[n..], text[1..]);
      assert text[1..] == Decode(bytes[n..]).value;
      assert bytes == bytes[..n] + bytes[n..];
    }
  }

  /** Characters of the examples in section 7 of RFC 3629, one of each length. */
  lemma StandardExamples()
    ensures EncodeChar('A') == [0x41] && EncodeChar('\U{0391}') == [0xCE, 0x91]
    ensures EncodeChar('\U{2262}') == [0xE2, 0x89, 0xA2] && EncodeChar('\U{D55C}') == [0xED, 0x95, 0x9C]
    ensures EncodeChar('\U{233B4}') == [0xF0, 0xA3, 0x8E, 0xB4]
  {
  }

  // ---------- Boundaries ----------

  /** `is_char_boundary`: either end, or before a byte that starts a character. */
  predicate IsBoundary(bytes: seq<Byte>, i: nat)
    requires i <= |bytes|
  {
    i == 0 || i == |bytes| || !IsContinuation(bytes[i])
  }

  predicate IsText(bytes: seq<Byte>) {
    Decode(bytes).Some?
  }

  lemma {:induction false} EncodeConcat(a: string, b: string)
    ensures Encode(a + b) == Encode(a) + Encode(b)
  {
    if a == "" {
      assert a + b == b;
    } else {
      assert (a + b)[1..] == a[1..] + b;
      EncodeConcat(a[1..], b);
    }
  }

  lemma ByteLengthConcat(a: string, b: string)
    ensures ByteLength(a + b) == ByteLength(a) + ByteLength(b)
  {
    EncodeConcat(a, b);
  }

  /** A text cut at a boundary is two texts. */
  lemma {:induction false} BoundarySplits(text: string, i: nat) returns (k: nat)
    requires i <= |Encode(text)| && IsBoundary(Encode(text), i)
    ensures k <= |text| && Encode(text)[..i] == Encode(text[..k]) && Encode(text)[i..] == Encode(text[k..])
  {
    if i == 0 {
      k := 0;
      assert text[..0] == "" && text[0..] == text;
    } else {
      var first, rest := EncodeChar(text[0]), Encode(text[1..]);
      assert i >= |first|;
      if i < |Encode(text)| {
        assert Encode(text)[i] == rest[i - |first|];
      }
      var j := BoundarySplits(text[1..], i - |first|);
      k := j + 1;
      assert text[..k] == [text[0]] + text[1..][..j] && text[k..] == text[1..][j..];
      assert text[..k][1..] == text[1..][..j];
      assert Encode(text)[..i] == first + rest[..i - |first|];
      assert Encode(text)[i..] == rest[i - |first|..];
    }
  }

  /** Going back from any position, a boundary is at most three bytes away: a character takes at
      most four bytes. */
  lemma {:induction false} BoundaryIsNear(text: string, end: nat) returns (e: nat)
    requires end <= |Encode(text)|
    ensures e <= end <= e + 3 && IsBoundary(Encode(text), e)
  {
    if end <= 3 {
      e := 0;
    } else {
      var first, rest := EncodeChar(text[0]), Encode(text[1..]);
      var f := BoundaryIsNear(text[1..], end - |first|);
      e := |first| + f;
      if f < |rest| {
        assert Encode(text)[e] == rest[f];
        if f == 0 {
          assert rest[0] == EncodeChar(text[1])[0];
        }
      }
    }
  }

  /** The last boundary at or before `end`. */
  function CutAt(bytes: seq<Byte>, end: nat): (cut: nat)
    requires end <= |bytes|
    ensures cut <= end && IsBoundary(bytes, cut)
    ensures forall e | cut < e <= end :: !IsBoundary(bytes, e)
  {
    if IsBoundary(bytes, end) then end else CutAt(bytes, end - 1)
  }

  /** The fragments a text is cut into: each the longest prefix of the rest within the limit. */
  function Fragments(bytes: seq<Byte>, limit: nat): seq<seq<Byte>>
    decreases |bytes|
  {
    if bytes == [] then []
    else
      var cut := CutAt(bytes, Min(limit, |bytes|));
      if cut == 0 then [bytes] else [bytes[..cut]] + Fragments(bytes[cut..], limit)
  }

  function Flatten(parts: seq<seq<Byte>>): seq<Byte> {
    if parts == [] then [] else parts[0] + Flatten(parts[1..])
  }

  lemma CutProgresses(text: string, limit: nat)
    requires 4 <= limit && text != ""
    ensures var bytes := Encode(text);
            var end := Min(limit, |bytes|);
            0 < CutAt(bytes, end) && end <= CutAt(bytes, end) + 3 && (end == |bytes| ==> CutAt(bytes, end) == end)
  {
    var bytes := Encode(text);
    var end := Min(limit, |bytes|);
    var near := BoundaryIsNear(text, end);
    assert near <= CutAt(bytes, end);
  }

  /** What a fragment list of a text must be. */
  ghost predicate CutsText(parts: seq<seq<Byte>>, text: string, limit: nat) {
    && Flatten(parts) == Encode(text)
    && (forall p | p in parts :: 0 < |p| <= limit && IsText(p))
    && (forall i | 0 <= i < |parts| - 1 :: limit <= |parts[i]| + 3)
  }

  lemma OneMoreFragment(first: seq<Byte>, rest: seq<seq<Byte>>, tail: string, text: string, limit: nat)
    requires CutsText(rest, tail, limit) && Encode(text) == first + Encode(tail)
    requires 0 < |first| <= limit && IsText(first) && (rest != [] ==> limit <= |first| + 3)
    ensures CutsText([first] + rest, text, limit)
  {
    var parts := [first] + rest;
    assert parts[0] == first && parts[1..] == rest;
    forall i | 0 <= i < |parts| - 1
      ensures limit <= |parts[i]| + 3
    {
      if i > 0 {
        assert parts[i] == rest[i - 1];
      }
    }
  }

  lemma FragmentsUnfold(bytes: seq<Byte>, limit: nat, cut: nat)
    requires bytes != [] && cut == CutAt(bytes, Min(limit, |bytes|)) && 0 < cut
    ensures Fragments(bytes, limit) == [bytes[..cut]] + Fragments(bytes[cut..], limit)
  {
  }

  lemma SplitAt(bytes: seq<Byte>, cut: nat)
    requires cut <= |bytes|
    ensures bytes == bytes[..cut] + bytes[cut..]
  {
  }

  /** The first fragment of a text is a text of its own, and full unless it is the last. */
  lemma FirstFragment(text: string, limit: nat) returns (k: nat)
    requires 4 <= limit && text != ""
    ensures k <= |text| && Encode(text) == Encode(text[..k]) + Encode(text[k..])
    ensures 0 < |Encode(text[..k])| <= limit
    ensures IsText(Encode(text[..k])) && (Encode(text[k..]) != [] ==> limit <= |Encode(text[..k])| + 3)
    ensures Fragments(Encode(text), limit) == [Encode(text[..k])] + Fragments(Encode(text[k..]), limit)
  {
    var bytes := Encode(text);
    CutProgresses(text, limit);
    var cut := CutAt(bytes, Min(limit, |bytes|));
    k := BoundarySplits(text, cut);
    SplitAt(bytes, cut);
    DecodesBack(text[..k]);
    FragmentsUnfold(bytes, limit, cut);
  }

  /** Fragments lose nothing, fit the limit, never split a character, and waste three bytes at most. */
  lemma {:induction false} FragmentsCutText(text: string, limit: nat)
    requires 4 <= limit
    ensures CutsText(Fragments(Encode(text), limit), text, limit)
    decreases |Encode(text)|
  {
    if text != "" {
      var k := FirstFragment(text, limit);
      var rest := Fragments(Encode(text[k..]), limit);
      FragmentsCutText(text[k..], limit);
      OneMoreFragment(Encode(text[..k]), rest, text[k..], text, limit);
    }
  }

  /** Step back from `start` to a character boundary. */
  method LastBoundary(bytes: seq<Byte>, start: nat) returns (end: nat)
    requires start <= |bytes|
    ensures end == CutAt(bytes, start)
  {
    end := start;
    while !IsBoundary(bytes, end)
      invariant end <= start && CutAt(bytes, start) == CutAt(bytes, end)
      decreases end
    {
      end := end - 1;
    }
  }

  /** Partition a serialized transcript, stepping back to a boundary before each cut. */
  method CompactionTranscripts(transcript: string, maxBytes: nat) returns (parts: seq<seq<Byte>>)
    ensures parts == Fragments(Encode(transcript), Max(maxBytes, 4))
    ensures CutsText(parts, transcript, Max(maxBytes, 4))
    ensures Decode(Flatten(parts)) == Some(transcript)
  {
    var limit := Max(maxBytes, 4);
    var remaining := Encode(transcript);
    ghost var rest := transcript;
    parts := [];
    while remaining != []
      invariant remaining == Encode(rest)
      invariant Fragments(Encode(transcript), limit) == parts + Fragments(remaining, limit)
      decreases |remaining|
    {
      var end := LastBoundary(remaining, Min(limit, |remaining|));
      CutProgresses(rest, limit);
      ghost var k := BoundarySplits(rest, end);
      parts, remaining, rest := parts + [remaining[..end]], remaining[end..], rest[k..];
    }
    FragmentsCutText(transcript, limit);
    DecodesBack(transcript);
    assert parts + [] == parts;
  }
}
