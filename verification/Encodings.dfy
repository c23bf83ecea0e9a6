/** The encodings of the input and the output: how one character is decoded, how a whole input
    is, and what the writer makes of a text. */
module Encodings {
  import opened Events
  import opened Characters

  type Byte = b: nat | b < 256
  type Bytes = seq<Byte>

  datatype Encoding = Utf8Encoding | Utf16Le | Utf16Be

  datatype Problem =
    | InvalidLeadingOctet | IncompleteUtf8 | InvalidTrailingOctet | InvalidLength | InvalidCharacter
    | IncompleteUtf16 | UnexpectedLowSurrogate | IncompletePair | ExpectedLowSurrogate
    | ControlCharacter

  /** One character of `width` bytes, or a problem `at` so many bytes behind its start, or too few
      bytes to tell. */
  datatype One = Char(value: nat, width: nat) | Bad(problem: Problem, at: nat) | Incomplete

  /** The characters that the reader allows. */
  predicate IsAllowed(c: nat) {
    || c == 0x09 || c == 0x0A || c == 0x0D || 0x20 <= c <= 0x7E || c == 0x85
    || 0xA0 <= c <= 0xD7FF || 0xE000 <= c <= 0xFFFD || 0x10000 <= c <= 0x10FFFF
  }

  function Checked(value: nat, width: nat): One {
    if IsAllowed(value) then Char(value, width) else Bad(ControlCharacter, 0)
  }

  // ---- UTF-8 ----

  /** The length of a sequence by its leading octet; 0 if the octet cannot lead. */
  function WidthOf(octet: Byte): (w: nat)
    ensures w <= 4
  {
    if octet < 0x80 then 1
    else if 0xC0 <= octet < 0xE0 then 2
    else if 0xE0 <= octet < 0xF0 then 3
    else if 0xF0 <= octet < 0xF8 then 4
    else 0
  }

  /** The bits of the character in a leading octet. */
  function LeadBits(octet: Byte): nat
    requires WidthOf(octet) > 0
  {
    if octet < 0x80 then octet
    else if octet < 0xE0 then octet - 0xC0
    else if octet < 0xF0 then octet - 0xE0
    else octet - 0xF0
  }

  predicate IsTrailing(octet: Byte) {
    0x80 <= octet < 0xC0
  }

  /** The bits of the character in a trailing octet. */
  function TrailBits(octet: Byte): (n: nat)
    ensures n < 64
  {
    if IsTrailing(octet) then octet - 0x80 else octet % 64
  }

  /** The trailing octets from `k` on, with the bits read so far. */
  function Trail(b: Bytes, k: nat, width: nat, value: nat): One
    requires k <= width <= |b|
    decreases width - k
  {
    if k < width then
      if IsTrailing(b[k]) then Trail(b, k + 1, width, value * 64 + TrailBits(b[k])) else Bad(InvalidTrailingOctet, k)
    else if !(width == 1 || (width == 2 && value >= 0x80) || (width == 3 && value >= 0x800) || (width == 4 && value >= 0x10000))
    then Bad(InvalidLength, 0)
    else if !IsScalarValue(value) then Bad(InvalidCharacter, 0)
    else Checked(value, width)
  }

  function DecodeUtf8(b: Bytes, eof: bool): One
    requires b != []
  {
    var width := WidthOf(b[0]);
    if width == 0 then Bad(InvalidLeadingOctet, 0)
    else if width > |b| then (if eof then Bad(IncompleteUtf8, 0) else Incomplete)
    else Trail(b, 1, width, LeadBits(b[0]))
  }

  // ---- UTF-16 ----

  function Unit(b: Bytes, at: nat, e: Encoding): nat
    requires at + 2 <= |b|
  {
    var x: nat, y: nat := b[at], b[at + 1];
    if e.Utf16Le? then x + 256 * y else 256 * x + y
  }

  function DecodeUtf16(b: Bytes, e: Encoding, eof: bool): One {
    if |b| < 2 then (if eof then Bad(IncompleteUtf16, 0) else Incomplete)
    else
      var value := Unit(b, 0, e);
      if 0xDC00 <= value < 0xE000 then Bad(UnexpectedLowSurrogate, 0)
      else if !(0xD800 <= value < 0xDC00) then Checked(value, 2)
      else if |b| < 4 then (if eof then Bad(IncompletePair, 0) else Incomplete)
      else
        var value2 := Unit(b, 2, e);
        if !(0xDC00 <= value2 < 0xE000) then Bad(ExpectedLowSurrogate, 2)
        else Checked(0x10000 + value % 1024 * 1024 + value2 % 1024, 4)
  }

  function DecodeOne(b: Bytes, e: Encoding, eof: bool): One
    requires b != []
  {
    if e.Utf8Encoding? then DecodeUtf8(b, eof) else DecodeUtf16(b, e, eof)
  }

  // ---- A whole input ----

  datatype End = AtEnd | Stopped(problem: Problem, offset: nat)

  datatype Decoded = Decoded(text: Text, end: End)

  function Prepend(c: nat, d: Decoded): Decoded {
    d.(text := [c] + d.text)
  }

  /** All the characters of an input, or those before the first problem and where that is. */
  function Whole(b: Bytes, e: Encoding, offset: nat): Decoded
    decreases |b|
  {
    if b == [] then Decoded([], AtEnd)
    else
      OneFits(b, e, true);
      match DecodeOne(b, e, true)
      case Char(value, width) => Prepend(value, Whole(b[width..], e, offset + width))
      case Bad(problem, at) => Decoded([], Stopped(problem, offset + at))
      case Incomplete => Decoded([], AtEnd)
  }

  /** The encoding that the byte order mark tells, and its length. */
  function Detect(b: Bytes): (r: (Encoding, nat))
    ensures r.1 <= |b|
  {
    if |b| >= 2 && b[0] == 0xFF && b[1] == 0xFE then (Utf16Le, 2)
    else if |b| >= 2 && b[0] == 0xFE && b[1] == 0xFF then (Utf16Be, 2)
    else if |b| >= 3 && b[0] == 0xEF && b[1] == 0xBB && b[2] == 0xBF then (Utf8Encoding, 3)
    else (Utf8Encoding, 0)
  }

  function DecodeInput(b: Bytes): Decoded {
    var (e, n) := Detect(b);
    Whole(b[n..], e, n)
  }

  // ---- Decoding one character ----

  lemma {:induction false} TrailFits(b: Bytes, k: nat, width: nat, value: nat)
    requires k <= width <= |b|
    ensures
      var r := Trail(b, k, width, value);
      !r.Incomplete? && (r.Char? ==> r.width == width && IsAllowed(r.value))
    decreases width - k
  {
    if k < width && IsTrailing(b[k]) {
      TrailFits(b, k + 1, width, value * 64 + TrailBits(b[k]));
    }
  }

  /** At the end of the input, no character is left incomplete. */
  lemma OneFits(b: Bytes, e: Encoding, eof: bool)
    requires b != []
    ensures
      var r := DecodeOne(b, e, eof);
      && (r.Char? ==> 0 < r.width <= |b| && r.width <= 4 && IsAllowed(r.value))
      && (r.Incomplete? ==> !eof && |b| < 4)
  {
    if e.Utf8Encoding? && 0 < WidthOf(b[0]) <= |b| {
      TrailFits(b, 1, WidthOf(b[0]), LeadBits(b[0]));
    }
  }

  lemma {:induction false} TrailLocal(b: Bytes, more: Bytes, k: nat, width: nat, value: nat)
    requires k <= width <= |b|
    ensures Trail(b + more, k, width, value) == Trail(b, k, width, value)
    decreases width - k
  {
    if k < width && IsTrailing(b[k]) {
      TrailLocal(b, more, k + 1, width, value * 64 + TrailBits(b[k]));
    }
  }

  /** What can be told from some bytes stays so, whatever comes behind them. */
  lemma OneLocal(b: Bytes, more: Bytes, e: Encoding)
    requires b != [] && !DecodeOne(b, e, false).Incomplete?
    ensures DecodeOne(b + more, e, true) == DecodeOne(b, e, false)
  {
    if e.Utf8Encoding? && 0 < WidthOf(b[0]) <= |b| {
      TrailLocal(b, more, 1, WidthOf(b[0]), LeadBits(b[0]));
    }
  }

  // ---- UTF-8 there and back ----

  function Join2(x: nat, y: nat): nat {
    x * 64 + y
  }

  function Join3(x: nat, y: nat, z: nat): nat {
    Join2(x, y) * 64 + z
  }

  function Join4(x: nat, y: nat, z: nat, w: nat): nat {
    Join3(x, y, z) * 64 + w
  }

  /** The bits of a sequence of octets whose trailing ones are valid. */
  function Joined(b: Bytes, width: nat): nat
    requires 0 < width <= |b| && width <= 4 && width == WidthOf(b[0])
  {
    var lead := LeadBits(b[0]);
    if width == 1 then lead
    else if width == 2 then Join2(lead, TrailBits(b[1]))
    else if width == 3 then Join3(lead, TrailBits(b[1]), TrailBits(b[2]))
    else Join4(lead, TrailBits(b[1]), TrailBits(b[2]), TrailBits(b[3]))
  }

  predicate Trails(b: Bytes, width: nat)
    requires width <= |b|
  {
    forall k | 1 <= k < width :: IsTrailing(b[k])
  }

  /** The trailing octets are put together from the left. */
  lemma TrailIs(b: Bytes, width: nat)
    requires 0 < width <= |b| && width <= 4 && width == WidthOf(b[0])
    ensures
      var r := Trail(b, 1, width, LeadBits(b[0]));
      if Trails(b, width) then r == Trail(b, width, width, Joined(b, width)) else !r.Char?
  {
    hide IsTrailing, LeadBits, Checked, IsScalarValue;
    var v := LeadBits(b[0]);
    if width > 1 && IsTrailing(b[1]) {
      var v1 := Join2(v, TrailBits(b[1]));
      assert Trail(b, 1, width, v) == Trail(b, 2, width, v1);
      if width > 2 && IsTrailing(b[2]) {
        var v2 := Join3(v, TrailBits(b[1]), TrailBits(b[2]));
        assert Trail(b, 2, width, v1) == Trail(b, 3, width, v2);
        if width > 3 && IsTrailing(b[3]) {
          assert Trail(b, 3, width, v2) == Trail(b, 4, width, Join4(v, TrailBits(b[1]), TrailBits(b[2]), TrailBits(b[3])));
        }
      }
    }
  }

  lemma Split2(x: nat, y: nat)
    requires x < 32 && y < 64 && Join2(x, y) >= 0x80
    ensures Join2(x, y) <= 0x7FF && Utf8(Join2(x, y)) == [0xC0 + x, 0x80 + y]
  {
  }

  lemma Split3(x: nat, y: nat, z: nat)
    requires x < 16 && y < 64 && z < 64 && Join3(x, y, z) >= 0x800
    ensures Join3(x, y, z) <= 0xFFFF && Utf8(Join3(x, y, z)) == [0xE0 + x, 0x80 + y, 0x80 + z]
  {
    var c := Join3(x, y, z);
    assert c / 4096 == x && c / 64 == Join2(x, y) && c % 64 == z;
  }

  lemma Split4(x: nat, y: nat, z: nat, w: nat)
    requires x < 8 && y < 64 && z < 64 && w < 64 && 0x10000 <= Join4(x, y, z, w) <= 0x10FFFF
    ensures Utf8(Join4(x, y, z, w)) == [0xF0 + x, 0x80 + y, 0x80 + z, 0x80 + w]
  {
    var c := Join4(x, y, z, w);
    assert c / 262144 == x && c / 4096 == Join2(x, y) && c / 64 == Join3(x, y, z) && c % 64 == w;
  }

  lemma JoinedBack(b: Bytes, w: nat)
    requires 0 < w <= |b| && w <= 4 && w == WidthOf(b[0]) && Trails(b, w)
    requires Trail(b, w, w, Joined(b, w)).Char?
    ensures Joined(b, w) <= 0x10FFFF && Utf8(Joined(b, w)) == b[..w]
  {
    hide IsAllowed, Utf8, Join2, Join3, Join4;
    if w == 2 {
      Split2(LeadBits(b[0]), TrailBits(b[1]));
    } else if w == 3 {
      Split3(LeadBits(b[0]), TrailBits(b[1]), TrailBits(b[2]));
    } else if w == 4 {
      Split4(LeadBits(b[0]), TrailBits(b[1]), TrailBits(b[2]), TrailBits(b[3]));
    } else {
      Utf8One(b[0]);
    }
  }

  lemma Utf8One(c: Byte)
    requires c < 0x80
    ensures Utf8(c) == [c]
  {
  }

  /** A character that was decoded from UTF-8 has just the bytes it came from. */
  lemma Utf8Inverse(b: Bytes, eof: bool)
    requires b != [] && DecodeUtf8(b, eof).Char?
    ensures
      var r := DecodeUtf8(b, eof);
      r.width <= |b| && r.value <= 0x10FFFF && Utf8(r.value) == b[..r.width]
  {
    hide Joined, Utf8, IsAllowed, Trails, WidthOf;
    var w := WidthOf(b[0]);
    TrailIs(b, w);
    JoinedBack(b, w);
  }

  /** Decoding undoes encoding. */
  lemma Utf8Forward(c: nat, rest: Bytes)
    requires IsAllowed(c)
    ensures
      var b: Bytes := Utf8(c);
      DecodeUtf8(b + rest, true) == Char(c, |b|)
  {
    var b: Bytes := Utf8(c);
    var w := |b|;
    Utf8Joins(c);
    hide Joined, Utf8, Trails;
    TrailIs(b, w);
    TrailLocal(b, rest, 1, w, LeadBits(b[0]));
  }

  lemma Rejoin(c: nat)
    ensures Join2(c / 64, c % 64) == c
    ensures Join3(c / 4096, c / 64 % 64, c % 64) == c
    ensures Join4(c / 262144, c / 4096 % 64, c / 64 % 64, c % 64) == c
  {
    assert c / 64 / 64 == c / 4096 && c / 4096 / 64 == c / 262144;
  }

  lemma Utf8Joins(c: nat)
    requires c <= 0x10FFFF
    ensures
      var b: Bytes := Utf8(c);
      WidthOf(b[0]) == |b| && Trails(b, |b|) && Joined(b, |b|) == c
  {
    hide Join2, Join3, Join4;
    Rejoin(c);
    var b: Bytes := Utf8(c);
    assert WidthOf(b[0]) == |b|;
    assert Trails(b, |b|);
    if |b| == 2 {
      assert LeadBits(b[0]) == c / 64 && TrailBits(b[1]) == c % 64;
    } else if |b| == 3 {
      assert LeadBits(b[0]) == c / 4096 && TrailBits(b[1]) == c / 64 % 64 && TrailBits(b[2]) == c % 64;
    } else if |b| == 4 {
      assert LeadBits(b[0]) == c / 262144 && TrailBits(b[1]) == c / 4096 % 64;
      assert TrailBits(b[2]) == c / 64 % 64 && TrailBits(b[3]) == c % 64;
    }
  }

  // ---- UTF-16 as the writer makes it ----

  function Pair(high: Byte, low: Byte, e: Encoding): Bytes {
    if e.Utf16Le? then [low, high] else [high, low]
  }

  /** The high byte of the second surrogate is cut to eight bits after the bits 8 to 15 of the
      character were added to it. */
  function Utf16(c: nat, e: Encoding): Bytes
    requires c <= 0x10FFFF
  {
    if c < 0x10000 then Pair(c / 256, c % 256, e)
    else
      var v := c - 0x10000;
      Pair(0xD8 + v / 262144, v / 1024 % 256, e) + Pair((0xDC + v / 256 % 256) % 256, v % 256, e)
  }

  /** The characters that the reader gets back from UTF-16. */
  predicate ReadsBack(c: nat) {
    c < 0x10000 || (c - 0x10000) / 1024 % 64 == 0
  }

  lemma SecondSurrogate(v: nat)
    requires v <= 0xFFFFF
    ensures
      var high := (0xDC + v / 256 % 256) % 256;
      && (0xDC <= high < 0xE0 <==> v / 1024 % 64 == 0)
      && (v / 1024 % 64 == 0 ==> high == 0xDC + v / 256 % 4)
  {
    var q := v / 256;
    assert v / 1024 == q / 4;
    assert q == 4 * (q / 4) + q % 4 && q / 4 == 64 * (q / 256) + q / 4 % 64;
    assert q % 256 == 4 * (q / 4 % 64) + q % 4;
  }

  lemma PairJoins(v: nat)
    requires v <= 0xFFFFF
    ensures
      var first, second := 256 * (0xD8 + v / 262144) + v / 1024 % 256, 256 * (0xDC + v / 256 % 4) + v % 256;
      && 0xD800 <= first < 0xDC00 && 0xDC00 <= second < 0xE000
      && first % 1024 * 1024 + second % 1024 == v
  {
    assert v / 1024 == 256 * (v / 262144) + v / 1024 % 256;
    assert v % 1024 == 256 * (v / 256 % 4) + v % 256;
  }

  lemma UnitOfPair(high: Byte, low: Byte, e: Encoding, rest: Bytes)
    requires !e.Utf8Encoding?
    ensures Unit(Pair(high, low, e) + rest, 0, e) == 256 * high as int + low
  {
  }

  /** What the reader makes of a character that was written in UTF-16: it comes back if it is
      below 0x10000 or the bits 10 to 15 above that are zero, and is rejected otherwise. */
  lemma Utf16Reads(c: nat, e: Encoding, rest: Bytes)
    requires IsAllowed(c) && !e.Utf8Encoding?
    ensures DecodeUtf16(Utf16(c, e) + rest, e, true)
         == if ReadsBack(c) then Char(c, |Utf16(c, e)|) else Bad(ExpectedLowSurrogate, 2)
  {
    var b := Utf16(c, e) + rest;
    if c < 0x10000 {
      UnitOfPair(c / 256, c % 256, e, rest);
    } else {
      SurrogatesRead(c, e, rest);
    }
  }

  lemma SurrogatesRead(c: nat, e: Encoding, rest: Bytes)
    requires 0x10000 <= c <= 0x10FFFF && !e.Utf8Encoding?
    ensures DecodeUtf16(Utf16(c, e) + rest, e, true) == if ReadsBack(c) then Char(c, 4) else Bad(ExpectedLowSurrogate, 2)
  {
    var v := c - 0x10000;
    var h1: Byte, l1: Byte, h2: Byte, l2: Byte := 0xD8 + v / 262144, v / 1024 % 256, (0xDC + v / 256 % 256) % 256, v % 256;
    var b := Utf16(c, e) + rest;
    assert b == Pair(h1, l1, e) + (Pair(h2, l2, e) + rest);
    assert b[2..] == Pair(h2, l2, e) + rest;
    SecondSurrogate(v);
    PairJoins(v);
    UnitOfPair(h1, l1, e, Pair(h2, l2, e) + rest);
    UnitOfPair(h2, l2, e, rest);
    UnitFurther(b, e);
    hide Utf16, Pair, Unit;
  }

  lemma UnitFurther(b: Bytes, e: Encoding)
    requires |b| >= 4
    ensures Unit(b, 2, e) == Unit(b[2..], 0, e)
  {
  }

  // ---- Whole texts ----

  predicate InRange(t: Text) {
    forall i | 0 <= i < |t| :: t[i] <= 0x10FFFF
  }

  predicate AllAllowed(t: Text) {
    forall i | 0 <= i < |t| :: IsAllowed(t[i])
  }

  function EncodeOne(c: nat, e: Encoding): (b: Bytes)
    requires c <= 0x10FFFF
    ensures 1 <= |b| <= 4
  {
    if e.Utf8Encoding? then Utf8(c) else Utf16(c, e)
  }

  function Encode(t: Text, e: Encoding): (b: Bytes)
    requires InRange(t)
    ensures |t| <= |b| <= 4 * |t|
  {
    if t == [] then [] else EncodeOne(t[0], e) + Encode(t[1..], e)
  }

  lemma {:induction false} EncodeSnoc(t: Text, c: nat, e: Encoding)
    requires InRange(t) && c <= 0x10FFFF
    ensures Encode(t + [c], e) == Encode(t, e) + EncodeOne(c, e)
    decreases |t|
  {
    hide EncodeOne;
    var last := EncodeOne(c, e);
    if t == [] {
      assert t + [c] == [c] && [c][1..] == [] && Encode([], e) == [];
      assert last + [] == last && [] + last == last;
    } else {
      assert (t + [c])[1..] == t[1..] + [c];
      EncodeSnoc(t[1..], c, e);
      Assoc(EncodeOne(t[0], e), Encode(t[1..], e), last);
    }
  }

  lemma {:induction false} EncodeAppend(t: Text, u: Text, e: Encoding)
    requires InRange(t) && InRange(u)
    ensures Encode(t + u, e) == Encode(t, e) + Encode(u, e)
    decreases |t|
  {
    hide EncodeOne;
    if t == [] {
      assert t + u == u;
    } else {
      assert (t + u)[1..] == t[1..] + u;
      EncodeAppend(t[1..], u, e);
      Assoc(EncodeOne(t[0], e), Encode(t[1..], e), Encode(u, e));
    }
  }

  /** The first character of some UTF-8. */
  lemma HeadOf(t: Text)
    requires InRange(t) && t != []
    ensures
      var b := Encode(t, Utf8Encoding);
      && 0 < WidthOf(b[0]) <= |b| && WidthOf(b[0]) == |EncodeOne(t[0], Utf8Encoding)|
      && Joined(b, WidthOf(b[0])) == t[0] && b[WidthOf(b[0])..] == Encode(t[1..], Utf8Encoding)
  {
    var head: Bytes, rest := Utf8(t[0]), Encode(t[1..], Utf8Encoding);
    assert Encode(t, Utf8Encoding) == head + rest;
    Utf8Joins(t[0]);
    assert (head + rest)[|head|..] == rest;
  }

  predicate Survives(c: nat, e: Encoding) {
    e.Utf8Encoding? || ReadsBack(c)
  }

  lemma OneReads(c: nat, e: Encoding, rest: Bytes)
    requires IsAllowed(c)
    ensures EncodeOne(c, e) != []
    ensures DecodeOne(EncodeOne(c, e) + rest, e, true)
         == if Survives(c, e) then Char(c, |EncodeOne(c, e)|) else Bad(ExpectedLowSurrogate, 2)
  {
    if e.Utf8Encoding? {
      Utf8Forward(c, rest);
    } else {
      Utf16Reads(c, e, rest);
    }
  }

  /** What is read back of a text that was written. */
  function Reading(t: Text, e: Encoding, offset: nat): Decoded
    requires InRange(t)
  {
    if t == [] then Decoded([], AtEnd)
    else if Survives(t[0], e) then Prepend(t[0], Reading(t[1..], e, offset + |EncodeOne(t[0], e)|))
    else Decoded([], Stopped(ExpectedLowSurrogate, offset + 2))
  }

  lemma {:induction false} WholeIsReading(t: Text, e: Encoding, offset: nat)
    requires InRange(t) && AllAllowed(t)
    ensures Whole(Encode(t, e), e, offset) == Reading(t, e, offset)
    decreases |t|
  {
    hide EncodeOne, Survives, Whole, IsAllowed;
    if t == [] {
      WholeOfNothing(e, offset);
    } else {
      WholeStep(t[0], e, Encode(t[1..], e), offset);
      WholeIsReading(t[1..], e, offset + |EncodeOne(t[0], e)|);
    }
  }

  lemma WholeOfNothing(e: Encoding, offset: nat)
    ensures Whole([], e, offset) == Decoded([], AtEnd)
  {
  }

  lemma {:induction false} ReadingIs(t: Text, e: Encoding, offset: nat, n: nat)
    requires InRange(t) && n <= |t| && forall i | 0 <= i < n :: Survives(t[i], e)
    requires n < |t| ==> !Survives(t[n], e)
    ensures Reading(t, e, offset)
         == Decoded(t[..n], if n == |t| then AtEnd else Stopped(ExpectedLowSurrogate, offset + |Encode(t[..n], e)| + 2))
    decreases |t|
  {
    hide EncodeOne, Survives;
    if n > 0 {
      ReadingIs(t[1..], e, offset + |EncodeOne(t[0], e)|, n - 1);
      TakeEncoded(t, e, n);
    } else {
      assert t[..0] == [];
    }
  }

  /** A text that was written is read back, up to the first character that UTF-16 loses. */
  lemma WrittenTextReads(t: Text, e: Encoding, offset: nat, n: nat)
    requires InRange(t) && AllAllowed(t) && n <= |t| && forall i | 0 <= i < n :: Survives(t[i], e)
    requires n < |t| ==> !Survives(t[n], e)
    ensures Whole(Encode(t, e), e, offset)
         == Decoded(t[..n], if n == |t| then AtEnd else Stopped(ExpectedLowSurrogate, offset + |Encode(t[..n], e)| + 2))
  {
    hide *;
    WholeIsReading(t, e, offset);
    ReadingIs(t, e, offset, n);
  }

  lemma WholeStep(c: nat, e: Encoding, rest: Bytes, offset: nat)
    requires IsAllowed(c)
    ensures Whole(EncodeOne(c, e) + rest, e, offset)
         == if Survives(c, e) then Prepend(c, Whole(rest, e, offset + |EncodeOne(c, e)|))
            else Decoded([], Stopped(ExpectedLowSurrogate, offset + 2))
  {
    hide EncodeOne, Survives, DecodeOne;
    OneReads(c, e, rest);
    var b := EncodeOne(c, e);
    assert (b + rest)[|b|..] == rest;
  }

  lemma TakeEncoded(t: Text, e: Encoding, n: nat)
    requires InRange(t) && 0 < n <= |t|
    ensures t[..n] == [t[0]] + t[1..][..n - 1]
    ensures Encode(t[..n], e) == EncodeOne(t[0], e) + Encode(t[1..][..n - 1], e)
  {
    hide EncodeOne;
    assert t[..n][1..] == t[1..][..n - 1];
  }

  /** Writing and reading is the identity exactly on the texts without lost characters. */
  lemma WrittenTextComesBack(t: Text, e: Encoding, offset: nat)
    requires AllAllowed(t)
    ensures Whole(Encode(t, e), e, offset) == Decoded(t, AtEnd) <==> forall i | 0 <= i < |t| :: Survives(t[i], e)
  {
    var n := FirstLost(t, e);
    WrittenTextReads(t, e, offset, n);
    assert t[..|t|] == t;
  }

  function FirstLost(t: Text, e: Encoding): (n: nat)
    ensures n <= |t| && (forall i | 0 <= i < n :: Survives(t[i], e)) && (n < |t| ==> !Survives(t[n], e))
  {
    if t == [] || !Survives(t[0], e) then 0
    else
      var n := FirstLost(t[1..], e);
      assert forall i | 1 <= i < n + 1 :: t[i] == t[1..][i - 1];
      n + 1
  }

  /** Input in UTF-8 is kept byte for byte. */
  lemma {:induction false} Utf8InputIsKept(b: Bytes, offset: nat)
    requires Whole(b, Utf8Encoding, offset).end.AtEnd?
    ensures InRange(Whole(b, Utf8Encoding, offset).text)
    ensures Encode(Whole(b, Utf8Encoding, offset).text, Utf8Encoding) == b
    decreases |b|
  {
    hide DecodeOne, EncodeOne;
    if b != [] {
      var r := DecodeOne(b, Utf8Encoding, true);
      OneIsKept(b);
      Utf8InputIsKept(b[r.width..], offset + r.width);
      var t := Whole(b[r.width..], Utf8Encoding, offset + r.width).text;
      assert Whole(b, Utf8Encoding, offset).text == [r.value] + t;
      EncodeCons(r.value, t, Utf8Encoding);
    }
  }

  lemma OneIsKept(b: Bytes)
    requires b != []
    ensures
      var r := DecodeOne(b, Utf8Encoding, true);
      && !r.Incomplete?
      && (r.Char? ==>
            && 0 < r.width <= |b| && r.value <= 0x10FFFF
            && b == EncodeOne(r.value, Utf8Encoding) + b[r.width..])
  {
    OneFits(b, Utf8Encoding, true);
    var r := DecodeOne(b, Utf8Encoding, true);
    if r.Char? {
      Utf8Inverse(b, true);
      hide DecodeUtf8, Utf8, IsAllowed;
      assert b == b[..r.width] + b[r.width..];
    }
  }

  lemma EncodeCons(c: nat, t: Text, e: Encoding)
    requires c <= 0x10FFFF && InRange(t)
    ensures InRange([c] + t) && Encode([c] + t, e) == EncodeOne(c, e) + Encode(t, e)
  {
    hide EncodeOne;
    assert ([c] + t)[1..] == t;
  }

  /** What the emitter writes: a byte order mark first, unless it writes UTF-8. */
  function Output(t: Text, e: Encoding): Bytes
    requires AllAllowed(t)
  {
    if e.Utf8Encoding? then Encode(t, e) else Encode([BOM] + t, e)
  }

  /** A character that UTF-16 loses: its second surrogate is not one. */
  lemma LostCharacter(e: Encoding)
    requires !e.Utf8Encoding?
    ensures IsAllowed(0x10400) && !Survives(0x10400, e)
    ensures Whole(Encode([0x10400], e), e, 0) == Decoded([], Stopped(ExpectedLowSurrogate, 2))
  {
    hide Whole, Encode;
    WrittenTextReads([0x10400], e, 0, 0);
    assert [0x10400][..0] == [];
    NothingEncoded(e);
  }

  lemma NothingEncoded(e: Encoding)
    ensures InRange([]) && Encode([], e) == []
  {
  }

  /** In UTF-8 a byte order mark at the head of a text is taken for that of the output. */
  predicate LosesMark(t: Text, e: Encoding) {
    e.Utf8Encoding? && t != [] && t[0] == BOM
  }

  /** The reader finds out the encoding of the output and gets the text back exactly if UTF-16 loses
      no character and UTF-8 no mark; of the marks it loses only the first. */
  lemma OutputComesBack(t: Text, e: Encoding)
    requires AllAllowed(t)
    ensures DecodeInput(Output(t, e)) == Decoded(t, AtEnd) <==> !LosesMark(t, e) && forall i | 0 <= i < |t| :: Survives(t[i], e)
    ensures LosesMark(t, e) ==> DecodeInput(Output(t, e)) == Decoded(t[1..], AtEnd)
  {
    if LosesMark(t, e) {
      MarkIsDropped(t);
    } else if e.Utf8Encoding? {
      NoMark(t);
      WrittenTextComesBack(t, e, 0);
      assert Output(t, e)[0..] == Output(t, e);
    } else {
      var b := Encode(t, e);
      assert ([BOM] + t)[1..] == t;
      assert Output(t, e) == EncodeOne(BOM, e) + b;
      assert EncodeOne(BOM, e) == if e.Utf16Le? then [0xFF, 0xFE] else [0xFE, 0xFF];
      assert Output(t, e)[2..] == b;
      WrittenTextComesBack(t, e, 2);
    }
  }

  lemma MarkIsDropped(t: Text)
    requires AllAllowed(t) && LosesMark(t, Utf8Encoding)
    ensures DecodeInput(Output(t, Utf8Encoding)) == Decoded(t[1..], AtEnd)
  {
    var b := Encode(t[1..], Utf8Encoding);
    assert EncodeOne(BOM, Utf8Encoding) == [0xEF, 0xBB, 0xBF];
    assert Output(t, Utf8Encoding) == EncodeOne(BOM, Utf8Encoding) + b;
    assert Output(t, Utf8Encoding)[3..] == b;
    WrittenTextComesBack(t[1..], Utf8Encoding, 3);
  }

  lemma NoMark(t: Text)
    requires AllAllowed(t) && (t == [] || t[0] != BOM)
    ensures Detect(Encode(t, Utf8Encoding)) == (Utf8Encoding, 0)
  {
    if t != [] {
      var b: Bytes := Utf8(t[0]);
      Utf8Joins(t[0]);
      assert Encode(t, Utf8Encoding) == b + Encode(t[1..], Utf8Encoding);
      if |b| == 3 && b[0] == 0xEF && b[1] == 0xBB {
        assert b[2] != 0xBF;
      }
    }
  }
}
