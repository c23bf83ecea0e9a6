/** The reader: it decodes the input chunk by chunk, as the read handler gives it. */
module Reader {
  import opened Events
  import opened Characters
  import opened Encodings

  const RAW_SIZE: nat := 16384
  const BUFFER_SIZE: nat := 3 * 16384
  // The most characters that the scanner asks for at once.
  const MAX_REQUEST: nat := 8

  function Concat(t: Text, d: Decoded): Decoded {
    d.(text := t + d.text)
  }

  /** Decodes the octets of one UTF-8 character, the trailing ones in a loop. */
  method NextUtf8(b: Bytes, eof: bool) returns (r: One)
    requires b != []
    ensures r == DecodeUtf8(b, eof)
  {
    hide WidthOf, LeadBits, TrailBits, Checked, IsScalarValue, IsTrailing;
    var width := WidthOf(b[0]);
    if width == 0 {
      return Bad(InvalidLeadingOctet, 0);
    }
    if width > |b| {
      return if eof then Bad(IncompleteUtf8, 0) else Incomplete;
    }
    var value: nat := LeadBits(b[0]);
    for k := 1 to width
      invariant DecodeUtf8(b, eof) == Trail(b, k, width, value)
    {
      if !IsTrailing(b[k]) {
        return Bad(InvalidTrailingOctet, k);
      }
      value := value * 64 + TrailBits(b[k]);
    }
    if !(width == 1 || (width == 2 && value >= 0x80) || (width == 3 && value >= 0x800) || (width == 4 && value >= 0x10000)) {
      return Bad(InvalidLength, 0);
    }
    if !IsScalarValue(value) {
      return Bad(InvalidCharacter, 0);
    }
    return Checked(value, width);
  }

  /** What is decoded from the bytes at hand is what the whole input decodes to. */
  lemma Decides(b: Bytes, more: Bytes, e: Encoding, eof: bool, offset: nat, t: Text)
    requires b != [] && (eof ==> more == [])
    ensures
      var r := DecodeOne(b, e, eof);
      && (r.Char? ==>
            && 0 < r.width <= |b|
            && Concat(t, Whole(b + more, e, offset))
               == Concat(t + [r.value], Whole(b[r.width..] + more, e, offset + r.width)))
      && (r.Bad? ==> Whole(b + more, e, offset) == Decoded([], Stopped(r.problem, offset + r.at)))
      && (r.Incomplete? ==> !eof && |b| < 4)
  {
    hide DecodeOne;
    var r := DecodeOne(b, e, eof);
    OneFits(b, e, eof);
    if eof {
      assert b + more == b;
    } else if !r.Incomplete? {
      OneLocal(b, more, e);
    }
    if r.Char? {
      assert (b + more)[r.width..] == b[r.width..] + more;
      var d := Whole(b[r.width..] + more, e, offset + r.width);
      assert t + ([r.value] + d.text) == t + [r.value] + d.text;
    }
  }

  /** The encoding can be told from the first three bytes. */
  lemma DetectsEarly(b: Bytes, more: Bytes)
    requires |b| >= 3 || more == []
    ensures
      var (e, n) := Detect(b);
      n <= |b| && DecodeInput(b + more) == Concat([], Whole(b[n..] + more, e, n))
  {
    hide Whole;
    assert more == [] ==> b + more == b;
    var (e, n) := Detect(b);
    assert Detect(b + more) == (e, n);
    assert (b + more)[n..] == b[n..] + more;
    var d := Whole(b[n..] + more, e, n);
    assert [] + d.text == d.text;
  }

  /** A character takes at most half as many bytes again in the buffer as in the input. */
  lemma Expands(b: Bytes, e: Encoding, eof: bool)
    requires b != [] && DecodeOne(b, e, eof).Char?
    ensures
      var r := DecodeOne(b, e, eof);
      r.value <= 0x10FFFF && 2 * |Utf8(r.value)| <= 3 * r.width
  {
    if e.Utf8Encoding? {
      Utf8Inverse(b, eof);
    }
  }

  class Reader {
    // What the read handler has still to give.
    var pending: Bytes
    var raw: Bytes
    var eof: bool
    var encoding: Option<Encoding>
    var offset: nat
    var buffer: Bytes
    var unread: nat
    ghost var input: Bytes
    // The characters decoded so far, those among them that were taken, and those in the buffer.
    ghost var produced: Text
    ghost var taken: Text
    ghost var chars: Text

    /** The decoded characters, a NUL behind the last one, were taken or are in the buffer. */
    ghost predicate BufferFits()
      reads this
    {
      && InRange(chars) && buffer == Encode(chars, Utf8Encoding) && unread == |chars| && |buffer| <= BUFFER_SIZE
      && taken + chars == produced + (if AtEnd() then [NUL] else [])
    }

    predicate AtEnd()
      reads this
    {
      encoding.Some? && eof && raw == []
    }

    /** What was decoded, and what the rest of the input will decode to, is what the whole input
        decodes to. */
    ghost predicate Agrees()
      reads this
    {
      match encoding
      case None => !eof && raw == [] && pending == input && produced == [] && offset == 0
      case Some(e) => DecodeInput(input) == Concat(produced, Whole(raw + pending, e, offset))
    }

    ghost predicate Valid()
      reads this
    {
      |raw| <= RAW_SIZE && (eof ==> pending == [] && raw == []) && Agrees() && BufferFits()
    }

    constructor (bytes: Bytes)
      ensures Valid() && input == bytes && produced == [] && taken == []
    {
      pending, raw, eof, encoding, offset, buffer, unread := bytes, [], false, None, 0, [], 0;
      input, produced, taken, chars := bytes, [], [], [];
    }

    /** Lets the read handler give some bytes, as many as it likes; no bytes mean the end. */
    method UpdateRaw()
      requires |raw| <= RAW_SIZE && (eof ==> pending == [])
      modifies this`raw, this`pending, this`eof
      ensures |raw| <= RAW_SIZE && (eof ==> pending == [])
      ensures raw + pending == old(raw + pending) && (old(eof) ==> eof)
      ensures old(|raw|) < RAW_SIZE && !old(eof) ==> eof || |pending| < |old(pending)|
      ensures |pending| <= |old(pending)| && |old(raw)| <= |raw|
    {
      if |raw| == RAW_SIZE || eof {
        return;
      }
      if pending == [] {
        eof := true;
      } else {
        var k: nat :| 0 < k <= |pending| && k <= RAW_SIZE - |raw|;
        raw, pending := raw + pending[..k], pending[k..];
      }
    }

    method DetermineEncoding()
      requires encoding.None? && Valid()
      modifies this`raw, this`pending, this`eof, this`encoding, this`offset
      ensures encoding.Some? && Agrees() && |raw| <= RAW_SIZE && (eof ==> pending == [])
    {
      hide Whole, Detect, DecodeInput;
      while !eof && |raw| < 3
        invariant |raw| <= RAW_SIZE && (eof ==> pending == []) && raw + pending == input
        decreases |pending|, !eof
      {
        UpdateRaw();
      }
      DetectsEarly(raw, pending);
      var (e, n) := Detect(raw);
      encoding, offset := Some(e), n;
      raw := raw[n..];
    }

    /** The state while the buffer is being filled. */
    ghost predicate Filling()
      reads this
    {
      && encoding.Some? && Agrees()
      && |raw| <= RAW_SIZE && (eof ==> pending == [])
      && InRange(chars) && buffer == Encode(chars, Utf8Encoding) && unread == |chars|
      && taken + chars == produced
    }

    /** Decoding stopped: the characters before the problem were taken or are in the buffer. */
    ghost predicate StoppedAt(problem: Problem, at: nat)
      reads this
    {
      && DecodeInput(input) == Decoded(taken + chars, Stopped(problem, at))
      && InRange(chars) && buffer == Encode(chars, Utf8Encoding)
    }

    /** Decodes the raw bytes as far as they go. */
    method DecodeRaw() returns (ok: bool, problem: Problem, at: nat)
      requires Filling()
      modifies this`raw, this`offset, this`buffer, this`unread, this`produced, this`chars
      ensures ok ==> Filling() && (raw == [] || (!eof && |raw| < 4))
      ensures ok ==> 2 * |buffer| + 3 * |raw| <= 2 * old(|buffer|) + 3 * old(|raw|)
      ensures ok ==> old(unread) <= unread
      ensures !ok ==> StoppedAt(problem, at)
    {
      hide Whole, DecodeInput, DecodeOne, Utf8;
      ok, problem, at := true, ControlCharacter, 0;
      while raw != []
        invariant ok && Filling() && 2 * |buffer| + 3 * |raw| <= 2 * old(|buffer|) + 3 * old(|raw|)
        invariant old(unread) <= unread
        decreases |raw|
      {
        var r := DecodeNext();
        Decides(raw, pending, encoding.value, eof, offset, produced);
        if r.Incomplete? {
          return;
        }
        if r.Bad? {
          assert produced + [] == produced;
          return false, r.problem, offset + r.at;
        }
        Expands(raw, encoding.value, eof);
        Store(r.value, r.width);
      }
    }

    method DecodeNext() returns (r: One)
      requires encoding.Some? && raw != []
      ensures r == DecodeOne(raw, encoding.value, eof)
    {
      match encoding.value {
        case Utf8Encoding =>
          r := NextUtf8(raw, eof);
        case _ =>
          r := DecodeUtf16(raw, encoding.value, eof);
      }
    }

    /** Puts a character into the buffer. */
    method Store(c: nat, width: nat)
      requires c <= 0x10FFFF && width <= |raw| && InRange(chars) && buffer == Encode(chars, Utf8Encoding) && unread == |chars|
      requires taken + chars == produced
      modifies this`raw, this`offset, this`buffer, this`unread, this`produced, this`chars
      ensures raw == old(raw)[width..] && offset == old(offset) + width && produced == old(produced) + [c]
      ensures InRange(chars) && buffer == Encode(chars, Utf8Encoding) && unread == |chars| == old(unread) + 1
      ensures |buffer| == old(|buffer|) + |Utf8(c)| && taken + chars == produced
    {
      EncodeSnoc(chars, c, Utf8Encoding);
      raw, offset := raw[width..], offset + width;
      buffer := buffer + Utf8(c);
      produced, chars, unread := produced + [c], chars + [c], unread + 1;
    }

    /** Makes sure that the buffer holds `length` characters, or the end of the input. */
    method UpdateBuffer(length: nat) returns (ok: bool, problem: Problem, at: nat)
      requires Valid() && length <= MAX_REQUEST
      modifies this
      ensures input == old(input) && taken == old(taken)
      ensures ok ==> Valid() && (unread >= length || AtEnd())
      ensures !ok ==> StoppedAt(problem, at)
    {
      hide Whole, DecodeInput, Utf8;
      ok, problem, at := true, ControlCharacter, 0;
      if AtEnd() || unread >= length {
        return;
      }
      if encoding.None? {
        DetermineEncoding();
        assert chars == [];
      }
      assert |buffer| <= 28;
      var first := true;
      while unread < length
        invariant ok && Filling() && input == old(input) && taken == old(taken)
        invariant first ==> |buffer| <= 28 && unread < length
        invariant !first ==> |raw| < 4 && !eof && |buffer| <= BUFFER_SIZE - 1
        decreases |pending|, first
      {
        assert |buffer| <= 28;
        if !first || raw == [] {
          UpdateRaw();
        }
        first := false;
        ok, problem, at := DecodeRaw();
        if !ok {
          return;
        }
        if eof {
          PutNul();
          return;
        }
      }
      assert produced + [] == produced;
    }

    method PutNul()
      requires Filling() && eof && raw == [] && |buffer| < BUFFER_SIZE
      modifies this`buffer, this`unread, this`chars
      ensures Valid() && AtEnd()
    {
      EncodeSnoc(chars, NUL, Utf8Encoding);
      buffer := buffer + [NUL];
      chars, unread := chars + [NUL], unread + 1;
      assert taken + chars == produced + [NUL];
    }

    /** Takes the first character out of the buffer. */
    method Take() returns (c: nat)
      requires Valid() && unread > 0
      modifies this`buffer, this`unread, this`chars, this`taken
      ensures Valid() && taken == old(taken) + [c] && unread == old(unread) - 1
      ensures c == old(chars)[0] && chars == old(chars)[1..]
    {
      hide DecodeInput, Whole, Joined, WidthOf, Encode, EncodeOne, Utf8;
      HeadOf(chars);
      var w := WidthOf(buffer[0]);
      c := Joined(buffer, w);
      TakeOne(taken, chars);
      buffer, unread := buffer[w..], unread - 1;
      taken, chars := taken + [c], chars[1..];
    }
  }

  lemma {:induction false} NoNul(b: Bytes, e: Encoding, offset: nat)
    ensures NUL !in Whole(b, e, offset).text
    decreases |b|
  {
    hide DecodeOne;
    if b != [] {
      OneFits(b, e, true);
      var r := DecodeOne(b, e, true);
      if r.Char? {
        NoNul(b[r.width..], e, offset + r.width);
      }
    }
  }

  /** A NUL in the buffer is the one behind the last character. */
  lemma NulIsLast(taken: Text, rest: Text, produced: Text, tail: Text)
    requires taken + [NUL] + rest == produced + tail && (tail == [] || tail == [NUL]) && NUL !in produced
    ensures taken == produced && tail == [NUL]
  {
    var all := taken + [NUL] + rest;
    assert all[|taken|] == NUL;
    assert forall i | 0 <= i < |produced| :: all[i] == produced[i] && produced[i] in produced;
    assert taken == all[..|taken|];
    assert produced == all[..|produced|];
  }

  datatype Outcome = Got(c: nat) | Over | Failed(problem: Problem, at: nat)

  /** Reads one character, asking for as many ahead as the scanner likes; a NUL stands for the end. */
  method Next(r: Reader) returns (o: Outcome)
    requires r.Valid() && NUL !in r.taken && NUL !in DecodeInput(r.input).text
    modifies r
    ensures r.input == old(r.input)
    ensures o.Got? ==> r.Valid() && o.c != NUL && r.taken == old(r.taken) + [o.c]
    ensures o.Got? ==> |r.taken| <= |DecodeInput(r.input).text|
    ensures o.Over? ==> DecodeInput(r.input) == Decoded(old(r.taken), AtEnd)
    ensures o.Failed? ==> r.StoppedAt(o.problem, o.at) && r.taken == old(r.taken)
  {
    hide DecodeInput, Whole, Encode;
    var length: nat :| 1 <= length <= MAX_REQUEST;
    var ok, problem, at := r.UpdateBuffer(length);
    if !ok {
      return Failed(problem, at);
    }
    ghost var tail := if r.AtEnd() then [NUL] else [];
    ProducedIsPrefix(r);
    assert tail != [] ==> (r.produced + tail)[|r.produced|] == NUL;
    assert r.taken + [] == r.taken;
    var c := r.Take();
    if c == NUL {
      NulIsLast(old(r.taken), r.chars, r.produced, tail);
      AllRead(r);
      return Over;
    }
    assert (r.taken + r.chars)[|r.taken| - 1] == c;
    return Got(c);
  }

  lemma ProducedIsPrefix(r: Reader)
    requires r.Valid()
    ensures r.produced <= DecodeInput(r.input).text
  {
    hide DecodeInput, Whole;
  }

  lemma AllRead(r: Reader)
    requires r.Valid() && r.AtEnd()
    ensures DecodeInput(r.input) == Decoded(r.produced, AtEnd)
  {
    hide DecodeInput;
    assert r.raw + r.pending == [];
    assert r.produced + [] == r.produced;
  }

  lemma Ahead(r: Reader, problem: Problem, at: nat)
    requires r.StoppedAt(problem, at)
    ensures r.taken <= DecodeInput(r.input).text && DecodeInput(r.input).end == Stopped(problem, at)
    ensures
      var ahead := DecodeInput(r.input).text[|r.taken|..];
      InRange(ahead) && r.buffer == Encode(ahead, Utf8Encoding)
  {
    hide DecodeInput, Encode;
    assert (r.taken + r.chars)[|r.taken|..] == r.chars;
  }

  /** However the read handler splits the input, and however far ahead the scanner asks for
      characters, the characters that are read are those of the input decoded as a whole. If there
      is a problem, it and its place are those of the whole input, and the characters before it are
      those that were read and, in UTF-8, those left in the buffer. */
  method ReadAll(input: Bytes) returns (d: Decoded, left: Bytes)
    ensures d.end == DecodeInput(input).end && d.text <= DecodeInput(input).text
    ensures
      var ahead := DecodeInput(input).text[|d.text|..];
      InRange(ahead) && left == Encode(ahead, Utf8Encoding) && (d.end.AtEnd? ==> ahead == [])
  {
    ghost var whole := DecodeInput(input).text;
    NoNul(input[Detect(input).1..], Detect(input).0, Detect(input).1);
    assert NUL !in whole;
    NothingEncoded(Utf8Encoding);
    hide *;
    var r := new Reader(input);
    var text: Text := [];
    while true
      invariant fresh(r) && r.Valid() && r.input == input && text == r.taken && NUL !in text && |text| <= |whole|
      decreases |whole| - |text|
    {
      var o := Next(r);
      match o {
        case Failed(problem, at) =>
          Ahead(r, problem, at);
          return Decoded(text, Stopped(problem, at)), r.buffer;
        case Over =>
          assert text[|text|..] == [];
          return Decoded(text, End.AtEnd), [];
        case Got(c) => text := text + [c];
      }
    }
  }
}
