/** The output of the emitter: characters are collected in a buffer, which is recoded and handed
    to the write handler whenever it is nearly full. */
module OutputBuffer {
  import opened Characters
  import opened Encodings

  const BUFFER_SIZE: nat := 16384
  const RAW_SIZE: nat := 2 * 16384 + 2

  /** The concatenation of some texts. */
  function Joining(texts: seq<Text>): Text {
    if texts == [] then [] else Joining(texts[..|texts| - 1]) + texts[|texts| - 1]
  }

  /** Recoding to UTF-16 at most doubles the bytes. */
  lemma {:induction false} RawFits(t: Text, e: Encoding)
    requires InRange(t)
    ensures |Encode(t, e)| <= 2 * |Encode(t, Utf8Encoding)|
    decreases |t|
  {
    if t != [] {
      RawFits(t[1..], e);
    }
  }

  class Output {
    const encoding: Encoding
    // The UTF-8 that was not handed over yet, and the chunks that were.
    var buffer: Bytes
    var chunks: seq<Bytes>
    // The same as texts.
    ghost var pending: Text
    ghost var sent: seq<Text>

    /** All that was written to the buffer. */
    ghost function Content(): Text
      reads this
    {
      Joining(sent) + pending
    }

    /** The buffer and the chunks hold whole characters, the chunks in the output encoding. */
    ghost predicate Valid()
      reads this
    {
      && InRange(pending) && buffer == Encode(pending, Utf8Encoding) && |buffer| <= BUFFER_SIZE
      && |sent| == |chunks|
      && forall i | 0 <= i < |chunks| ::
           InRange(sent[i]) && chunks[i] == Encode(sent[i], encoding) && 0 < |chunks[i]| <= RAW_SIZE
    }

    constructor (e: Encoding)
      ensures Valid() && Content() == [] && encoding == e
    {
      encoding, buffer, chunks := e, [], [];
      pending, sent := [], [];
    }

    /** Hands the buffer over. */
    method Flush()
      requires Valid()
      modifies this
      ensures Valid() && Content() == old(Content()) && buffer == []
      ensures |chunks| == old(|chunks|) + (if old(buffer) == [] then 0 else 1) && old(chunks) <= chunks
    {
      hide Encode;
      if buffer == [] {
        return;
      }
      var chunk := buffer;
      if encoding != Utf8Encoding {
        chunk := Recode();
      }
      RawFits(pending, encoding);
      SentAll(sent, pending);
      NothingEncoded(Utf8Encoding);
      chunks, buffer := chunks + [chunk], [];
      sent, pending := sent + [pending], [];
    }

    /** Recodes the buffer to UTF-16 into the raw buffer, which it fits. */
    method Recode() returns (raw: Bytes)
      requires Valid() && encoding != Utf8Encoding
      ensures raw == Encode(pending, encoding) && |raw| <= RAW_SIZE
    {
      RawFits(pending, encoding);
      ghost var rest := pending;
      var i := 0;
      raw := [];
      assert buffer[0..] == buffer && pending[..0] == [];
      while i < |buffer|
        invariant 0 <= i <= |buffer| && InRange(rest) && buffer[i..] == Encode(rest, Utf8Encoding)
        invariant raw + Encode(rest, encoding) == Encode(pending, encoding)
        decreases |buffer| - i
      {
        HeadOf(rest);
        var b := buffer[i..];
        var width := WidthOf(b[0]);
        var value := Joined(b, width);
        assert buffer[i + width..] == b[width..];
        Assoc(raw, EncodeOne(value, encoding), Encode(rest[1..], encoding));
        raw := raw + Utf16(value, encoding);
        i := i + width;
        rest := rest[1..];
      }
      assert rest == [];
      assert raw + [] == raw;
    }

    /** Writes one character; the buffer is handed over first if it is nearly full. */
    method Put(c: nat)
      requires Valid() && c <= 0x10FFFF
      modifies this
      ensures Valid() && Content() == old(Content()) + [c]
    {
      if |buffer| + 5 >= BUFFER_SIZE {
        Flush();
      }
      EncodeSnoc(pending, c, Utf8Encoding);
      Assoc(Joining(sent), pending, [c]);
      buffer := buffer + Utf8(c);
      pending := pending + [c];
    }
  }

  lemma SentAll(sent: seq<Text>, last: Text)
    ensures Joining(sent + [last]) + [] == Joining(sent) + last
  {
    assert (sent + [last])[..|sent|] == sent;
  }

  function JoiningBytes(chunks: seq<Bytes>): Bytes {
    if chunks == [] then [] else JoiningBytes(chunks[..|chunks| - 1]) + chunks[|chunks| - 1]
  }

  lemma {:induction false} ChunksJoin(sent: seq<Text>, chunks: seq<Bytes>, e: Encoding)
    requires |sent| == |chunks|
    requires forall i | 0 <= i < |chunks| :: InRange(sent[i]) && chunks[i] == Encode(sent[i], e)
    ensures InRange(Joining(sent)) && JoiningBytes(chunks) == Encode(Joining(sent), e)
    decreases |sent|
  {
    hide Encode;
    if sent == [] {
      NothingEncoded(e);
    } else {
      var n := |sent| - 1;
      ChunksJoin(sent[..n], chunks[..n], e);
      EncodeAppend(Joining(sent[..n]), sent[n], e);
    }
  }

  /** Where the buffer was handed over does not matter: the chunks and the buffer together are the
      recoding of all that was written. */
  lemma FlushPointsDoNotMatter(o: Output)
    requires o.Valid()
    ensures InRange(o.Content())
    ensures JoiningBytes(o.chunks) + Encode(o.pending, o.encoding) == Encode(o.Content(), o.encoding)
  {
    hide Encode;
    ChunksJoin(o.sent, o.chunks, o.encoding);
    EncodeAppend(Joining(o.sent), o.pending, o.encoding);
  }
}
