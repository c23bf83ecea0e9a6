/** Simple keys: what the emitter writes as one stays on one line and is short enough for the
    scanner to take it for one. */
module SimpleKeys {
  import opened Events
  import opened Nesting
  import opened Characters
  import opened Layout
  import opened Tags
  import opened EmitterStates
  import opened EmittedNodes
  import opened ScalarStyles
  import Encodings
  import FlowScanner
  import DQ = DoubleQuoted
  import SpacedScalars
  import Tokens
  import TokenQueue

  predicate OnOneLine(t: Text) {
    forall i | 0 <= i < |t| :: !IsBreak(t[i])
  }

  function Bytes(t: Text): nat
    requires Encodings.InRange(t)
  {
    |Encodings.Encode(t, Encodings.Utf8Encoding)|
  }

  lemma Joined(a: Text, b: Text)
    requires OnOneLine(a) && OnOneLine(b)
    ensures OnOneLine(a + b)
  {
    hide IsBreak;
  }

  // ---- Anchors and tags ----

  lemma AnchorFits(anchor: Option<string>, sign: nat, p: Pen)
    requires (anchor.Some? ==> IsAnchor(anchor.value)) && !IsBreak(sign)
    ensures OnOneLine(AnchorText(anchor, sign, p)) && |AnchorText(anchor, sign, p)| <= LengthOf(anchor) + 2
  {
    if anchor.Some? {
      AnchorHasNoBreak(anchor.value);
    }
  }

  lemma HexFits(d: nat)
    requires d < 16
    ensures !IsBreak(DQ.HexDigit(d))
  {
  }

  lemma {:induction false} PercentFits(bytes: Encodings.Bytes)
    ensures OnOneLine(PercentTexts(bytes))
    decreases |bytes|
  {
    if bytes != [] {
      HexFits(bytes[0] / 16);
      HexFits(bytes[0] % 16);
      hide IsBreak, DQ.HexDigit;
      PercentFits(bytes[1..]);
      assert !IsBreak(PERCENT) by { NotBreaks(); }
      Joined(PercentText(bytes[0]), PercentTexts(bytes[1..]));
    }
  }

  lemma NotBreaks()
    ensures !IsBreak(PERCENT) && !IsBreak(SPACE) && !IsBreak(QUOTE) && !IsBreak(APOSTROPHE) && !IsBreak(BACKSLASH)
  {
  }

  lemma PieceFits(c: nat)
    requires c <= 0x10FFFF
    ensures OnOneLine(PieceText(c)) && |PieceText(c)| <= 3 * |Utf8(c)|
  {
    if !IsWrittenAsIs(c) {
      PercentFits(Utf8(c));
    }
  }

  lemma {:induction false} ContentFits(t: Text)
    requires Encodings.InRange(t)
    ensures OnOneLine(ContentText(t)) && |ContentText(t)| <= 3 * Bytes(t)
    decreases |t|
  {
    hide PieceText, IsBreak, Utf8;
    if t != [] {
      PieceFits(t[0]);
      ContentFits(t[1..]);
      Joined(PieceText(t[0]), ContentText(t[1..]));
    }
  }

  lemma TagFits(g: TagData, p: Pen)
    requires HasValidHandle(g)
    ensures OnOneLine(TagText(g, p)) && |TagText(g, p)| <= 3 * (LengthOf(g.handle) + LengthOf(g.suffix)) + 4
  {
    hide OnOneLine, TagBody, LengthOf, HasValidHandle;
    if g != NO_TAG {
      TagBodyFits(g);
      SpacerFits(p);
      Joined(Spacer(p), TagBody(g));
    } else {
      NothingFits();
    }
  }

  lemma NothingFits()
    ensures OnOneLine([])
  {
  }

  lemma SpacerFits(p: Pen)
    ensures OnOneLine(Spacer(p))
  {
  }

  lemma TagBodyFits(g: TagData)
    requires HasValidHandle(g)
    ensures OnOneLine(TagBody(g)) && |TagBody(g)| <= 3 * (LengthOf(g.handle) + LengthOf(g.suffix)) + 3
  {
    if g.handle.Some? {
      HandleHasNoBreak(g.handle.value);
      HandleBytes(g.handle.value);
    }
    if g.suffix.Some? {
      ContentFits(TextOf(g.suffix.value));
    }
    hide ContentText, IsHandle, Encodings.Encode;
  }

  lemma HandleBytes(handle: string)
    ensures |handle| <= ByteLength(handle)
  {
    hide Encodings.Encode;
    EncodedLength(TextOf(handle));
  }

  lemma {:induction false} EncodedLength(t: Text)
    requires Encodings.InRange(t)
    ensures |t| <= Bytes(t)
    decreases |t|
  {
    if t != [] {
      EncodedLength(t[1..]);
    }
  }

  // ---- Scalars ----

  lemma {:induction false} SpacedFits(s: Text, st: SpacedScalars.Stand, l: Settings, single: bool)
    requires OnOneLine(s) && !l.allowBreaks && !st.breaks
    ensures OnOneLine(SpacedScalars.Body(s, st, l, single)) && |SpacedScalars.Body(s, st, l, single)| <= 2 * |s| + 1
    decreases |s|
  {
    hide IsBreak;
    NotBreaks();
    if s != [] {
      SpacedFits(s[1..], SpacedScalars.Next(s, st, l, single), l, single);
      var piece := SpacedScalars.Piece(s, st, l, single);
      assert OnOneLine(piece) && |piece| <= 2;
      Joined(piece, SpacedScalars.Body(s[1..], SpacedScalars.Next(s, st, l, single), l, single));
    }
  }

  lemma {:induction false} DigitsFit(n: nat, k: nat)
    ensures OnOneLine(DQ.Digits(n, k))
    decreases k
  {
    if k > 0 {
      HexFits(n % 16);
      hide IsBreak, DQ.HexDigit;
      DigitsFit(n / 16, k - 1);
      Joined(DQ.Digits(n / 16, k - 1), [DQ.HexDigit(n % 16)]);
    }
  }

  lemma EscapeFits(c: nat)
    requires c <= 0x10FFFF
    ensures OnOneLine(DQ.EscapeText(c)) && |DQ.EscapeText(c)| <= 4 * |Utf8(c)|
  {
    DigitsFit(c, FlowScanner.CodeLength(DQ.CodeLetter(c)));
    DQ.EscapeIs(c);
    var head := [BACKSLASH] + [DQ.CodeLetter(c)];
    assert OnOneLine(head);
    Joined(head, DQ.Digits(c, FlowScanner.CodeLength(DQ.CodeLetter(c))));
    hide DQ.Digits;
  }

  lemma QuotedPieceFits(s: Text, isFirst: bool, p: Pen, spaces: bool, l: Settings)
    requires s != [] && s[0] <= 0x10FFFF && !l.allowBreaks
    ensures var t := DQ.Piece(s, isFirst, p, spaces, l); OnOneLine(t) && |t| <= 4 * |Utf8(s[0])|
  {
    EscapeFits(s[0]);
    hide DQ.EscapeText, IndentText;
  }

  lemma {:induction false} DoubleQuotedFits(s: Text, isFirst: bool, p: Pen, spaces: bool, l: Settings)
    requires Encodings.InRange(s) && !l.allowBreaks
    ensures OnOneLine(DQ.Body(s, isFirst, p, spaces, l)) && |DQ.Body(s, isFirst, p, spaces, l)| <= 4 * Bytes(s) + 1
    decreases |s|
  {
    hide IsBreak, DQ.Piece, DQ.PieceEnd, Utf8;
    NotBreaks();
    if s != [] {
      QuotedPieceFits(s, isFirst, p, spaces, l);
      var end := DQ.PieceEnd(s, isFirst, p, spaces, l);
      DoubleQuotedFits(s[1..], false, end, s[0] == SPACE, l);
      Joined(DQ.Piece(s, isFirst, p, spaces, l), DQ.Body(s[1..], false, end, s[0] == SPACE, l));
    }
  }

  lemma ScalarFits(style: ScalarStyle, s: Text, p: Pen, l: Settings, inFlow: bool, bestIndent: nat)
    requires Encodings.InRange(s) && OnOneLine(s) && !l.allowBreaks && (style.Plain? || style.SingleQuoted? || style.DoubleQuoted?)
    ensures var t := ScalarText(style, s, p, l, inFlow, bestIndent); OnOneLine(t) && |t| <= 4 * Bytes(s) + 3
  {
    hide SpacedScalars.Body, DQ.Body, Encodings.Encode, IsBreak;
    NotBreaks();
    if style.Plain? {
      var space := !p.whitespace && (s != [] || inFlow);
      SpacedFits(s, SpacedScalars.Stand(Move(p, if space then 1 else 0), true, false, false), l, false);
    } else if style.SingleQuoted? {
      SpacedFits(s, SpacedScalars.Stand(AfterOpening(p), true, false, false), l, true);
    } else {
      DoubleQuotedFits(s, true, AfterOpening(p), false, l);
    }
  }

  // ---- Whole keys ----

  /** What the end of an empty collection adds: it is written in flow style. */
  function EndText(e: Event, p: Pen): Text {
    if e.SequenceStart? then Spacer(p) + TextOf("[") + TextOf("]")
    else if e.MappingStart? then Spacer(p) + TextOf("{") + TextOf("}")
    else []
  }

  /** A simple key as it is written. */
  ghost function KeyText(e: Event, c: Config, o: Options, p: Pen): Text
    requires BeginsNode(e)
  {
    var node := NodeText(e, c, o, p);
    node + EndText(e, AfterProperty(p, node))
  }

  lemma PropertiesFit(e: Event, c: Config, o: Options, p: Pen)
    requires BeginsNode(e) && IsProper(e, o.canonical) && ValidHandles(c.tagDirectives)
    ensures
      var t, g := PropertiesText(e, c, o, p), TagDataOf(e, o.canonical, c.tagDirectives);
      OnOneLine(t) && |t| <= LengthOf(e.anchor) + 3 * (LengthOf(g.handle) + LengthOf(g.suffix)) + 9
  {
    var sign := if e.Alias? then ASTERISK else AMPERSAND;
    assert !IsBreak(sign);
    assert e.anchor.Some? ==> IsAnchor(e.anchor.value);
    TagDataIs(e, o.canonical, c.tagDirectives);
    BangIsHandle();
    BangIsOne();
    hide IsBreak, IsProper, IsAnchor, HasValidHandle, ChoiceOf, TagDataOf, AnchorText, TagText, ByteLength;
    var anchor := AnchorText(e.anchor, sign, p);
    AnchorFits(e.anchor, sign, p);
    TagFits(TagOf(e, c, o), AfterProperty(p, anchor));
    Joined(anchor, TagText(TagOf(e, c, o), AfterProperty(p, anchor)));
  }

  lemma BangIsOne()
    ensures ByteLength("!") == 1
  {
    assert TextOf("!") == [BANG] && [BANG][1..] == [];
  }

  lemma KeyContentFits(e: Event, c: Config, o: Options, p: Pen)
    requires BeginsNode(e) && (e.Scalar? ==> !IsMultiline(e.value)) && c.simpleKeyContext
    ensures
      var t := ContentOf(e, c, o, p);
      OnOneLine(t) && |t| <= 4 * (if e.Scalar? then ByteLength(e.value) else 0) + 3
  {
    hide ScalarText, IsBreak, SelectStyle, IsAnalysis, Encodings.Encode;
    NotBreaks();
    if e.Scalar? && ChoiceOf(e, c, o).Chosen? {
      var s := TextOf(e.value);
      ChoiceIsAllowed(e.scalarStyle, AnalysisOf(s, o.unicode), s, o.unicode, Site(c.flowLevel > 0, c.simpleKeyContext, o.canonical),
        Tagging(!WritesTag(e, o.canonical), e.plainImplicit, e.quotedImplicit));
      ScalarFits(ChoiceOf(e, c, o).style, s, p, SettingsAt(Deeper(c.indent, BestIndent(o), true, false), o, false), c.flowLevel > 0, BestIndent(o));
    }
  }

  /** Whatever the emitter writes as a simple key has no line break, and at most four characters
      for each byte of its budget besides the indicators. */
  lemma SimpleKeyIsShort(rest: seq<Event>, c: Config, o: Options, p: Pen)
    requires IsSimpleKey(rest, o.canonical, c.tagDirectives) && IsProper(rest[0], o.canonical)
    requires ValidHandles(c.tagDirectives) && c.simpleKeyContext
    ensures OnOneLine(KeyText(rest[0], c, o, p)) && |KeyText(rest[0], c, o, p)| <= 4 * 128 + 15
  {
    hide PropertiesText, ContentOf, IsBreak, IsProper, IsMultiline, TagDataOf, LengthOf;
    var e := rest[0];
    PropertiesFit(e, c, o, p);
    var properties := PropertiesText(e, c, o, p);
    KeyContentFits(e, c, o, AfterProperty(p, properties));
    var content := ContentOf(e, c, o, AfterProperty(p, properties));
    Joined(properties, content);
    EndFits(e, AfterProperty(p, properties + content));
    Joined(properties + content, EndText(e, AfterProperty(p, properties + content)));
  }

  lemma EndFits(e: Event, p: Pen)
    ensures OnOneLine(EndText(e, p)) && |EndText(e, p)| <= 3
  {
  }

  // ---- The scanner ----

  /** Where the scanner is after it has passed a text. */
  function Passed(m: Tokens.Mark, t: Text): Tokens.Mark {
    if t == [] then m
    else
      var n := Passed(m, t[..|t| - 1]);
      if IsBreak(t[|t| - 1]) then Tokens.Mark(n.index + 1, n.line + 1, 0) else Tokens.Mark(n.index + 1, n.line, n.column + 1)
  }

  lemma {:induction false} PassedLine(m: Tokens.Mark, t: Text)
    requires OnOneLine(t)
    ensures Passed(m, t) == Tokens.Mark(m.index + |t|, m.line, m.column + |t|)
    decreases |t|
  {
    hide IsBreak;
    if t != [] {
      PassedLine(m, t[..|t| - 1]);
    }
  }

  /** When the scanner comes to the `:` behind a simple key that the emitter wrote, it has not
      dropped the key. */
  lemma WrittenKeyIsNotStale(rest: seq<Event>, c: Config, o: Options, p: Pen, start: nat, k: Tokens.SimpleKey)
    requires IsSimpleKey(rest, o.canonical, c.tagDirectives) && IsProper(rest[0], o.canonical)
    requires ValidHandles(c.tagDirectives) && c.simpleKeyContext && start <= |KeyText(rest[0], c, o, p)|
    ensures !TokenQueue.IsStale(k, Passed(k.mark, KeyText(rest[0], c, o, p)[start..]))
  {
    hide KeyText, KeyLength, IsProper, IsBreak;
    SimpleKeyIsShort(rest, c, o, p);
    PassedLine(k.mark, KeyText(rest[0], c, o, p)[start..]);
  }
}
