/** The characters that the emitter writes in a run, and that the text of a run comes back from its
    bytes in every encoding. */
module EmittedText {
  import opened Events
  import opened Nesting
  import opened Characters
  import opened Layout
  import opened EmitterStates
  import opened EmittedNodes
  import opened ScalarStyles
  import opened Pages
  import opened Emitter
  import opened Continuations
  import Tags
  import Encodings
  import FlowScanner
  import PlainScalars
  import SingleQuotedScalars = SingleQuoted
  import LiteralScalars
  import FoldedScalars
  import SpacedScalars
  import DQ = DoubleQuoted

  /** Printable characters of the basic plane, of ASCII only if the emitter is told so, and the
      carriage return of a line break. */
  predicate IsEmitted(c: nat, unicode: bool) {
    c == CR || IsPlainlyWritten(c, unicode)
  }

  predicate AllEmitted(t: Text, unicode: bool) {
    forall i | 0 <= i < |t| :: IsEmitted(t[i], unicode)
  }

  lemma Joined(a: Text, b: Text, unicode: bool)
    requires AllEmitted(a, unicode) && AllEmitted(b, unicode)
    ensures AllEmitted(a + b, unicode)
  {
    hide IsEmitted;
  }

  lemma AsciiEmitted(t: Text, unicode: bool)
    requires forall i | 0 <= i < |t| :: 0x20 <= t[i] <= 0x7E
    ensures AllEmitted(t, unicode)
  {
  }

  lemma BreakEmitted(b: LineBreak, unicode: bool)
    ensures AllEmitted(BreakOf(b), unicode)
  {
  }

  lemma SpacesEmitted(n: int, unicode: bool)
    ensures AllEmitted(Spaces(n), unicode)
  {
  }

  lemma IndentEmitted(l: Settings, p: Pen, unicode: bool)
    ensures AllEmitted(IndentText(l, p), unicode)
  {
    hide IsEmitted;
    BreakEmitted(l.lineBreak, unicode);
    SpacesEmitted(l.indent, unicode);
    SpacesEmitted(l.indent - p.column, unicode);
    Joined(BreakOf(l.lineBreak), Spaces(l.indent), unicode);
  }

  lemma BreakAsEmitted(c: nat, b: LineBreak, unicode: bool)
    requires IsPlainlyWritten(c, unicode)
    ensures AllEmitted(BreakAs(c, b), unicode)
  {
    BreakEmitted(b, unicode);
  }

  predicate PlainlyWritten(s: Text, unicode: bool) {
    forall i | 0 <= i < |s| :: IsPlainlyWritten(s[i], unicode)
  }

  // ---- Scalars ----

  lemma SpacedPiece(s: Text, st: SpacedScalars.Stand, l: Settings, single: bool)
    requires s != [] && IsPlainlyWritten(s[0], l.unicode)
    ensures AllEmitted(SpacedScalars.Piece(s, st, l, single), l.unicode) && AllEmitted(SpacedScalars.Lead(st, l), l.unicode)
  {
    hide IndentText, BreakAs, BreakOf;
    IndentEmitted(l, st.pen, l.unicode);
    if IsBreak(s[0]) {
      BreakAsEmitted(s[0], l.lineBreak, l.unicode);
      BreakEmitted(l.lineBreak, l.unicode);
    }
  }

  lemma {:induction false} SpacedEmitted(s: Text, st: SpacedScalars.Stand, l: Settings, single: bool)
    requires PlainlyWritten(s, l.unicode)
    ensures AllEmitted(SpacedScalars.Body(s, st, l, single), l.unicode)
    decreases |s|
  {
    if s != [] {
      hide SpacedScalars.Piece, SpacedScalars.Next, IsEmitted, IsPlainlyWritten;
      SpacedPiece(s, st, l, single);
      SpacedEmitted(s[1..], SpacedScalars.Next(s, st, l, single), l, single);
      Joined(SpacedScalars.Piece(s, st, l, single), SpacedScalars.Body(s[1..], SpacedScalars.Next(s, st, l, single), l, single), l.unicode);
    } else {
      hide IndentText;
      IndentEmitted(l, st.pen, l.unicode);
      AsciiEmitted([APOSTROPHE], l.unicode);
      Joined(SpacedScalars.Lead(st, l), [APOSTROPHE], l.unicode);
    }
  }

  lemma {:induction false} DigitsEmitted(n: nat, k: nat, unicode: bool)
    ensures AllEmitted(DQ.Digits(n, k), unicode)
    decreases k
  {
    if k > 0 {
      DigitsEmitted(n / 16, k - 1, unicode);
      AsciiEmitted([DQ.HexDigit(n % 16)], unicode);
      Joined(DQ.Digits(n / 16, k - 1), [DQ.HexDigit(n % 16)], unicode);
    }
  }

  lemma EscapeEmitted(c: nat, unicode: bool)
    ensures AllEmitted(DQ.EscapeText(c), unicode)
  {
    if DQ.Letter(c) != 0 {
      AsciiEmitted(DQ.EscapeText(c), unicode);
    } else {
      hide DQ.Digits;
      AsciiEmitted([BACKSLASH, DQ.CodeLetter(c)], unicode);
      DigitsEmitted(c, FlowScanner.CodeLength(DQ.CodeLetter(c)), unicode);
      Joined([BACKSLASH, DQ.CodeLetter(c)], DQ.Digits(c, FlowScanner.CodeLength(DQ.CodeLetter(c))), unicode);
    }
  }

  lemma QuotedPiece(s: Text, isFirst: bool, p: Pen, spaces: bool, l: Settings)
    requires s != []
    ensures AllEmitted(DQ.Piece(s, isFirst, p, spaces, l), l.unicode)
  {
    hide DQ.EscapeText, IndentText;
    EscapeEmitted(s[0], l.unicode);
    IndentEmitted(l, p, l.unicode);
  }

  lemma {:induction false} QuotedEmitted(s: Text, isFirst: bool, p: Pen, spaces: bool, l: Settings)
    ensures AllEmitted(DQ.Body(s, isFirst, p, spaces, l), l.unicode)
    decreases |s|
  {
    if s == [] {
      AsciiEmitted([QUOTE], l.unicode);
    } else {
      hide DQ.Piece, DQ.PieceEnd, IsEmitted;
      QuotedPiece(s, isFirst, p, spaces, l);
      var end := DQ.PieceEnd(s, isFirst, p, spaces, l);
      QuotedEmitted(s[1..], false, end, s[0] == SPACE, l);
      Joined(DQ.Piece(s, isFirst, p, spaces, l), DQ.Body(s[1..], false, end, s[0] == SPACE, l), l.unicode);
    }
  }

  lemma {:induction false} LiteralEmitted(s: Text, p: Pen, breaks: bool, l: Settings)
    requires PlainlyWritten(s, l.unicode)
    ensures AllEmitted(LiteralScalars.Body(s, p, breaks, l), l.unicode)
    decreases |s|
  {
    if s != [] {
      hide IndentText, BreakAs, IsPlainlyWritten;
      IndentEmitted(l, p, l.unicode);
      if IsBreak(s[0]) {
        var next := Pen(0, p.whitespace, true);
        BreakAsEmitted(s[0], l.lineBreak, l.unicode);
        LiteralEmitted(s[1..], next, true, l);
        Joined(BreakAs(s[0], l.lineBreak), LiteralScalars.Body(s[1..], next, true, l), l.unicode);
      } else {
        var next := Move(if breaks then Indented(l) else p, 1).(indention := false);
        LiteralEmitted(s[1..], next, false, l);
        var lead := if breaks then IndentText(l, p) else [];
        Joined(lead, [s[0]], l.unicode);
        Joined(lead + [s[0]], LiteralScalars.Body(s[1..], next, false, l), l.unicode);
      }
    }
  }

  lemma FoldedPiece(s: Text, at: FoldedScalars.Place, l: Settings)
    requires s != [] && IsPlainlyWritten(s[0], l.unicode)
    ensures AllEmitted(FoldedScalars.Piece(s, at, l), l.unicode)
  {
    hide IndentText, BreakAs, BreakOf;
    IndentEmitted(l, at.pen, l.unicode);
    BreakEmitted(l.lineBreak, l.unicode);
    BreakAsEmitted(s[0], l.lineBreak, l.unicode);
  }

  lemma {:induction false} FoldedEmitted(s: Text, at: FoldedScalars.Place, l: Settings)
    requires PlainlyWritten(s, l.unicode)
    ensures AllEmitted(FoldedScalars.Body(s, at, l), l.unicode)
    decreases |s|
  {
    if s != [] {
      hide FoldedScalars.Piece, FoldedScalars.Next, IsEmitted, IsPlainlyWritten;
      FoldedPiece(s, at, l);
      FoldedEmitted(s[1..], FoldedScalars.Next(s, at, l), l);
      Joined(FoldedScalars.Piece(s, at, l), FoldedScalars.Body(s[1..], FoldedScalars.Next(s, at, l), l), l.unicode);
    }
  }

  lemma OpeningEmitted(quote: nat, p: Pen, unicode: bool)
    requires 0x20 <= quote <= 0x7E
    ensures AllEmitted(Opening(quote, p), unicode)
  {
    AsciiEmitted(Opening(quote, p), unicode);
  }

  lemma HeaderEmitted(quote: nat, p: Pen, value: Text, bestIndent: nat, b: LineBreak, unicode: bool)
    requires 0x20 <= quote <= 0x7E && bestIndent <= 9
    ensures AllEmitted(Opening(quote, p) + LiteralScalars.Hints(value, bestIndent) + BreakOf(b), unicode)
  {
    hide Opening, BreakOf, IsEmitted, LiteralScalars.ChompingFor;
    OpeningEmitted(quote, p, unicode);
    AsciiEmitted(LiteralScalars.Hints(value, bestIndent), unicode);
    BreakEmitted(b, unicode);
    Joined(Opening(quote, p), LiteralScalars.Hints(value, bestIndent), unicode);
    Joined(Opening(quote, p) + LiteralScalars.Hints(value, bestIndent), BreakOf(b), unicode);
  }

  lemma ScalarEmitted(style: ScalarStyle, value: Text, p: Pen, l: Settings, inFlow: bool, bestIndent: nat)
    requires style.DoubleQuoted? || PlainlyWritten(value, l.unicode)
    requires !style.AnyScalarStyle? && bestIndent <= 9
    ensures AllEmitted(ScalarText(style, value, p, l, inFlow, bestIndent), l.unicode)
  {
    hide SpacedScalars.Body, DQ.Body, LiteralScalars.Body, FoldedScalars.Body, Opening, LiteralScalars.Hints, BreakOf, IsEmitted;
    match style {
      case Plain =>
        var space := !p.whitespace && (value != [] || inFlow);
        var st := SpacedScalars.Stand(Move(p, if space then 1 else 0), true, false, false);
        AsciiEmitted([SPACE], l.unicode);
        SpacedEmitted(value, st, l, false);
        Joined(if space then [SPACE] else [], SpacedScalars.Body(value, st, l, false), l.unicode);
      case SingleQuoted =>
        var st := SpacedScalars.Stand(AfterOpening(p), true, false, false);
        OpeningEmitted(APOSTROPHE, p, l.unicode);
        SpacedEmitted(value, st, l, true);
        Joined(Opening(APOSTROPHE, p), SpacedScalars.Body(value, st, l, true), l.unicode);
      case Literal =>
        HeaderEmitted(LiteralScalars.BAR, p, value, bestIndent, l.lineBreak, l.unicode);
        LiteralEmitted(value, Pen(0, true, true), true, l);
        Joined(Opening(LiteralScalars.BAR, p) + LiteralScalars.Hints(value, bestIndent) + BreakOf(l.lineBreak),
               LiteralScalars.Body(value, Pen(0, true, true), true, l), l.unicode);
      case Folded =>
        HeaderEmitted(GREATER, p, value, bestIndent, l.lineBreak, l.unicode);
        FoldedEmitted(value, FoldedScalars.START, l);
        Joined(Opening(GREATER, p) + LiteralScalars.Hints(value, bestIndent) + BreakOf(l.lineBreak),
               FoldedScalars.Body(value, FoldedScalars.START, l), l.unicode);
      case DoubleQuoted =>
        OpeningEmitted(QUOTE, p, l.unicode);
        QuotedEmitted(value, true, AfterOpening(p), false, l);
        Joined(Opening(QUOTE, p), DQ.Body(value, true, AfterOpening(p), false, l), l.unicode);
    }
  }

  // ---- Anchors and tags ----

  lemma AlphaIsAscii(c: nat)
    requires IsAlpha(c)
    ensures 0x20 <= c <= 0x7E
  {
  }

  lemma AnchorEmitted(anchor: Option<string>, sign: nat, p: Pen, unicode: bool)
    requires (anchor.Some? ==> IsAnchor(anchor.value)) && 0x20 <= sign <= 0x7E
    ensures AllEmitted(AnchorText(anchor, sign, p), unicode)
  {
    if anchor.Some? {
      var t := AnchorText(anchor, sign, p);
      forall i | 0 <= i < |anchor.value| ensures 0x20 <= TextOf(anchor.value)[i] <= 0x7E {
        AlphaIsAscii(anchor.value[i] as nat);
      }
      hide IsAlpha;
      AsciiEmitted(t, unicode);
    }
  }

  lemma {:induction false} PercentEmitted(bytes: Encodings.Bytes, unicode: bool)
    ensures AllEmitted(Tags.PercentTexts(bytes), unicode)
    decreases |bytes|
  {
    if bytes != [] {
      AsciiEmitted(Tags.PercentText(bytes[0]), unicode);
      hide IsEmitted, Tags.PercentText;
      PercentEmitted(bytes[1..], unicode);
      Joined(Tags.PercentText(bytes[0]), Tags.PercentTexts(bytes[1..]), unicode);
    }
  }

  lemma TagPieceEmitted(c: nat, unicode: bool)
    requires c <= 0x10FFFF
    ensures AllEmitted(Tags.PieceText(c), unicode)
  {
    if Tags.IsWrittenAsIs(c) {
      AsciiEmitted([c], unicode);
    } else {
      PercentEmitted(Utf8(c), unicode);
    }
  }

  lemma {:induction false} ContentEmitted(t: Text, unicode: bool)
    requires Encodings.InRange(t)
    ensures AllEmitted(Tags.ContentText(t), unicode)
    decreases |t|
  {
    if t != [] {
      hide IsEmitted, Tags.PieceText;
      TagPieceEmitted(t[0], unicode);
      ContentEmitted(t[1..], unicode);
      Joined(Tags.PieceText(t[0]), Tags.ContentText(t[1..]), unicode);
    }
  }

  lemma HandleEmitted(handle: string, unicode: bool)
    requires Tags.IsHandle(handle)
    ensures AllEmitted(TextOf(handle), unicode)
  {
    forall i | 0 <= i < |handle| ensures 0x20 <= TextOf(handle)[i] <= 0x7E {
      if 0 < i < |handle| - 1 {
        AlphaIsAscii(handle[i] as nat);
      }
    }
    AsciiEmitted(TextOf(handle), unicode);
  }

  lemma TagEmitted(g: Tags.TagData, p: Pen, unicode: bool)
    requires Tags.HasValidHandle(g)
    ensures AllEmitted(Tags.TagText(g, p), unicode)
  {
    hide AllEmitted, Tags.TagBody, Tags.HasValidHandle;
    if g != Tags.NO_TAG {
      SpacerEmitted(p, unicode);
      TagBodyEmitted(g, unicode);
      Joined(Tags.Spacer(p), Tags.TagBody(g), unicode);
    } else {
      AsciiEmitted([], unicode);
    }
  }

  lemma SpacerEmitted(p: Pen, unicode: bool)
    ensures AllEmitted(Tags.Spacer(p), unicode)
  {
  }

  lemma TagBodyEmitted(g: Tags.TagData, unicode: bool)
    requires Tags.HasValidHandle(g)
    ensures AllEmitted(Tags.TagBody(g), unicode)
  {
    hide AllEmitted, Tags.ContentText, Tags.IsHandle;
    AsciiEmitted([], unicode);
    AsciiEmitted([Tags.BANG, Tags.LESS], unicode);
    AsciiEmitted([GREATER], unicode);
    match g {
      case TagData(Some(handle), None) => HandleEmitted(handle, unicode);
      case TagData(Some(handle), Some(suffix)) =>
        HandleEmitted(handle, unicode);
        ContentEmitted(TextOf(suffix), unicode);
        Joined(TextOf(handle), Tags.ContentText(TextOf(suffix)), unicode);
      case TagData(None, Some(suffix)) =>
        ContentEmitted(TextOf(suffix), unicode);
        Joined([Tags.BANG, Tags.LESS], Tags.ContentText(TextOf(suffix)), unicode);
        Joined([Tags.BANG, Tags.LESS] + Tags.ContentText(TextOf(suffix)), [GREATER], unicode);
      case TagData(None, None) =>
    }
  }

  // ---- Nodes and pages ----

  lemma NodeEmitted(e: Event, c: Config, o: Options, p: Pen)
    requires BeginsNode(e) && IsProper(e, o.canonical) && Tags.ValidHandles(c.tagDirectives)
    ensures AllEmitted(NodeText(e, c, o, p), o.unicode)
  {
    hide ScalarText, AnchorText, Tags.TagText, ChoiceOf, IsEmitted, IsAnchor, IsDirective, Tags.ValidHandles, Tags.HasValidHandle;
    var sign := if e.Alias? then ASTERISK else AMPERSAND;
    AnchorEmitted(e.anchor, sign, p, o.unicode);
    var anchor := AnchorText(e.anchor, sign, p);
    TagIsValid(e, c, o);
    TagEmitted(TagOf(e, c, o), Tags.AfterProperty(p, anchor), o.unicode);
    Joined(anchor, Tags.TagText(TagOf(e, c, o), Tags.AfterProperty(p, anchor)), o.unicode);
    var properties := PropertiesText(e, c, o, p);
    ContentIsEmitted(e, c, o, Tags.AfterProperty(p, properties));
    Joined(properties, ContentOf(e, c, o, Tags.AfterProperty(p, properties)), o.unicode);
  }

  lemma ContentIsEmitted(e: Event, c: Config, o: Options, p: Pen)
    requires BeginsNode(e) && IsProper(e, o.canonical)
    ensures AllEmitted(ContentOf(e, c, o, p), o.unicode)
  {
    hide ScalarText, ChoiceOf, IsAnchor, IsDirective;
    if e.Scalar? {
      ChoiceFits(e, c, o);
      ChoiceIsWritten(e, c, o);
      var l := SettingsAt(Deeper(c.indent, BestIndent(o), true, false), o, !c.simpleKeyContext);
      ScalarEmitted(ChoiceOf(e, c, o).style, TextOf(e.value), p, l, c.flowLevel > 0, BestIndent(o));
    } else {
      AsciiEmitted([SPACE], o.unicode);
    }
  }

  /** All styles but the double-quoted one take only values that are written as they are. */
  lemma ChoiceIsWritten(e: Event, c: Config, o: Options)
    requires e.Scalar? && ChoiceOf(e, c, o).Chosen?
    ensures ChoiceOf(e, c, o).style.DoubleQuoted? || PlainlyWritten(TextOf(e.value), o.unicode)
  {
    hide SelectStyle, IsAnalysis, IsPlainlyWritten, PlainScalars.StartsPlain, PlainScalars.IsSafe;
    var s := TextOf(e.value);
    ChoiceIsAllowed(e.scalarStyle, AnalysisOf(s, o.unicode), s, o.unicode, Site(c.flowLevel > 0, c.simpleKeyContext, o.canonical),
      Tagging(!WritesTag(e, o.canonical), e.plainImplicit, e.quotedImplicit));
  }

  predicate IsClean(g: Page, o: Options) {
    AllEmitted(g.text, o.unicode)
  }

  lemma MarkedClean(g: Page, indicator: string, needWhitespace: bool, isWhitespace: bool, isIndention: bool, o: Options)
    requires IsClean(g, o) && forall i | 0 <= i < |indicator| :: '!' <= indicator[i] <= '~'
    ensures IsClean(Marked(g, indicator, needWhitespace, isWhitespace, isIndention), o)
  {
    hide ColumnOf;
    AsciiEmitted([SPACE], o.unicode);
    AsciiEmitted(TextOf(indicator), o.unicode);
    hide IsEmitted;
  }

  lemma LinedClean(g: Page, indent: int, o: Options)
    requires IsClean(g, o)
    ensures IsClean(Lined(g, indent, o), o)
  {
    hide ColumnOf, IndentText, IsEmitted;
    IndentEmitted(SettingsAt(indent, o, true), PenOf(g), o.unicode);
    Joined(g.text, IndentText(SettingsAt(indent, o, true), PenOf(g)), o.unicode);
  }

  lemma WordedClean(g: Page, t: Text, o: Options)
    requires IsClean(g, o) && AllEmitted(t, o.unicode)
    ensures IsClean(Worded(g, t), o)
  {
    hide ColumnOf;
    AsciiEmitted([SPACE], o.unicode);
    hide IsEmitted;
  }

  lemma OpenedClean(g: Page, k: State, o: Options)
    requires IsClean(g, o)
    ensures IsClean(OpenedPage(g, k), o)
  {
    hide Marked, IsClean;
    MarkedClean(g, "[", true, true, false, o);
    MarkedClean(g, "{", true, true, false, o);
  }

  lemma SeparatedClean(g: Page, k: State, indent: int, o: Options)
    requires IsClean(g, o)
    ensures IsClean(SeparatedPage(g, k, indent, o), o)
  {
    hide Marked, Lined, IsClean;
    MarkedClean(g, ",", false, false, false, o);
    LinedClean(g, indent, o);
    LinedClean(Marked(g, ",", false, false, false), indent, o);
  }

  lemma LeadClean(g: Page, k: State, indent: int, simpleKey: bool, o: Options)
    requires IsClean(g, o)
    ensures IsClean(LeadPage(g, k, indent, simpleKey, o), o)
  {
    hide Marked, Lined, IsClean, SeparatedPage, OpenedPage;
    OpenedClean(g, k, o);
    var s := SeparatedPage(OpenedPage(g, k), k, indent, o);
    SeparatedClean(OpenedPage(g, k), k, indent, o);
    MarkedClean(s, "?", true, false, false, o);
    MarkedClean(g, ":", false, false, false, o);
    LinedClean(g, indent, o);
    var line := Lined(g, indent, o);
    MarkedClean(g, ":", true, false, false, o);
    MarkedClean(line, ":", true, false, false, o);
    MarkedClean(line, ":", true, false, true, o);
    MarkedClean(line, "-", true, false, true, o);
    MarkedClean(line, "?", true, false, true, o);
  }

  lemma CloseClean(g: Page, k: State, outer: int, o: Options)
    requires IsClean(g, o)
    ensures IsClean(ClosePage(g, k, outer, o), o)
  {
    hide Marked, Lined, IsClean, OpenedPage;
    OpenedClean(g, k, o);
    var begun := OpenedPage(g, k);
    MarkedClean(begun, ",", false, false, false, o);
    LinedClean(Marked(begun, ",", false, false, false), outer, o);
    var last := if o.canonical && !IsFirst(k) then Lined(Marked(begun, ",", false, false, false), outer, o) else begun;
    MarkedClean(last, "]", false, false, false, o);
    MarkedClean(last, "}", false, false, false, o);
  }

  lemma DirectiveClean(g: Page, d: TagDirective, indent: int, o: Options)
    requires IsClean(g, o) && IsDirective(d)
    ensures IsClean(DirectivePage(g, d, indent, o), o)
  {
    hide Marked, Lined, Worded, IsClean, Tags.ContentText, Tags.IsHandle;
    MarkedClean(g, "%TAG", true, false, false, o);
    HandleEmitted(d.handle, o.unicode);
    ContentEmitted(TextOf(d.prefix), o.unicode);
    var a := Marked(g, "%TAG", true, false, false);
    WordedClean(a, TextOf(d.handle), o);
    var b := Worded(a, TextOf(d.handle));
    WordedClean(b, Tags.ContentText(TextOf(d.prefix)), o);
    LinedClean(Worded(b, Tags.ContentText(TextOf(d.prefix))), indent, o);
  }

  lemma {:induction false} DirectivesClean(g: Page, ds: seq<TagDirective>, indent: int, o: Options)
    requires IsClean(g, o) && forall i | 0 <= i < |ds| :: IsDirective(ds[i])
    ensures IsClean(DirectivesPage(g, ds, indent, o), o)
    decreases |ds|
  {
    hide DirectivePage, IsClean, IsDirective;
    if ds != [] {
      DirectiveClean(g, ds[0], indent, o);
      DirectivesClean(DirectivePage(g, ds[0], indent, o), ds[1..], indent, o);
    }
  }

  lemma VersionClean(g: Page, version: Option<Version>, indent: int, o: Options)
    requires IsClean(g, o)
    ensures IsClean(VersionPage(g, version, indent, o), o)
  {
    hide Marked, Lined, IsClean;
    MarkedClean(g, "%YAML", true, false, false, o);
    var a := Marked(g, "%YAML", true, false, false);
    MarkedClean(a, "1.1", true, false, false, o);
    MarkedClean(a, "1.2", true, false, false, o);
    LinedClean(Marked(a, "1.1", true, false, false), indent, o);
    LinedClean(Marked(a, "1.2", true, false, false), indent, o);
  }

  lemma SameText(g: Page, h: Page, o: Options)
    requires IsClean(g, o) && h.text == g.text
    ensures IsClean(h, o)
  {
  }

  lemma DotsClean(g: Page, indent: int, o: Options)
    requires IsClean(g, o)
    ensures IsClean(DotsPage(g, indent, o), o) && IsClean(Lined(Marked(g, "...", true, false, false), indent, o), o)
  {
    hide Marked, Lined, IsClean;
    var a := Marked(g, "...", true, false, false);
    MarkedClean(g, "...", true, false, false, o);
    SameText(a, a.(openEnded := 0), o);
    LinedClean(a.(openEnded := 0), indent, o);
    LinedClean(a, indent, o);
  }

  lemma StartClean(g: Page, e: Event, first: bool, indent: int, o: Options)
    requires IsClean(g, o) && e.DocumentStart? && IsProper(e, o.canonical)
    ensures IsClean(StartPage(g, e, first, indent, o), o)
  {
    hide Marked, Lined, IsClean, DirectivesPage, VersionPage, IsDirective;
    DotsClean(g, indent, o);
    var hasDirectives := e.version.Some? || e.tagDirectives != [];
    var closed := if hasDirectives && g.openEnded != 0 then Lined(Marked(g, "...", true, false, false), indent, o) else g;
    SameText(closed, closed.(openEnded := 0), o);
    VersionClean(closed.(openEnded := 0), e.version, indent, o);
    var versioned := VersionPage(closed.(openEnded := 0), e.version, indent, o);
    DirectivesClean(versioned, e.tagDirectives, indent, o);
    var headed := DirectivesPage(versioned, e.tagDirectives, indent, o);
    LinedClean(headed, indent, o);
    MarkedClean(Lined(headed, indent, o), "---", true, false, false, o);
    LinedClean(Marked(Lined(headed, indent, o), "---", true, false, false), indent, o);
  }

  lemma EndClean(g: Page, implicit: bool, indent: int, o: Options)
    requires IsClean(g, o)
    ensures IsClean(EndPage(g, implicit, indent, o), o) && IsClean(StreamEndPage(g, indent, o), o)
  {
    hide Lined, IsClean, DotsPage;
    LinedClean(g, indent, o);
    DotsClean(g, indent, o);
    DotsClean(Lined(g, indent, o), indent, o);
    SameText(Lined(g, indent, o), Lined(g, indent, o).(openEnded := 1), o);
  }

  lemma StepClean(a: Desk, rest: seq<Event>, o: Options, b: Desk)
    requires Fits(a.config) && rest != [] && StepsTo(a, rest, o, b) && IsClean(a.page, o)
    ensures IsClean(b.page, o)
  {
    hide StepsTo, Fits, IsClean;
    var e := rest[0];
    if BeginsNode(e) {
      NodeClean(a, rest, o, b);
    } else if e.SequenceEnd? || e.MappingEnd? {
      EndSteps(a, rest, o, b);
      var d := Started(a.config, o, a.page.indention);
      CloseClean(a.page, a.config.state, d.indents[|d.indents| - 1], o);
    } else {
      OutsideClean(a, rest, o, b);
    }
  }

  lemma NodeClean(a: Desk, rest: seq<Event>, o: Options, b: Desk)
    requires Fits(a.config) && rest != [] && StepsTo(a, rest, o, b) && BeginsNode(rest[0]) && IsClean(a.page, o)
    ensures IsClean(b.page, o)
  {
    hide StepsTo, Fits, LeadPage, NodePage, NodeText, IsProper, NodeConfig, IsEmitted;
    NodeSteps(a, rest, o, b);
    var x, g := NodeConfig(a.config, rest, o, a.page.indention), NodeStart(a.config, rest, o, a.page);
    NodeConfigIs(a.config, rest, o, a.page.indention);
    if IsInside(a.config.state) {
      var d := Started(a.config, o, a.page.indention);
      LeadClean(a.page, a.config.state, d.indent, TakesSimpleKey(d.state, rest, o.canonical, d.tagDirectives), o);
    }
    NodeGrows(g, rest[0], x, o);
    NodeEmitted(rest[0], x, o, PenOf(g));
    Joined(g.text, NodeText(rest[0], x, o, PenOf(g)), o.unicode);
  }

  lemma OutsideClean(a: Desk, rest: seq<Event>, o: Options, b: Desk)
    requires Fits(a.config) && rest != [] && StepsTo(a, rest, o, b) && IsClean(a.page, o)
    requires !BeginsNode(rest[0]) && !rest[0].SequenceEnd? && !rest[0].MappingEnd?
    ensures IsClean(b.page, o)
  {
    hide Fits, IsProper, Next, IsClean, StartPage, StreamEndPage, EndPage, InsidePage;
    NextNests(a.config, rest, o, a.page.indention);
    OutsideNode(a.config, rest[0]);
    var g, c, e := a.page, a.config, rest[0];
    EndClean(g, e.DocumentEnd? && e.implicit, c.indent, o);
    SameText(g, g.(whitespace := true, indention := true, openEnded := 0), o);
    if e.DocumentStart? {
      StartClean(g, e, c.state.FirstDocumentStartState?, c.indent, o);
    }
  }

  lemma {:induction false} RunClean(history: seq<Desk>, events: seq<Event>, o: Options, n: nat)
    requires IsHistory(history, events, o) && n < |history|
    ensures IsClean(history[n].page, o)
    decreases n
  {
    hide StepsTo, Suffices, Fits, IsEmitted;
    if n > 0 {
      RunClean(history, events, o, n - 1);
      HistoryNests(history, events, o, n - 1);
      StepOf(history, events, o, n - 1);
      StepClean(history[n - 1], events[n - 1..], o, history[n]);
    }
  }

  /** Emitter, writer and reader together: every character of a run is printable, below 0x10000 and
      no byte order mark, in ASCII if the emitter is told so, and the reader gets the text of the
      run back from its bytes in every encoding; nothing that UTF-16 would lose is ever written. */
  lemma EmittedTextComesBack(history: seq<Desk>, events: seq<Event>, o: Options, n: nat, e: Encodings.Encoding)
    requires IsHistory(history, events, o) && n < |history|
    ensures
      var text := history[n].page.text;
      && (forall i | 0 <= i < |text| :: text[i] < 0x10000 && text[i] != BOM && (o.unicode || text[i] <= 0x7F))
      && Encodings.AllAllowed(text)
      && Encodings.DecodeInput(Encodings.Output(text, e)) == Encodings.Decoded(text, Encodings.AtEnd)
  {
    hide IsHistory, Encodings.DecodeInput, Encodings.Output, Encodings.ReadsBack;
    RunClean(history, events, o, n);
    var text := history[n].page.text;
    forall i | 0 <= i < |text|
      ensures text[i] < 0x10000 && text[i] != BOM && Encodings.IsAllowed(text[i]) && Encodings.Survives(text[i], e)
    {
      EmittedSurvives(text[i], o.unicode, e);
    }
    Encodings.OutputComesBack(text, e);
  }

  lemma EmittedSurvives(c: nat, unicode: bool, e: Encodings.Encoding)
    requires IsEmitted(c, unicode)
    ensures c < 0x10000 && c != BOM && (unicode || c <= 0x7F) && Encodings.IsAllowed(c) && Encodings.Survives(c, e)
  {
  }
}
