/** What the emitter writes for one node, and that a node that may be a simple key stays on one line
    and is short enough for the scanner to take it for one. */
module EmittedNodes {
  import opened Events
  import opened Nesting
  import opened Characters
  import opened Layout
  import opened Tags
  import opened EmitterStates
  import opened ScalarStyles
  import Encodings
  import DoubleQuotedScalars = DoubleQuoted
  import SingleQuotedScalars = SingleQuoted
  import PlainScalars
  import LiteralScalars
  import SpacedScalars

  function BestWidth(o: Options): nat {
    if o.bestWidth < 0 then 0x7FFF_FFFF
    else if o.bestWidth <= 2 * BestIndent(o) then 80
    else o.bestWidth
  }

  function SettingsAt(indent: int, o: Options, allowBreaks: bool): Settings {
    Settings(if indent < 0 then 0 else indent, BestWidth(o), o.lineBreak, o.unicode, allowBreaks)
  }

  // ---- Anchors ----

  const AMPERSAND: nat := '&' as nat
  const ASTERISK: nat := '*' as nat

  function AnchorText(anchor: Option<string>, sign: nat, p: Pen): Text {
    if anchor.None? then [] else Spacer(p) + [sign] + TextOf(anchor.value)
  }

  lemma AnchorHasNoBreak(a: string)
    requires IsAnchor(a)
    ensures forall i | 0 <= i < |TextOf(a)| :: !IsBreak(TextOf(a)[i])
  {
    forall i | 0 <= i < |TextOf(a)| ensures !IsBreak(TextOf(a)[i]) {
      assert IsAlpha(a[i] as nat);
    }
  }

  lemma SignsAreNoBreaks()
    ensures !IsBreak(AMPERSAND) && !IsBreak(ASTERISK)
  {
  }

  /** Writes an anchor or an alias. */
  method ProcessAnchor(w: Writer, anchor: Option<string>, alias: bool)
    requires w.Valid() && (anchor.Some? ==> IsAnchor(anchor.value))
    modifies w
    ensures w.Valid()
    ensures
      var t := AnchorText(anchor, if alias then ASTERISK else AMPERSAND, old(w.CurrentPen()));
      w.text == old(w.text) + t && w.CurrentPen() == AfterProperty(old(w.CurrentPen()), t)
  {
    hide IsAnchor, ColumnOf, TextOf, IsBreak;
    if anchor.None? {
      assert w.text + [] == w.text;
      return;
    }
    AnchorHasNoBreak(anchor.value);
    SignsAreNoBreaks();
    var sign := if alias then ASTERISK else AMPERSAND;
    ghost var before, space := w.text, Spacer(w.CurrentPen());
    w.WriteIndicator([sign], true, false, false);
    WriteName(w, TextOf(anchor.value), false);
    assert before + space + [sign] + [] + TextOf(anchor.value) == before + (space + [sign] + TextOf(anchor.value));
  }

  // ---- Nodes ----

  /** The analysis of a value. */
  ghost function AnalysisOf(s: Text, unicode: bool): (a: Analysis)
    ensures IsAnalysis(a, s, unicode)
  {
    Analysis(exists i | 0 <= i < |s| :: IsBreak(s[i]), PlainScalars.PlainAllowed(s, true, unicode),
      s == [] || PlainScalars.PlainAllowed(s, false, unicode), SingleQuotedScalars.SingleQuotable(s, unicode),
      LiteralScalars.LiteralAllowed(s, unicode))
  }

  ghost function ChoiceOf(e: Event, c: Config, o: Options): Choice
    requires e.Scalar?
  {
    SelectStyle(e.scalarStyle, AnalysisOf(TextOf(e.value), o.unicode), e.value == "",
      Site(c.flowLevel > 0, c.simpleKeyContext, o.canonical),
      Tagging(!WritesTag(e, o.canonical), e.plainImplicit, e.quotedImplicit))
  }

  /** The tag of a node as it is written: a scalar may get the tag `!`. */
  ghost function TagOf(e: Event, c: Config, o: Options): TagData {
    if e.Scalar? && ChoiceOf(e, c, o).Chosen? && ChoiceOf(e, c, o).addsHandle then TagData(Some("!"), None)
    else TagDataOf(e, o.canonical, c.tagDirectives)
  }

  ghost function PropertiesText(e: Event, c: Config, o: Options, p: Pen): Text
    requires BeginsNode(e)
  {
    var anchor := AnchorText(e.anchor, if e.Alias? then ASTERISK else AMPERSAND, p);
    anchor + TagText(TagOf(e, c, o), AfterProperty(p, anchor))
  }

  ghost function ContentOf(e: Event, c: Config, o: Options, p: Pen): Text {
    if e.Scalar? && ChoiceOf(e, c, o).Chosen? then
      ScalarText(ChoiceOf(e, c, o).style, TextOf(e.value), p,
        SettingsAt(Deeper(c.indent, BestIndent(o), true, false), o, !c.simpleKeyContext), c.flowLevel > 0, BestIndent(o))
    else if e.Alias? && c.simpleKeyContext then [SPACE]
    else []
  }

  /** What is written for the event that begins a node. */
  ghost function NodeText(e: Event, c: Config, o: Options, p: Pen): Text
    requires BeginsNode(e)
  {
    var properties := PropertiesText(e, c, o, p);
    properties + ContentOf(e, c, o, AfterProperty(p, properties))
  }

  lemma AnalysisIs(a: Analysis, s: Text, unicode: bool)
    requires IsAnalysis(a, s, unicode)
    ensures a == AnalysisOf(s, unicode)
  {
  }

  lemma {:induction false} ShortenHasSuffix(tag: string, directives: seq<TagDirective>)
    requires ValidHandles(directives)
    ensures Shorten(tag, directives).suffix.Some? && HasValidHandle(Shorten(tag, directives))
    decreases |directives|
  {
    hide IsHandle;
    if directives != [] {
      ShortenHasSuffix(tag, directives[1..]);
    }
  }

  /** A node has no tag to write exactly if its event does not ask for one. */
  lemma TagDataIs(e: Event, canonical: bool, directives: seq<TagDirective>)
    requires ValidHandles(directives)
    ensures TagDataOf(e, canonical, directives) == NO_TAG <==> !WritesTag(e, canonical)
    ensures HasValidHandle(TagDataOf(e, canonical, directives))
  {
    if WritesTag(e, canonical) {
      ShortenHasSuffix(e.tag.value, directives);
    }
  }

  lemma BangIsHandle()
    ensures HasValidHandle(TagData(Some("!"), None)) && HasValidHandle(NO_TAG)
  {
  }

  /** Writes the anchor and the tag of a node. */
  method ProcessProperties(w: Writer, anchor: Option<string>, alias: bool, g: TagData)
    requires w.Valid() && (anchor.Some? ==> IsAnchor(anchor.value)) && HasValidHandle(g)
    modifies w
    ensures w.Valid()
    ensures
      var a := AnchorText(anchor, if alias then ASTERISK else AMPERSAND, old(w.CurrentPen()));
      var t := a + TagText(g, AfterProperty(old(w.CurrentPen()), a));
      w.text == old(w.text) + t && w.CurrentPen() == AfterProperty(old(w.CurrentPen()), t)
  {
    hide IsAnchor, HasValidHandle, TagText, ColumnOf, AnchorText;
    ghost var a := AnchorText(anchor, if alias then ASTERISK else AMPERSAND, w.CurrentPen());
    ghost var g' := TagText(g, AfterProperty(w.CurrentPen(), a));
    Assoc(w.text, a, g');
    ProcessAnchor(w, anchor, alias);
    Tags.ProcessTag(w, g);
  }
}
