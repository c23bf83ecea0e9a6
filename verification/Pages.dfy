/** What the emitter writes for each event, given the text before it. */
module Pages {
  import opened Events
  import opened Nesting
  import opened Characters
  import opened Layout
  import opened EmitterStates
  import opened EmittedNodes
  import opened ScalarStyles
  import LiteralScalars
  import Tags

  /** The text so far, whether it ends with white space or stands at the indentation, and whether
      the document before was left open. */
  datatype Page = Page(text: Text, whitespace: bool, indention: bool, openEnded: nat)

  const BLANK_PAGE := Page([], true, true, 0)

  function PenOf(g: Page): Pen {
    Pen(ColumnOf(g.text), g.whitespace, g.indention)
  }

  function Marked(g: Page, indicator: string, needWhitespace: bool, isWhitespace: bool, isIndention: bool): Page {
    g.(text := g.text + (if needWhitespace then Tags.Spacer(PenOf(g)) else []) + TextOf(indicator),
       whitespace := isWhitespace, indention := g.indention && isIndention)
  }

  /** A new line, if need be, and the indentation. */
  function Lined(g: Page, indent: int, o: Options): Page {
    g.(text := g.text + IndentText(SettingsAt(indent, o, true), PenOf(g)), whitespace := true, indention := true)
  }

  function Worded(g: Page, t: Text): Page {
    g.(text := g.text + Tags.Spacer(PenOf(g)) + t, whitespace := false, indention := false)
  }

  // ---- Nodes ----

  /** The event that begins a node. */
  ghost function NodePage(g: Page, e: Event, c: Config, o: Options): Page
    requires BeginsNode(e)
  {
    var t, bare := NodeText(e, c, o, PenOf(g)), PropertiesText(e, c, o, PenOf(g)) == [];
    if e.Scalar? && ChoiceOf(e, c, o).Chosen? then
      var style, value := ChoiceOf(e, c, o).style, TextOf(e.value);
      Page(g.text + t, IsBlockStyle(style), IsBlockStyle(style) && LiteralScalars.LeavesLine(value), OpenEnd(style, value, g.openEnded))
    else
      g.(text := g.text + t, whitespace := g.whitespace && bare, indention := g.indention && bare)
  }

  /** Whether the next child of a mapping is written as a simple key. */
  predicate TakesSimpleKey(k: State, rest: seq<Event>, canonical: bool, directives: seq<TagDirective>) {
    IsKeyState(k) && !(k.FlowMappingKeyState? && canonical) && IsSimpleKey(rest, canonical, directives)
  }

  predicate IsSequenceState(k: State) {
    k.FlowSequenceFirstItemState? || k.FlowSequenceItemState? || k.BlockSequenceFirstItemState? || k.BlockSequenceItemState?
  }

  // ---- Collections ----

  function Wrapped(g: Page, indent: int, o: Options): Page {
    if o.canonical || ColumnOf(g.text) > BestWidth(o) then Lined(g, indent, o) else g
  }

  /** A flow collection is opened by its first event. */
  function OpenedPage(g: Page, k: State): Page {
    if k.FlowSequenceFirstItemState? then Marked(g, "[", true, true, false)
    else if k.FlowMappingFirstKeyState? then Marked(g, "{", true, true, false)
    else g
  }

  function SeparatedPage(g: Page, k: State, indent: int, o: Options): Page {
    Wrapped(if IsFirst(k) then g else Marked(g, ",", false, false, false), indent, o)
  }

  /** What stands before a child of the collection that `k` is in, whose indentation is `indent`. */
  function LeadPage(g: Page, k: State, indent: int, simpleKey: bool, o: Options): Page {
    match k
    case FlowSequenceFirstItemState | FlowSequenceItemState => SeparatedPage(OpenedPage(g, k), k, indent, o)
    case FlowMappingFirstKeyState | FlowMappingKeyState =>
      var s := SeparatedPage(OpenedPage(g, k), k, indent, o);
      if simpleKey then s else Marked(s, "?", true, false, false)
    case FlowMappingSimpleValueState => Marked(g, ":", false, false, false)
    case FlowMappingValueState => Marked(Wrapped(g, indent, o), ":", true, false, false)
    case BlockSequenceFirstItemState | BlockSequenceItemState => Marked(Lined(g, indent, o), "-", true, false, true)
    case BlockMappingFirstKeyState | BlockMappingKeyState =>
      var s := Lined(g, indent, o);
      if simpleKey then s else Marked(s, "?", true, false, true)
    case BlockMappingSimpleValueState => Marked(g, ":", false, false, false)
    case BlockMappingValueState => Marked(Lined(g, indent, o), ":", true, false, true)
    case _ => g
  }

  /** A collection ends; `outer` is the indentation around it. */
  function ClosePage(g: Page, k: State, outer: int, o: Options): Page {
    if !IsFlow(k) then g
    else
      var begun := OpenedPage(g, k);
      var last :=
        if o.canonical && !IsFirst(k) then Lined(Marked(begun, ",", false, false, false), outer, o) else begun;
      Marked(last, if IsSequenceState(k) then "]" else "}", false, false, false)
  }

  // ---- Documents ----

  function VersionPage(g: Page, version: Option<Version>, indent: int, o: Options): Page {
    if version.None? then g
    else
      Lined(Marked(Marked(g, "%YAML", true, false, false), if version.value.minor == 1 then "1.1" else "1.2", true, false, false),
            indent, o)
  }

  function DirectivePage(g: Page, d: TagDirective, indent: int, o: Options): Page {
    Lined(Worded(Worded(Marked(g, "%TAG", true, false, false), TextOf(d.handle)), Tags.ContentText(TextOf(d.prefix))), indent, o)
  }

  function DirectivesPage(g: Page, ds: seq<TagDirective>, indent: int, o: Options): Page
    decreases |ds|
  {
    if ds == [] then g else DirectivesPage(DirectivePage(g, ds[0], indent, o), ds[1..], indent, o)
  }

  function DotsPage(g: Page, indent: int, o: Options): Page {
    Lined(Marked(g, "...", true, false, false).(openEnded := 0), indent, o)
  }

  function StartPage(g: Page, e: Event, first: bool, indent: int, o: Options): Page
    requires e.DocumentStart?
  {
    var hasDirectives := e.version.Some? || e.tagDirectives != [];
    var closed := if hasDirectives && g.openEnded != 0 then Lined(Marked(g, "...", true, false, false), indent, o) else g;
    var headed := DirectivesPage(VersionPage(closed.(openEnded := 0), e.version, indent, o), e.tagDirectives, indent, o);
    if e.implicit && first && !o.canonical && !hasDirectives then headed
    else
      var started := Marked(Lined(headed, indent, o), "---", true, false, false);
      if o.canonical then Lined(started, indent, o) else started
  }

  function EndPage(g: Page, implicit: bool, indent: int, o: Options): Page {
    var ended := Lined(g, indent, o);
    if !implicit then DotsPage(ended, indent, o)
    else if ended.openEnded == 0 then ended.(openEnded := 1)
    else ended
  }

  function StreamEndPage(g: Page, indent: int, o: Options): Page {
    if g.openEnded == 2 then DotsPage(g, indent, o) else g
  }

  // ---- Steps ----

  /** The configuration in which a child of an entered collection is written. */
  function ChildConfig(d: Config, simpleKey: bool): Config {
    Expecting(d, !TopOf(d.state).SequenceFrame?, simpleKey, Following(d.state, simpleKey))
  }

  ghost function InsidePage(c: Config, rest: seq<Event>, o: Options, g: Page): Page
    requires rest != [] && IsInside(c.state)
  {
    var d := Started(c, o, g.indention);
    if EndsCollection(d.state, rest[0]) then (if d.indents == [] then g else ClosePage(g, c.state, d.indents[|d.indents| - 1], o))
    else if !BeginsNode(rest[0]) then g
    else
      var simpleKey := TakesSimpleKey(d.state, rest, o.canonical, d.tagDirectives);
      NodePage(LeadPage(g, c.state, d.indent, simpleKey, o), rest[0], ChildConfig(d, simpleKey), o)
  }

  /** The page after the first of the remaining events, if it is accepted. */
  ghost function StepPage(c: Config, rest: seq<Event>, o: Options, g: Page): Page
    requires rest != []
  {
    var e := rest[0];
    if IsInside(c.state) then InsidePage(c, rest, o, g)
    else if c.state.StreamStartState? then g.(whitespace := true, indention := true, openEnded := 0)
    else if c.state.FirstDocumentStartState? || c.state.DocumentStartState? then
      if e.DocumentStart? then StartPage(g, e, c.state.FirstDocumentStartState?, c.indent, o)
      else StreamEndPage(g, c.indent, o)
    else if c.state.DocumentContentState? then
      if BeginsNode(e) then NodePage(g, e, Expecting(c, false, false, DocumentEndState), o) else g
    else if c.state.DocumentEndState? && e.DocumentEnd? then EndPage(g, e.implicit, c.indent, o)
    else g
  }

  /** Only some of the configuration matters to a node. */
  lemma NodePageSame(g: Page, e: Event, c: Config, d: Config, o: Options)
    requires BeginsNode(e) && d.indent == c.indent && d.flowLevel == c.flowLevel
    requires d.simpleKeyContext == c.simpleKeyContext && d.tagDirectives == c.tagDirectives
    ensures NodePage(g, e, c, o) == NodePage(g, e, d, o)
  {
    hide AnchorText, ScalarText, Tags.TagText, Tags.Shorten, LiteralScalars.LeavesLine, OpenEnd, WritesTag;
  }

  // ---- What the pages are good for ----

  /** In a block collection each item, each complex key and its value are marked at the column of
      the collection, and each simple key begins there. */
  lemma BlockLeadAligned(g: Page, k: State, indent: int, simpleKey: bool, o: Options)
    requires IsBlock(k) && !k.BlockMappingSimpleValueState? && indent >= 0
    ensures
      var lead := LeadPage(g, k, indent, simpleKey, o);
      var line := Lined(g, indent, o);
      && ColumnOf(line.text) == indent
      && if simpleKey && IsKeyState(Entered(k)) then lead == line
         else lead.text == line.text + TextOf(if IsSequenceState(k) then "-" else if TopOf(k) == MappingFrame(false) then "?" else ":")
  {
    LinedColumn(g, indent, o);
    assert Lined(g, indent, o).text + [] == Lined(g, indent, o).text;
    hide ColumnOf, IndentText;
  }

  lemma LinedColumn(g: Page, indent: int, o: Options)
    requires indent >= 0
    ensures ColumnOf(Lined(g, indent, o).text) == indent
  {
    var l, p := SettingsAt(indent, o, true), PenOf(g);
    if BreaksBefore(l, p) {
      var b := g.text + BreakOf(l.lineBreak);
      assert IsBreak(b[|b| - 1]);
      SpacesColumn(b, indent);
      assert b + Spaces(indent) == Lined(g, indent, o).text;
    } else {
      SpacesColumn(g.text, indent - p.column);
    }
  }

  lemma {:induction false} SpacesColumn(t: Text, n: nat)
    ensures ColumnOf(t + Spaces(n)) == ColumnOf(t) + n
    decreases n
  {
    if n == 0 {
      assert t + Spaces(n) == t;
    } else {
      assert Spaces(n) == Spaces(n - 1) + [SPACE];
      assert t + Spaces(n) == t + Spaces(n - 1) + [SPACE];
      ColumnOfSnoc(t + Spaces(n - 1), SPACE);
      SpacesColumn(t, n - 1);
    }
  }
}
