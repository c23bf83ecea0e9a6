/** What the emitter writes behind a scalar in a run, and that every scalar of a run is read back
    from the text of the run. */
module Continuations {
  import opened Events
  import opened Nesting
  import opened Characters
  import opened Layout
  import opened EmitterStates
  import opened EmittedNodes
  import opened ScalarStyles
  import opened Pages
  import opened Emitter
  import opened FlowScanner
  import Tags
  import Parser
  import SimpleKeys
  import Tokens
  import TokenQueue
  import BlockScanner
  import PlainScalars
  import LiteralScalars
  import FoldedScalars
  import SpacedScalars
  import DoubleQuoted
  import SingleQuotedScalars = SingleQuoted
  import P = PlainScanner

  // ---- What the steps keep ----

  predicate IsSimpleValue(k: State) {
    k.FlowMappingSimpleValueState? || k.BlockMappingSimpleValueState?
  }

  /** Behind a simple key that is a collection comes its end; a block collection is not empty. */
  predicate Settled(c: Config, rest: seq<Event>) {
    && (forall k | 0 <= k < |c.states| && IsSimpleValue(c.states[k]) ::
          k == |c.states| - 1 && IsFirst(c.state) && IsFlow(c.state) && rest != [] && EndsCollection(Entered(c.state), rest[0]))
    && (IsFirst(c.state) && IsBlock(c.state) ==> rest == [] || !EndsCollection(Entered(c.state), rest[0]))
  }

  /** The configuration in which a node is written. */
  function NodeConfig(c: Config, rest: seq<Event>, o: Options, indention: bool): Config
    requires rest != []
  {
    if IsInside(c.state) then
      var d := Started(c, o, indention);
      ChildConfig(d, TakesSimpleKey(d.state, rest, o.canonical, d.tagDirectives))
    else Expecting(c, false, false, DocumentEndState)
  }

  /** The page on which it is written. */
  function NodeStart(c: Config, rest: seq<Event>, o: Options, g: Page): Page
    requires rest != []
  {
    if IsInside(c.state) then
      var d := Started(c, o, g.indention);
      LeadPage(g, c.state, d.indent, TakesSimpleKey(d.state, rest, o.canonical, d.tagDirectives), o)
    else g
  }

  /** A step with an event that begins a node. */
  lemma NodeSteps(a: Desk, rest: seq<Event>, o: Options, b: Desk)
    requires Fits(a.config) && rest != [] && BeginsNode(rest[0]) && StepsTo(a, rest, o, b)
    ensures IsInside(a.config.state) || a.config.state.DocumentContentState?
    ensures
      var x := NodeConfig(a.config, rest, o, a.page.indention);
      && x.states != [] && IsProper(rest[0], o.canonical)
      && NodeNext(x, rest, o.canonical) == Some(b.config)
      && b.page == NodePage(NodeStart(a.config, rest, o, a.page), rest[0], x, o)
  {
    hide Fits, IsProper, NodePage, LeadPage, NodeNext, IsSimpleKey, Started, TopOf, Following, EndsCollection;
    var c := a.config;
    NextNests(c, rest, o, a.page.indention);
    NodePlaces(c, rest[0]);
    if IsInside(c.state) {
      var d := Started(c, o, a.page.indention);
      var simpleKey := TakesSimpleKey(d.state, rest, o.canonical, d.tagDirectives);
      NoNodeEnds(d.state, rest[0]);
      StepsIntoNode(c, rest, o, a.page.indention, simpleKey, ChildConfig(d, simpleKey));
      StepInPage(c, rest, o, a.page);
    } else {
      RootSteps(c, rest, o, a.page);
    }
  }

  lemma NodePlaces(c: Config, e: Event)
    requires BeginsNode(e) && Admits(NestOf(c), e) && Fits(c)
    ensures IsInside(c.state) || c.state.DocumentContentState?
  {
    hide LevelsFit, NoBlockInFlow, EnteredIn, FlowsIn, DirectivesFit;
  }

  lemma NoNodeEnds(k: State, e: Event)
    requires BeginsNode(e)
    ensures !EndsCollection(k, e)
  {
  }

  lemma RootSteps(c: Config, rest: seq<Event>, o: Options, g: Page)
    requires c.state.DocumentContentState? && rest != [] && BeginsNode(rest[0])
    ensures Next(c, rest, o, g.indention) ==
      if IsProper(rest[0], o.canonical) then NodeNext(Expecting(c, false, false, DocumentEndState), rest, o.canonical) else None
    ensures StepPage(c, rest, o, g) == NodePage(g, rest[0], Expecting(c, false, false, DocumentEndState), o)
  {
    hide IsProper, NodePage, NodeNext;
  }

  /** A step with the end of a collection. */
  lemma EndSteps(a: Desk, rest: seq<Event>, o: Options, b: Desk)
    requires Fits(a.config) && rest != [] && (rest[0].SequenceEnd? || rest[0].MappingEnd?) && StepsTo(a, rest, o, b)
    ensures IsInside(a.config.state) && EndsCollection(Entered(a.config.state), rest[0])
    ensures
      var d := Started(a.config, o, a.page.indention);
      && d.states != [] && d.indents != [] && b.config == Leaves(d)
      && b.page == ClosePage(a.page, a.config.state, d.indents[|d.indents| - 1], o)
  {
    hide Fits, ClosePage, Leaves, IsProper;
    var c, e := a.config, rest[0];
    NextNests(c, rest, o, a.page.indention);
    EndPlaces(c, e);
    StartedHas(c, o, a.page.indention);
    StepsOut(c, rest, o, a.page.indention);
    StepOutPage(c, rest, o, a.page);
  }

  lemma EndPlaces(c: Config, e: Event)
    requires (e.SequenceEnd? || e.MappingEnd?) && Admits(NestOf(c), e) && Fits(c)
    ensures IsInside(c.state) && EndsCollection(Entered(c.state), e)
    ensures IsSequenceState(c.state) <==> e.SequenceEnd?
    ensures forall o, indention :: Started(c, o, indention).state == Entered(c.state)
  {
    hide LevelsFit, NoBlockInFlow, EnteredIn, FlowsIn, DirectivesFit;
  }

  lemma InitialSettled(rest: seq<Event>)
    ensures Settled(INITIAL, rest)
  {
  }

  lemma SettledStep(a: Desk, rest: seq<Event>, o: Options, b: Desk)
    requires Fits(a.config) && rest != [] && StepsTo(a, rest, o, b) && Settled(a.config, rest)
    ensures Settled(b.config, rest[1..])
  {
    hide Fits, StepPage, IsProper;
    var c, e := a.config, rest[0];
    if BeginsNode(e) {
      NodeSteps(a, rest, o, b);
      SettledNode(c, rest, o, a.page.indention, b.config);
    } else if e.SequenceEnd? || e.MappingEnd? {
      EndSteps(a, rest, o, b);
      SettledEnd(c, o, a.page.indention, rest[1..]);
    } else {
      SettledOutside(a, rest, o, b);
    }
  }

  lemma SettledNode(c: Config, rest: seq<Event>, o: Options, indention: bool, d: Config)
    requires rest != [] && BeginsNode(rest[0]) && Settled(c, rest)
    requires IsInside(c.state) || c.state.DocumentContentState?
    requires var x := NodeConfig(c, rest, o, indention); x.states != [] && NodeNext(x, rest, o.canonical) == Some(d)
    ensures Settled(d, rest[1..])
  {
    hide IsSimpleKey, Deeper, Started;
    var x := NodeConfig(c, rest, o, indention);
    NoNodeEnds(Entered(c.state), rest[0]);
    assert forall k | 0 <= k < |c.states| :: !IsSimpleValue(c.states[k]);
    NodeStack(c, rest, o, indention);
    if x.simpleKeyContext {
      KeyIsEmpty(rest, o.canonical, x.tagDirectives);
    }
    SettledNext(x, c.states, rest, o, d);
  }

  lemma NodeStack(c: Config, rest: seq<Event>, o: Options, indention: bool)
    requires rest != [] && (IsInside(c.state) || c.state.DocumentContentState?)
    ensures
      var x := NodeConfig(c, rest, o, indention);
      && x.states == c.states + [x.states[|x.states| - 1]]
      && (IsSimpleValue(x.states[|x.states| - 1]) <==> x.simpleKeyContext)
      && !IsFirst(x.states[|x.states| - 1])
      && (x.simpleKeyContext ==> IsSimpleKey(rest, o.canonical, x.tagDirectives))
  {
    hide IsSimpleKey, Deeper;
  }

  lemma KeyIsEmpty(rest: seq<Event>, canonical: bool, directives: seq<TagDirective>)
    requires IsSimpleKey(rest, canonical, directives)
    ensures rest[0].SequenceStart? ==> IsEmptySequence(rest)
    ensures rest[0].MappingStart? ==> IsEmptyMapping(rest)
  {
  }

  lemma SettledNext(x: Config, states: seq<State>, rest: seq<Event>, o: Options, d: Config)
    requires rest != [] && BeginsNode(rest[0]) && x.states != [] && NodeNext(x, rest, o.canonical) == Some(d)
    requires x.states == states + [x.states[|x.states| - 1]] && !IsFirst(x.states[|x.states| - 1])
    requires forall k | 0 <= k < |states| :: !IsSimpleValue(states[k])
    requires IsSimpleValue(x.states[|x.states| - 1]) ==>
      (rest[0].SequenceStart? ==> IsEmptySequence(rest)) && (rest[0].MappingStart? ==> IsEmptyMapping(rest))
    ensures Settled(d, rest[1..])
  {
    assert x.states[..|x.states| - 1] == states;
  }

  lemma SettledEnd(c: Config, o: Options, indention: bool, more: seq<Event>)
    requires forall k | 0 <= k < |c.states| && IsSimpleValue(c.states[k]) :: k == |c.states| - 1
    requires IsInside(c.state) && Fits(c)
    requires var d := Started(c, o, indention); d.states != [] && d.indents != []
    ensures Settled(Leaves(Started(c, o, indention)), more)
  {
    StacksEntered(c);
    hide Fits;
    var d := Started(c, o, indention);
    assert d.states == c.states;
  }

  lemma StacksEntered(c: Config)
    requires Fits(c) && IsInside(c.state)
    ensures c.states != [] && c.states[0] == DocumentEndState && forall i | 1 <= i < |c.states| :: IsEntered(c.states[i])
    ensures !IsFirst(c.states[|c.states| - 1])
  {
    hide LevelsFit, NoBlockInFlow, EnteredIn, FlowsIn, DirectivesFit;
  }

  lemma SettledOutside(a: Desk, rest: seq<Event>, o: Options, b: Desk)
    requires Fits(a.config) && rest != [] && StepsTo(a, rest, o, b)
    requires !BeginsNode(rest[0]) && !rest[0].SequenceEnd? && !rest[0].MappingEnd?
    ensures b.config.states == [] && !IsFirst(b.config.state)
  {
    hide LevelsFit, NoBlockInFlow, EnteredIn, FlowsIn, DirectivesFit, StepPage, IsProper, Parser.WithDefaults;
    NextNests(a.config, rest, o, a.page.indention);
    OutsideNode(a.config, rest[0]);
  }

  lemma OutsideNode(c: Config, e: Event)
    requires Fits(c) && Admits(NestOf(c), e) && !BeginsNode(e) && !e.SequenceEnd? && !e.MappingEnd?
    ensures !IsInside(c.state) && !c.state.DocumentContentState? && c.states == []
  {
    hide LevelsFit, NoBlockInFlow, EnteredIn, FlowsIn, DirectivesFit;
  }

  lemma {:induction false} RunSettles(history: seq<Desk>, events: seq<Event>, o: Options, n: nat)
    requires IsHistory(history, events, o) && n < |history|
    ensures Settled(history[n].config, events[n..])
    decreases n
  {
    hide Settled, StepsTo, Suffices, Fits;
    if n == 0 {
      InitialSettled(events[0..]);
    } else {
      RunSettles(history, events, o, n - 1);
      HistoryNests(history, events, o, n - 1);
      StepOf(history, events, o, n - 1);
      SettledStep(history[n - 1], events[n - 1..], o, history[n]);
      assert events[n - 1..][1..] == events[n..];
    }
  }

  lemma StepOf(history: seq<Desk>, events: seq<Event>, o: Options, n: nat)
    requires IsHistory(history, events, o) && n + 1 < |history|
    ensures n < |events| && events[n..] != [] && events[n..][0] == events[n] && StepsTo(history[n], events[n..], o, history[n + 1])
  {
    hide StepsTo, Suffices;
  }

  // ---- Pages only grow ----

  lemma LeadGrows(g: Page, k: State, indent: int, simpleKey: bool, o: Options)
    ensures g.text <= OpenedPage(g, k).text <= LeadPage(g, k, indent, simpleKey, o).text
  {
    hide Marked, Lined, SeparatedPage, OpenedPage;
    OpenedGrows(g, k);
    SeparatedGrows(OpenedPage(g, k), k, indent, o);
    var s, line := SeparatedPage(OpenedPage(g, k), k, indent, o), Lined(g, indent, o);
    MarkGrows(s, "?", true, false, false);
    MarkGrows(g, ":", false, false, false);
    MarkGrows(g, ":", true, false, false);
    LineGrows(g, indent, o);
    MarkGrows(line, ":", true, false, false);
    MarkGrows(line, "-", true, false, true);
    MarkGrows(line, "?", true, false, true);
    MarkGrows(line, ":", true, false, true);
    OpensOnlyFlow(g, k);
  }

  lemma MarkGrows(g: Page, indicator: string, needWhitespace: bool, isWhitespace: bool, isIndention: bool)
    ensures g.text <= Marked(g, indicator, needWhitespace, isWhitespace, isIndention).text
  {
    hide ColumnOf;
  }

  lemma LineGrows(g: Page, indent: int, o: Options)
    ensures g.text <= Lined(g, indent, o).text
  {
    hide ColumnOf, IndentText;
  }

  lemma OpenedGrows(g: Page, k: State)
    ensures g.text <= OpenedPage(g, k).text
  {
    hide Marked;
    MarkGrows(g, "[", true, true, false);
    MarkGrows(g, "{", true, true, false);
  }

  lemma OpensOnlyFlow(g: Page, k: State)
    ensures !(k.FlowSequenceFirstItemState? || k.FlowMappingFirstKeyState?) ==> OpenedPage(g, k) == g
  {
    hide Marked;
  }

  lemma SeparatedGrows(g: Page, k: State, indent: int, o: Options)
    ensures g.text <= SeparatedPage(g, k, indent, o).text
  {
    hide Marked, Lined;
    MarkGrows(g, ",", false, false, false);
    LineGrows(g, indent, o);
    LineGrows(Marked(g, ",", false, false, false), indent, o);
  }

  lemma CloseGrows(g: Page, k: State, outer: int, o: Options)
    ensures g.text <= OpenedPage(g, k).text <= ClosePage(g, k, outer, o).text || ClosePage(g, k, outer, o) == g
  {
    hide IndentText, ColumnOf;
  }

  lemma {:induction false} DirectivesGrow(g: Page, ds: seq<TagDirective>, indent: int, o: Options)
    ensures g.text <= DirectivesPage(g, ds, indent, o).text
    decreases |ds|
  {
    hide IndentText, ColumnOf, Tags.ContentText;
    if ds != [] {
      DirectivesGrow(DirectivePage(g, ds[0], indent, o), ds[1..], indent, o);
    }
  }

  lemma VersionGrows(g: Page, version: Option<Version>, indent: int, o: Options)
    ensures g.text <= VersionPage(g, version, indent, o).text
  {
    hide ColumnOf, IndentText;
  }

  lemma BodyGrows(g: Page, indent: int, o: Options)
    ensures
      var started := Marked(Lined(g, indent, o), "---", true, false, false);
      g.text <= started.text <= Lined(started, indent, o).text
  {
    hide ColumnOf, IndentText;
  }

  lemma DotsGrow(g: Page, indent: int, o: Options)
    ensures g.text <= Lined(Marked(g, "...", true, false, false), indent, o).text
  {
    hide ColumnOf, IndentText;
  }

  lemma StartGrows(g: Page, e: Event, first: bool, indent: int, o: Options)
    requires e.DocumentStart?
    ensures g.text <= StartPage(g, e, first, indent, o).text
  {
    hide Lined, Marked, DirectivesPage, VersionPage;
    var hasDirectives := e.version.Some? || e.tagDirectives != [];
    var closed := if hasDirectives && g.openEnded != 0 then Lined(Marked(g, "...", true, false, false), indent, o) else g;
    DotsGrow(g, indent, o);
    VersionGrows(closed.(openEnded := 0), e.version, indent, o);
    var versioned := VersionPage(closed.(openEnded := 0), e.version, indent, o);
    DirectivesGrow(versioned, e.tagDirectives, indent, o);
    BodyGrows(DirectivesPage(versioned, e.tagDirectives, indent, o), indent, o);
  }

  lemma NodeGrows(g: Page, e: Event, c: Config, o: Options)
    requires BeginsNode(e)
    ensures NodePage(g, e, c, o).text == g.text + NodeText(e, c, o, PenOf(g))
  {
    hide NodeText, PropertiesText, ChoiceOf;
  }

  lemma StepGrows(c: Config, rest: seq<Event>, o: Options, g: Page)
    requires rest != []
    ensures g.text <= StepPage(c, rest, o, g).text
  {
    hide IndentText, ColumnOf, NodePage, LeadPage, ClosePage, StartPage, OpenedPage, NodeText, Started, EndsCollection, IsSimpleKey;
    if IsInside(c.state) {
      var d := Started(c, o, g.indention);
      var simpleKey := TakesSimpleKey(d.state, rest, o.canonical, d.tagDirectives);
      LeadGrows(g, c.state, d.indent, simpleKey, o);
      if d.indents != [] {
        CloseGrows(g, c.state, d.indents[|d.indents| - 1], o);
      }
      if BeginsNode(rest[0]) {
        NodeGrows(LeadPage(g, c.state, d.indent, simpleKey, o), rest[0], ChildConfig(d, simpleKey), o);
      }
    } else if rest[0].DocumentStart? {
      StartGrows(g, rest[0], c.state.FirstDocumentStartState?, c.indent, o);
    } else if BeginsNode(rest[0]) {
      NodeGrows(g, rest[0], Expecting(c, false, false, DocumentEndState), o);
    }
  }

  lemma {:induction false} RunGrows(history: seq<Desk>, events: seq<Event>, o: Options, i: nat, j: nat)
    requires IsHistory(history, events, o) && i <= j < |history|
    ensures history[i].page.text <= history[j].page.text
    decreases j
  {
    hide StepPage, Next, Suffices;
    if i < j {
      RunGrows(history, events, o, i, j - 1);
      StepOf(history, events, o, j - 1);
      StepGrows(history[j - 1].config, events[j - 1..], o, history[j - 1].page);
    }
  }

  /** What is written between two points of a run. */
  ghost function Tail(history: seq<Desk>, i: nat, j: nat): Text
    requires i <= j < |history|
  {
    var n := |history[i].page.text|;
    if n <= |history[j].page.text| then history[j].page.text[n..] else []
  }

  ghost function Added(a: Page, b: Page): Text {
    if |a.text| <= |b.text| then b.text[|a.text|..] else []
  }

  lemma NoTail(history: seq<Desk>, i: nat)
    requires i < |history|
    ensures Tail(history, i, i) == []
  {
  }

  lemma TailStep(history: seq<Desk>, events: seq<Event>, o: Options, i: nat, j: nat)
    requires IsHistory(history, events, o) && i < j < |history|
    ensures Tail(history, i, j) == Added(history[i].page, history[i + 1].page) + Tail(history, i + 1, j)
    ensures history[i + 1].page.text == history[i].page.text + Added(history[i].page, history[i + 1].page)
    ensures history[i].page.text + Tail(history, i, j) == history[j].page.text
  {
    hide IsHistory;
    RunGrows(history, events, o, i, i + 1);
    RunGrows(history, events, o, i + 1, j);
    var a, b, c := history[i].page.text, history[i + 1].page.text, history[j].page.text;
    assert c == b + c[|b|..] && b == a + b[|a|..];
    assert c == a + (b[|a|..] + c[|b|..]);
  }

  // ---- The first character of a node ----

  predicate IsSolid(c: nat) {
    !IsGapChar(c)
  }

  /** A text that is separated from what stands before it. */
  predicate IsApart(t: Text) {
    t == [] || t[0] == SPACE || t[0] == CR || t[0] == LF
  }

  predicate BeginsSolid(t: Text) {
    t == [] || IsSolid(t[0])
  }

  /** Behind white space a text begins with a character of its own, else with a space. */
  predicate BeginsFor(t: Text, whitespace: bool) {
    if whitespace then BeginsSolid(t) else t == [] || t[0] == SPACE
  }

  lemma OpeningBegins(quote: nat, p: Pen, t: Text)
    requires IsSolid(quote)
    ensures Opening(quote, p) + t != [] && BeginsFor(Opening(quote, p) + t, p.whitespace)
  {
  }

  lemma AnchorBegins(anchor: Option<string>, sign: nat, p: Pen)
    requires IsSolid(sign)
    ensures BeginsFor(AnchorText(anchor, sign, p), p.whitespace)
    ensures anchor.Some? ==> AnchorText(anchor, sign, p) != []
  {
  }

  lemma TagBegins(g: Tags.TagData, p: Pen)
    requires Tags.HasValidHandle(g)
    ensures BeginsFor(Tags.TagText(g, p), p.whitespace)
  {
    hide Tags.ContentText;
  }

  lemma ScalarBegins(style: ScalarStyle, value: Text, p: Pen, l: Settings, inFlow: bool, bestIndent: nat)
    requires style.Plain? && value != [] ==> PlainScalars.PlainAllowed(value, inFlow, l.unicode) && l.indent > 0
    requires style.Plain? && value == [] ==> !inFlow
    ensures
      var t := ScalarText(style, value, p, l, inFlow, bestIndent);
      BeginsFor(t, p.whitespace) && (t == [] <==> style.Plain? && value == [])
  {
    hide SpacedScalars.Body, DoubleQuoted.Body, LiteralScalars.Body, FoldedScalars.Body, LiteralScalars.Hints, Opening, IsGapChar;
    SolidSigns();
    match style {
      case Plain => PlainBegins(value, p, l, inFlow);
      case SingleQuoted =>
        OpeningBegins(APOSTROPHE, p, SpacedScalars.Body(value, SpacedScalars.Stand(AfterOpening(p), true, false, false), l, true));
      case Literal =>
        OpeningsBegin(LiteralScalars.BAR, p, LiteralScalars.Hints(value, bestIndent), BreakOf(l.lineBreak), LiteralScalars.Body(value, Pen(0, true, true), true, l));
      case Folded =>
        OpeningsBegin(GREATER, p, LiteralScalars.Hints(value, bestIndent), BreakOf(l.lineBreak), FoldedScalars.Body(value, FoldedScalars.START, l));
      case _ => OpeningBegins(QUOTE, p, DoubleQuoted.Body(value, true, AfterOpening(p), false, l));
    }
  }

  lemma OpeningsBegin(quote: nat, p: Pen, a: Text, b: Text, c: Text)
    requires IsSolid(quote)
    ensures Opening(quote, p) + a + b + c != [] && BeginsFor(Opening(quote, p) + a + b + c, p.whitespace)
  {
    hide Opening, IsSolid;
    OpeningBegins(quote, p, a + b + c);
    assert Opening(quote, p) + (a + b + c) == Opening(quote, p) + a + b + c;
  }

  lemma SolidSigns()
    ensures IsSolid(APOSTROPHE) && IsSolid(QUOTE) && IsSolid(LiteralScalars.BAR) && IsSolid(GREATER)
    ensures IsSolid(AMPERSAND) && IsSolid(ASTERISK)
  {
  }

  lemma PlainBegins(value: Text, p: Pen, l: Settings, inFlow: bool)
    requires value != [] ==> PlainScalars.PlainAllowed(value, inFlow, l.unicode) && l.indent > 0
    requires value == [] ==> !inFlow
    ensures
      var t := SpacedScalars.PlainText(value, p, l, inFlow);
      BeginsFor(t, p.whitespace) && (t == [] <==> value == [])
  {
    if value == [] {
      assert SpacedScalars.Body([], SpacedScalars.Stand(Move(p, 0), true, false, false), l, false) == [];
    } else {
      PlainFirst(value, p, l, inFlow);
    }
  }

  lemma PlainFirst(value: Text, p: Pen, l: Settings, inFlow: bool)
    requires value != [] && PlainScalars.PlainAllowed(value, inFlow, l.unicode) && l.indent > 0
    ensures
      var t := SpacedScalars.PlainText(value, p, l, inFlow);
      t != [] && BeginsFor(t, p.whitespace)
  {
    hide SpacedScalars.Body, SpacedScalars.Next;
    var st := SpacedScalars.Stand(Move(p, if p.whitespace then 0 else 1), true, false, false);
    var x := P.Context(inFlow, 0);
    PlainScalars.StartsInside(value, st, l, x, 0);
    PlainScalars.FirstLetter(value, st, l, [], x);
    var body := SpacedScalars.Body(value, st, l, false);
    assert body + [] == body;
    PlainIsSolid(value, inFlow, l.unicode);
  }

  lemma PlainIsSolid(value: Text, inFlow: bool, unicode: bool)
    requires PlainScalars.PlainAllowed(value, inFlow, unicode)
    ensures value != [] && IsSolid(value[0])
  {
  }

  /** What a node begins with; it may be empty only if it is an empty plain scalar or the start of
      a collection without properties. */
  lemma NodeBegins(e: Event, c: Config, o: Options, p: Pen)
    requires BeginsNode(e) && IsProper(e, o.canonical) && Tags.ValidHandles(c.tagDirectives)
    ensures BeginsFor(NodeText(e, c, o, p), p.whitespace)
    ensures NodeText(e, c, o, p) == [] ==>
      || e.SequenceStart? || e.MappingStart?
      || (e.Scalar? && !c.simpleKeyContext && c.flowLevel == 0 && e.value == "" && ChoiceOf(e, c, o).Chosen? && ChoiceOf(e, c, o).style.Plain?)
    ensures NodeText(e, c, o, p) == [] ==> PropertiesText(e, c, o, p) == []
  {
    hide ScalarText, AnchorText, Tags.TagText, ChoiceOf, IsProper, IsSolid, IsAnchor;
    var sign := if e.Alias? then ASTERISK else AMPERSAND;
    SolidSigns();
    AnchorBegins(e.anchor, sign, p);
    var anchor := AnchorText(e.anchor, sign, p);
    TagIsValid(e, c, o);
    TagBegins(TagOf(e, c, o), Tags.AfterProperty(p, anchor));
    ContentBegins(e, c, o, Tags.AfterProperty(p, PropertiesText(e, c, o, p)));
    ProperAlias(e, o.canonical);
  }

  lemma ProperAlias(e: Event, canonical: bool)
    requires IsProper(e, canonical)
    ensures e.Alias? ==> e.anchor.Some?
  {
  }

  lemma TagIsValid(e: Event, c: Config, o: Options)
    requires Tags.ValidHandles(c.tagDirectives)
    ensures Tags.HasValidHandle(TagOf(e, c, o))
  {
    hide ChoiceOf, Tags.HasValidHandle;
    TagDataIs(e, o.canonical, c.tagDirectives);
    BangIsHandle();
  }

  lemma ContentBegins(e: Event, c: Config, o: Options, p: Pen)
    requires BeginsNode(e) && IsProper(e, o.canonical)
    ensures !e.Alias? ==> BeginsFor(ContentOf(e, c, o, p), p.whitespace)
    ensures e.Scalar? && ContentOf(e, c, o, p) == [] ==>
      !c.simpleKeyContext && c.flowLevel == 0 && e.value == "" && ChoiceOf(e, c, o).Chosen? && ChoiceOf(e, c, o).style.Plain?
  {
    hide ScalarText, SelectStyle, IsAnalysis, PlainScalars.PlainAllowed, SingleQuotedScalars.SingleQuotable, LiteralScalars.LiteralAllowed, IsAnchor;
    if e.Scalar? {
      ChoiceFits(e, c, o);
      var choice, s := ChoiceOf(e, c, o), TextOf(e.value);
      var l := SettingsAt(Deeper(c.indent, BestIndent(o), true, false), o, !c.simpleKeyContext);
      ScalarBegins(choice.style, s, p, l, c.flowLevel > 0, BestIndent(o));
    }
  }

  /** The style of a scalar that can be written is chosen, and allowed. */
  lemma ChoiceFits(e: Event, c: Config, o: Options)
    requires e.Scalar? && IsProper(e, o.canonical)
    ensures
      var choice, s := ChoiceOf(e, c, o), TextOf(e.value);
      && choice.Chosen? && !choice.style.AnyScalarStyle? && (s == [] <==> e.value == "")
      && (choice.style.Plain? ==> if s == [] then c.flowLevel == 0 && !c.simpleKeyContext
                                  else PlainScalars.PlainAllowed(s, c.flowLevel > 0, o.unicode))
      && (IsBlockStyle(choice.style) ==> c.flowLevel == 0 && !c.simpleKeyContext && LiteralScalars.LiteralAllowed(s, o.unicode))
  {
    hide SelectStyle, IsAnalysis, PlainScalars.PlainAllowed, SingleQuotedScalars.SingleQuotable, LiteralScalars.LiteralAllowed, IsAnchor, IsDirective;
    var s := TextOf(e.value);
    ChoiceIsAllowed(e.scalarStyle, AnalysisOf(s, o.unicode), s, o.unicode, Site(c.flowLevel > 0, c.simpleKeyContext, o.canonical),
      Tagging(!WritesTag(e, o.canonical), e.plainImplicit, e.quotedImplicit));
  }

  // ---- What follows a mark ----

  /** The states in which the next text starts on a line of its own. */
  predicate IsLineState(k: State) {
    k.BlockSequenceItemState? || k.BlockMappingKeyState? || k.BlockMappingValueState? || k.DocumentEndState?
  }

  /** What is written next is apart from what stands before it. */
  predicate Separates(c: Config, g: Page) {
    && !g.whitespace
    && (|| (IsFirst(c.state) && IsFlow(c.state))
        || (!g.indention && (IsLineState(c.state) || IsFirst(c.state) || c.state.DocumentContentState?))
        || (IsFirst(c.state) && IsBlock(c.state) && c.indent >= 0 && ColumnOf(g.text) == c.indent + 1))
  }

  /** A page on which an indicator was just written. */
  predicate AfterMark(g: Page, indent: int) {
    !g.whitespace && (!g.indention || (indent >= 0 && ColumnOf(g.text) == indent + 1))
  }

  lemma LinedApart(g: Page, indent: int, o: Options, t: Text)
    requires !g.whitespace && (!g.indention || ColumnOf(g.text) < indent)
    requires Lined(g, indent, o).text <= t
    ensures g.text <= t && IsApart(t[|g.text|..]) && t[|g.text|..] != []
  {
    hide ColumnOf;
    var l, p := SettingsAt(indent, o, true), PenOf(g);
    var added := IndentText(l, p);
    assert added != [] && IsApart(added);
    assert t[|g.text|..][..|added|] == added;
    assert t[|g.text|..][0] == added[0];
  }

  lemma MarkedApart(g: Page, indicator: string, isWhitespace: bool, isIndention: bool, t: Text)
    requires !g.whitespace && Marked(g, indicator, true, isWhitespace, isIndention).text <= t
    ensures g.text <= t && IsApart(t[|g.text|..]) && t[|g.text|..] != []
  {
    hide ColumnOf;
    var m := Marked(g, indicator, true, isWhitespace, isIndention).text;
    assert m[|g.text|] == SPACE && t[|g.text|..][0] == t[|g.text|];
  }

  /** The block leads begin with a line. */
  lemma BlockLeadIs(g: Page, k: State, indent: int, simpleKey: bool, o: Options)
    requires IsBlock(k) && !k.BlockMappingSimpleValueState?
    ensures Lined(g, indent, o).text <= LeadPage(g, k, indent, simpleKey, o).text
  {
    hide IndentText, ColumnOf;
  }

  lemma FlowFirstIs(g: Page, k: State, o: Options)
    requires IsFirst(k) && IsFlow(k)
    ensures OpenedPage(g, k) == Marked(g, if IsSequenceState(k) then "[" else "{", true, true, false)
  {
    hide Marked;
  }

  lemma {:induction false} TailApart(history: seq<Desk>, events: seq<Event>, o: Options, i: nat, j: nat)
    requires IsHistory(history, events, o) && i <= j < |history| && Separates(history[i].config, history[i].page)
    ensures IsApart(Tail(history, i, j))
    decreases j - i
  {
    hide IsHistory, StepsTo, Separates, Settled, Fits, Tail, IsApart;
    if i == j {
      NoTail(history, i);
      NothingApart();
    } else {
      StepOf(history, events, o, i);
      HistoryNests(history, events, o, i);
      RunSettles(history, events, o, i);
      TailStep(history, events, o, i, j);
      var a, b, rest := history[i], history[i + 1], events[i..];
      StepApart(a, rest, o, b);
      if b.page.text == a.page.text {
        assert Added(a.page, b.page) == [];
        assert [] + Tail(history, i + 1, j) == Tail(history, i + 1, j);
        TailApart(history, events, o, i + 1, j);
      } else {
        StaysApart(Added(a.page, b.page), Tail(history, i + 1, j));
      }
    }
  }

  lemma NothingApart()
    ensures IsApart([])
  {
  }

  lemma StaysApart(t: Text, u: Text)
    requires IsApart(t) && t != []
    ensures IsApart(t + u)
  {
  }

  /** A step either writes a text that is apart, or writes nothing and the next one does. */
  lemma StepApart(a: Desk, rest: seq<Event>, o: Options, b: Desk)
    requires Fits(a.config) && rest != [] && StepsTo(a, rest, o, b) && Settled(a.config, rest) && Separates(a.config, a.page)
    ensures
      if b.page.text == a.page.text then Separates(b.config, b.page)
      else a.page.text <= b.page.text && IsApart(Added(a.page, b.page)) && Added(a.page, b.page) != []
  {
    hide StepsTo, Settled, Fits, IsApart, ColumnOf;
    var c, g, e := a.config, a.page, rest[0];
    if IsFirst(c.state) && IsFlow(c.state) {
      FlowFirstApart(a, rest, o, b);
    } else if BeginsNode(e) {
      NodeSteps(a, rest, o, b);
      if c.state.DocumentContentState? {
        RootApart(a, rest, o, b);
      } else {
        BlockChildApart(a, rest, o, b);
      }
    } else if e.SequenceEnd? || e.MappingEnd? {
      BlockEndApart(a, rest, o, b);
    } else {
      DocumentEndApart(a, rest, o, b);
    }
  }

  lemma FlowFirstApart(a: Desk, rest: seq<Event>, o: Options, b: Desk)
    requires Fits(a.config) && rest != [] && StepsTo(a, rest, o, b) && !a.page.whitespace
    requires IsFirst(a.config.state) && IsFlow(a.config.state)
    ensures a.page.text <= b.page.text && IsApart(Added(a.page, b.page)) && Added(a.page, b.page) != []
  {
    hide StepsTo, Fits, IsApart, Marked;
    var k := a.config.state;
    FlowFirstIs(a.page, k, o);
    FlowFirstGrows(a, rest, o, b);
    MarkedApart(a.page, if IsSequenceState(k) then "[" else "{", true, false, b.page.text);
  }

  lemma FlowFirstGrows(a: Desk, rest: seq<Event>, o: Options, b: Desk)
    requires Fits(a.config) && rest != [] && StepsTo(a, rest, o, b) && IsFirst(a.config.state) && IsFlow(a.config.state)
    ensures OpenedPage(a.page, a.config.state).text <= b.page.text
  {
    hide StepsTo, Fits, Marked, LeadPage, ClosePage, NodePage, NodeText, OpenedPage, Started;
    var c, g, e := a.config, a.page, rest[0];
    FlowFirstStep(a, rest, o, b);
    var d := Started(c, o, g.indention);
    if BeginsNode(e) {
      NodeSteps(a, rest, o, b);
      var simpleKey := TakesSimpleKey(d.state, rest, o.canonical, d.tagDirectives);
      LeadGrows(g, c.state, d.indent, simpleKey, o);
      NodeGrows(LeadPage(g, c.state, d.indent, simpleKey, o), e, ChildConfig(d, simpleKey), o);
    } else {
      EndSteps(a, rest, o, b);
      ClosesFlow(g, c.state, d.indents[|d.indents| - 1], o);
    }
  }

  lemma ClosesFlow(g: Page, k: State, outer: int, o: Options)
    requires IsFlow(k)
    ensures OpenedPage(g, k).text <= ClosePage(g, k, outer, o).text
  {
    hide IndentText, ColumnOf, OpenedPage;
  }

  lemma FlowFirstStep(a: Desk, rest: seq<Event>, o: Options, b: Desk)
    requires Fits(a.config) && rest != [] && StepsTo(a, rest, o, b) && IsInside(a.config.state)
    ensures BeginsNode(rest[0]) || rest[0].SequenceEnd? || rest[0].MappingEnd?
  {
    hide StepPage, IsProper;
    NextNests(a.config, rest, o, a.page.indention);
    InsideAdmits(a.config, rest[0]);
  }

  lemma InsideAdmits(c: Config, e: Event)
    requires Fits(c) && IsInside(c.state) && Admits(NestOf(c), e)
    ensures BeginsNode(e) || e.SequenceEnd? || e.MappingEnd?
  {
    hide LevelsFit, NoBlockInFlow, EnteredIn, FlowsIn, DirectivesFit;
  }

  lemma RootApart(a: Desk, rest: seq<Event>, o: Options, b: Desk)
    requires Fits(a.config) && rest != [] && StepsTo(a, rest, o, b) && BeginsNode(rest[0])
    requires a.config.state.DocumentContentState? && !a.page.whitespace && !a.page.indention
    ensures
      if b.page.text == a.page.text then Separates(b.config, b.page)
      else a.page.text <= b.page.text && IsApart(Added(a.page, b.page)) && Added(a.page, b.page) != []
  {
    hide StepsTo, Fits, ColumnOf;
    NodeSteps(a, rest, o, b);
    NodeApart(a, rest, o, b, a.page);
  }

  /** A node behind a mark. */
  lemma NodeApart(a: Desk, rest: seq<Event>, o: Options, b: Desk, g: Page)
    requires Fits(a.config) && rest != [] && StepsTo(a, rest, o, b) && BeginsNode(rest[0])
    requires g == NodeStart(a.config, rest, o, a.page) && AfterMark(g, NodeConfig(a.config, rest, o, a.page.indention).indent)
    ensures g.text <= b.page.text && IsApart(Added(g, b.page))
    ensures Added(g, b.page) == [] ==> Separates(b.config, b.page)
  {
    hide StepsTo, Fits, ColumnOf, NodeText, NodePage, IsProper, NodeStart, NodeConfig, Separates, AfterMark, BeginsFor, IsApart, PropertiesText,
      ChoiceOf, NodeNext;
    NodeSteps(a, rest, o, b);
    var e, x := rest[0], NodeConfig(a.config, rest, o, a.page.indention);
    NodeConfigIs(a.config, rest, o, a.page.indention);
    NodeGrows(g, e, x, o);
    NodeBegins(e, x, o, PenOf(g));
    assert Added(g, b.page) == NodeText(e, x, o, PenOf(g));
    MarkIs(g, x.indent, NodeText(e, x, o, PenOf(g)));
    if Added(g, b.page) == [] {
      EmptyNode(g, e, x, o, rest, b);
    }
  }

  lemma MarkIs(g: Page, indent: int, t: Text)
    requires AfterMark(g, indent) && BeginsFor(t, PenOf(g).whitespace)
    ensures IsApart(t)
  {
  }

  lemma NodeConfigIs(c: Config, rest: seq<Event>, o: Options, indention: bool)
    requires Fits(c) && rest != [] && BeginsNode(rest[0]) && (IsInside(c.state) || c.state.DocumentContentState?)
    ensures
      var x := NodeConfig(c, rest, o, indention);
      && Tags.ValidHandles(x.tagDirectives) && x.states != []
      && (x.flowLevel == 0 && !x.simpleKeyContext ==> IsLineState(x.states[|x.states| - 1]))
      && (x.simpleKeyContext ==> IsSimpleValue(x.states[|x.states| - 1]))
      && x.tagDirectives == c.tagDirectives && x.indent >= -1
  {
    hide LevelsFit, NoBlockInFlow, EnteredIn, FlowsIn;
    if IsInside(c.state) {
      StartedFits(c, o, indention);
    } else {
      RootIndent(c);
    }
  }

  /** A node that writes nothing. */
  lemma EmptyNode(g: Page, e: Event, x: Config, o: Options, rest: seq<Event>, b: Desk)
    requires BeginsNode(e) && rest != [] && rest[0] == e && x.states != [] && AfterMark(g, x.indent)
    requires NodeText(e, x, o, PenOf(g)) == [] && PropertiesText(e, x, o, PenOf(g)) == []
    requires NodeNext(x, rest, o.canonical) == Some(b.config) && b.page == NodePage(g, e, x, o)
    requires
      || e.SequenceStart? || e.MappingStart?
      || (e.Scalar? && ChoiceOf(e, x, o).Chosen? && ChoiceOf(e, x, o).style.Plain? && IsLineState(x.states[|x.states| - 1]))
    ensures Separates(b.config, b.page)
  {
    hide ColumnOf, NodeText, PropertiesText, ChoiceOf;
    assert g.text + [] == g.text;
  }

  lemma StartedFits(c: Config, o: Options, indention: bool)
    requires Fits(c) && IsInside(c.state)
    ensures
      var d := Started(c, o, indention);
      && Fits(d) && IsEntered(d.state) && d.state == Entered(c.state) && d.states == c.states && d.tagDirectives == c.tagDirectives
      && d.indent >= 0 && (IsFlow(d.state) <==> IsFlow(c.state))
      && (d.flowLevel == 0 ==> IsBlock(c.state)) && (d.flowLevel > 0 ==> IsFlow(c.state))
  {
    hide Fits;
    if IsFirst(c.state) {
      EntersFits(c, BestIndent(o), IsIndentless(c, indention));
    }
    EnteredFits(Started(c, o, indention));
  }

  lemma EnteredFits(d: Config)
    requires Fits(d) && IsEntered(d.state)
    ensures d.indent >= 0 && (d.flowLevel == 0 <==> IsBlock(d.state))
  {
    hide DirectivesFit;
    AllSnoc(d.states, d.state);
    EnteredLevels(d);
    if IsBlock(d.state) {
      NoFlowBelow(d.states, d.state);
    }
  }

  lemma RootIndent(c: Config)
    requires Fits(c) && c.state.DocumentContentState?
    ensures c.indent == -1 && c.flowLevel == 0
  {
    hide DirectivesFit, NoBlockInFlow;
    AllSnoc(c.states, c.state);
    assert c.indents == [];
    assert (c.indents + [c.indent])[0] == c.indent;
  }

  lemma EnteredLevels(d: Config)
    requires LevelsFit(d.indents + [d.indent]) && |d.indents| > 0
    ensures d.indent >= 0
  {
    assert (d.indents + [d.indent])[|d.indents|] == d.indent;
  }

  lemma {:induction false} NoFlowBelow(s: seq<State>, k: State)
    requires NoBlockInFlow(s + [k]) && IsBlock(k)
    ensures FlowsIn(s) == 0
    decreases |s|
  {
    if s != [] {
      var t, last := s[..|s| - 1], s[|s| - 1];
      assert (s + [k])[|s| - 1] == last && (s + [k])[|s|] == k;
      assert !IsFlow(last);
      forall i, j | 0 <= i < j < |t + [k]| ensures IsFlow((t + [k])[i]) ==> !IsBlock((t + [k])[j]) {
        if j == |t| {
          assert (s + [k])[i] == (t + [k])[i];
        } else {
          assert (s + [k])[i] == (t + [k])[i] && (s + [k])[j] == (t + [k])[j];
        }
      }
      NoFlowBelow(t, k);
    }
  }

  /** A block collection is in a block collection or a document, and is no simple key. */
  lemma PoppedLine(c: Config, rest: seq<Event>)
    requires Fits(c) && IsInside(c.state) && IsBlock(c.state) && Settled(c, rest)
    ensures c.states != [] && IsLineState(c.states[|c.states| - 1])
  {
    StacksEntered(c);
    NotInFlow(c);
    hide Fits;
  }

  lemma NotInFlow(c: Config)
    requires Fits(c) && IsBlock(c.state) && c.states != []
    ensures !IsFlow(c.states[|c.states| - 1])
  {
    hide LevelsFit, EnteredIn, FlowsIn, DirectivesFit;
    assert All(c)[|c.states| - 1] == c.states[|c.states| - 1] && All(c)[|c.states|] == c.state;
  }

  lemma BlockChildApart(a: Desk, rest: seq<Event>, o: Options, b: Desk)
    requires Fits(a.config) && rest != [] && StepsTo(a, rest, o, b) && BeginsNode(rest[0])
    requires Separates(a.config, a.page) && IsInside(a.config.state) && !(IsFirst(a.config.state) && IsFlow(a.config.state))
    ensures a.page.text <= b.page.text && IsApart(Added(a.page, b.page)) && Added(a.page, b.page) != []
  {
    hide StepsTo, Fits, IsApart, ColumnOf, LeadPage, NodePage, NodeText;
    NodeSteps(a, rest, o, b);
    var c, g := a.config, a.page;
    var d := Started(c, o, g.indention);
    var simpleKey := TakesSimpleKey(d.state, rest, o.canonical, d.tagDirectives);
    BlockLeadIs(g, c.state, d.indent, simpleKey, o);
    NodeGrows(LeadPage(g, c.state, d.indent, simpleKey, o), rest[0], ChildConfig(d, simpleKey), o);
    LinedApart(g, d.indent, o, b.page.text);
  }

  lemma BlockEndApart(a: Desk, rest: seq<Event>, o: Options, b: Desk)
    requires Fits(a.config) && rest != [] && StepsTo(a, rest, o, b) && (rest[0].SequenceEnd? || rest[0].MappingEnd?)
    requires Separates(a.config, a.page) && Settled(a.config, rest) && !(IsFirst(a.config.state) && IsFlow(a.config.state))
    ensures b.page == a.page && Separates(b.config, b.page)
  {
    hide StepsTo, Fits, ColumnOf;
    EndSteps(a, rest, o, b);
    PoppedLine(a.config, rest);
  }

  lemma DocumentEndApart(a: Desk, rest: seq<Event>, o: Options, b: Desk)
    requires Fits(a.config) && rest != [] && StepsTo(a, rest, o, b)
    requires !BeginsNode(rest[0]) && !rest[0].SequenceEnd? && !rest[0].MappingEnd?
    requires Separates(a.config, a.page)
    ensures a.page.text <= b.page.text && IsApart(Added(a.page, b.page)) && Added(a.page, b.page) != []
  {
    hide Fits, ColumnOf, IsProper, IsApart, IndentText;
    NextNests(a.config, rest, o, a.page.indention);
    OutsideNode(a.config, rest[0]);
    LinedApart(a.page, a.config.indent, o, b.page.text);
  }

  // ---- What follows a scalar on its line ----


  predicate IsColonTail(t: Text) {
    t == [] || (t[0] == COLON && IsApart(t[1..]))
  }

  predicate IsItemTail(t: Text) {
    t == [] || t[0] == ',' as nat || t[0] == ']' as nat || t[0] == '}' as nat
  }

  /** The text behind a mark, from the page that the mark leaves. */
  lemma AfterMarkApart(history: seq<Desk>, events: seq<Event>, o: Options, i: nat, j: nat)
    requires IsHistory(history, events, o) && i < j < |history| && i < |events| && BeginsNode(events[i])
    requires Fits(history[i].config) && StepsTo(history[i], events[i..], o, history[i + 1]) && events[i..] != [] && events[i..][0] == events[i]
    requires
      var a, rest := history[i], events[i..];
      AfterMark(NodeStart(a.config, rest, o, a.page), NodeConfig(a.config, rest, o, a.page.indention).indent)
    ensures
      var a, rest := history[i], events[i..];
      var g := NodeStart(a.config, rest, o, a.page);
      g.text <= history[j].page.text && IsApart(history[j].page.text[|g.text|..])
  {
    hide IsHistory, StepsTo, Separates, Fits, IsApart, NodeStart, NodeConfig, Tail, AfterMark, Added;
    var a, b, rest := history[i], history[i + 1], events[i..];
    var g := NodeStart(a.config, rest, o, a.page);
    NodeApart(a, rest, o, b, g);
    RunGrows(history, events, o, i + 1, j);
    var t := history[j].page.text;
    SplitAt(g.text, b.page.text, t);
    TailIs(history, i + 1, j);
    AddedIs(g, b.page);
    if Added(g, b.page) == [] {
      TailApart(history, events, o, i + 1, j);
      assert [] + Tail(history, i + 1, j) == Tail(history, i + 1, j);
    } else {
      StaysApart(Added(g, b.page), Tail(history, i + 1, j));
    }
  }

  lemma SplitAt(a: Text, b: Text, c: Text)
    requires a <= b <= c
    ensures c[|a|..] == b[|a|..] + c[|b|..]
  {
  }

  lemma TailIs(history: seq<Desk>, i: nat, j: nat)
    requires i <= j < |history| && history[i].page.text <= history[j].page.text
    ensures Tail(history, i, j) == history[j].page.text[|history[i].page.text|..]
  {
  }

  lemma AddedIs(a: Page, b: Page)
    requires a.text <= b.text
    ensures Added(a, b) == b.text[|a.text|..]
  {
  }

  lemma {:induction false} ColonTail(history: seq<Desk>, events: seq<Event>, o: Options, i: nat, j: nat)
    requires IsHistory(history, events, o) && i <= j < |history| && IsSimpleValue(history[i].config.state)
    ensures IsColonTail(Tail(history, i, j))
  {
    hide IsHistory, StepsTo, Fits, IsApart, LeadPage, NodeStart, NodeConfig, AfterMark;
    if i == j {
      NoTail(history, i);
    } else {
      StepOf(history, events, o, i);
      HistoryNests(history, events, o, i);
      var a, rest := history[i], events[i..];
      ValueIsNode(a, rest, o, history[i + 1]);
      ColonLead(a, rest, o);
      AfterMarkApart(history, events, o, i, j);
      RunGrows(history, events, o, i, j);
      TailIs(history, i, j);
      ColonThen(a.page.text, history[j].page.text);
    }
  }

  lemma ColonThen(a: Text, t: Text)
    requires a + [COLON] <= t && IsApart(t[|a + [COLON]|..])
    ensures a <= t && IsColonTail(t[|a|..])
  {
    hide IsApart;
    assert t[|a|..][0] == (a + [COLON])[|a|] == COLON;
    assert t[|a|..][1..] == t[|a + [COLON]|..];
  }

  /** In the value states a node must come. */
  lemma ValueIsNode(a: Desk, rest: seq<Event>, o: Options, b: Desk)
    requires Fits(a.config) && rest != [] && StepsTo(a, rest, o, b)
    requires IsSimpleValue(a.config.state) || a.config.state.FlowMappingValueState? || a.config.state.BlockMappingValueState?
    ensures BeginsNode(rest[0])
  {
    hide StepPage, IsProper, Fits, Next, NestOf;
    NextNests(a.config, rest, o, a.page.indention);
    ValueAdmits(a.config, rest[0]);
  }

  lemma ValueAdmits(c: Config, e: Event)
    requires Fits(c) && Admits(NestOf(c), e)
    requires IsSimpleValue(c.state) || c.state.FlowMappingValueState? || c.state.BlockMappingValueState?
    ensures BeginsNode(e)
  {
    hide LevelsFit, NoBlockInFlow, EnteredIn, FlowsIn, DirectivesFit, FramesOf;
  }

  lemma ColonLead(a: Desk, rest: seq<Event>, o: Options)
    requires Fits(a.config) && rest != [] && BeginsNode(rest[0]) && IsSimpleValue(a.config.state)
    ensures
      var g := NodeStart(a.config, rest, o, a.page);
      && g.text == a.page.text + [COLON]
      && AfterMark(g, NodeConfig(a.config, rest, o, a.page.indention).indent)
  {
    hide ColumnOf, IndentText, Fits;
    assert TextOf(":") == [COLON];
    assert a.page.text + [] + [COLON] == a.page.text + [COLON];
  }

  lemma ItemTail(history: seq<Desk>, events: seq<Event>, o: Options, i: nat, j: nat)
    requires IsHistory(history, events, o) && i <= j < |history|
    requires history[i].config.state.FlowSequenceItemState? || history[i].config.state.FlowMappingKeyState?
    ensures IsItemTail(Tail(history, i, j))
  {
    hide IsHistory, StepsTo, Fits;
    if i == j {
      NoTail(history, i);
    } else {
      StepOf(history, events, o, i);
      HistoryNests(history, events, o, i);
      var a, b, rest := history[i], history[i + 1], events[i..];
      ItemStep(a, rest, o, b);
      RunGrows(history, events, o, i + 1, j);
      NextCharacter(a.page.text, b.page.text, history[j].page.text);
      RunGrows(history, events, o, i, j);
      TailIs(history, i, j);
    }
  }

  lemma NextCharacter(a: Text, b: Text, t: Text)
    requires a <= b <= t && |a| < |b|
    ensures t[|a|..] != [] && t[|a|..][0] == b[|a|]
  {
  }

  lemma ItemStep(a: Desk, rest: seq<Event>, o: Options, b: Desk)
    requires Fits(a.config) && rest != [] && StepsTo(a, rest, o, b)
    requires a.config.state.FlowSequenceItemState? || a.config.state.FlowMappingKeyState?
    ensures
      && a.page.text <= b.page.text && |a.page.text| < |b.page.text|
      && (b.page.text[|a.page.text|] == ',' as nat || b.page.text[|a.page.text|] == ']' as nat || b.page.text[|a.page.text|] == '}' as nat)
  {
    hide StepsTo, Fits, ColumnOf, IndentText, NodePage, NodeText;
    FlowFirstStep(a, rest, o, b);
    var g := a.page;
    if BeginsNode(rest[0]) {
      NodeSteps(a, rest, o, b);
      var s := NodeStart(a.config, rest, o, g);
      CommaLead(a, rest, o);
      NodeGrows(s, rest[0], NodeConfig(a.config, rest, o, g.indention), o);
    } else {
      EndSteps(a, rest, o, b);
      var d := Started(a.config, o, g.indention);
      ClosingMark(g, a.config.state, d.indents[|d.indents| - 1], o);
    }
  }

  lemma CommaLead(a: Desk, rest: seq<Event>, o: Options)
    requires rest != [] && (a.config.state.FlowSequenceItemState? || a.config.state.FlowMappingKeyState?)
    ensures a.page.text + [',' as nat] <= NodeStart(a.config, rest, o, a.page).text
  {
    hide ColumnOf, IndentText, IsSimpleKey;
    assert TextOf(",") == [',' as nat];
    assert a.page.text + [] + [',' as nat] == a.page.text + [',' as nat];
  }

  lemma ClosingMark(g: Page, k: State, outer: int, o: Options)
    requires k.FlowSequenceItemState? || k.FlowMappingKeyState?
    ensures
      var t := ClosePage(g, k, outer, o).text;
      g.text <= t && |g.text| < |t| && (t[|g.text|] == ',' as nat || t[|g.text|] == ']' as nat || t[|g.text|] == '}' as nat)
  {
    hide ColumnOf, IndentText;
    assert TextOf(",") == [',' as nat] && TextOf("]") == [']' as nat] && TextOf("}") == ['}' as nat];
  }

  /** The colon of a complex key in a flow mapping, on the line or on a new one. */
  ghost predicate IsValueTail(t: Text, b: LineBreak) {
    t == [] || ValueAt(t, [SPACE]) || exists n: nat :: ValueAt(t, BreakOf(b) + Spaces(n))
  }

  predicate ValueAt(t: Text, head: Text) {
    head + [COLON] <= t && IsApart(t[|head| + 1..])
  }

  lemma ValueTail(history: seq<Desk>, events: seq<Event>, o: Options, i: nat, j: nat)
    requires IsHistory(history, events, o) && i <= j < |history|
    requires history[i].config.state.FlowMappingValueState? && !history[i].page.whitespace && !history[i].page.indention
    ensures IsValueTail(Tail(history, i, j), o.lineBreak)
  {
    hide IsHistory, StepsTo, Fits, IsApart, LeadPage, NodeStart, NodeConfig, AfterMark;
    if i == j {
      NoTail(history, i);
    } else {
      StepOf(history, events, o, i);
      HistoryNests(history, events, o, i);
      var a, rest := history[i], events[i..];
      ValueIsNode(a, rest, o, history[i + 1]);
      var head, k := ValueLead(a, rest, o);
      AfterMarkApart(history, events, o, i, j);
      RunGrows(history, events, o, i, j);
      TailIs(history, i, j);
      HeadThen(a.page.text, head, history[j].page.text);
    }
  }

  lemma HeadThen(a: Text, head: Text, t: Text)
    requires a <= t && a + head + [COLON] <= t && IsApart(t[|a + head + [COLON]|..])
    ensures ValueAt(t[|a|..], head)
  {
    hide IsApart;
    assert t[|a|..][|head| + 1..] == t[|a + head + [COLON]|..];
    assert (a + head + [COLON])[|a|..] == head + [COLON];
  }

  lemma ValueLead(a: Desk, rest: seq<Event>, o: Options) returns (head: Text, n: nat)
    requires Fits(a.config) && rest != [] && BeginsNode(rest[0]) && a.config.state.FlowMappingValueState?
    requires !a.page.whitespace && !a.page.indention
    ensures head == [SPACE] || head == BreakOf(o.lineBreak) + Spaces(n)
    ensures
      var g := NodeStart(a.config, rest, o, a.page);
      && g.text == a.page.text + head + [COLON]
      && AfterMark(g, NodeConfig(a.config, rest, o, a.page.indention).indent)
  {
    hide ColumnOf, Fits;
    assert TextOf(":") == [COLON];
    var g, c := a.page, a.config;
    n := 0;
    if o.canonical || ColumnOf(g.text) > BestWidth(o) {
      n := if c.indent < 0 then 0 else c.indent;
      head := BreakOf(o.lineBreak) + Spaces(n);
      assert Lined(g, c.indent, o).text == g.text + head;
      assert g.text + head + [] + [COLON] == g.text + head + [COLON];
    } else {
      head := [SPACE];
    }
  }

  // ---- What follows on the next line ----

  function LineHead(breaks: bool, b: LineBreak, n: nat): Text {
    (if breaks then BreakOf(b) else []) + Spaces(n)
  }

  /** A new line that is not indented deeper than `limit`; outside the collections it holds
      the mark of a document, or nothing. */
  predicate LineAt(t: Text, head: Text, limit: int) {
    && head <= t && BeginsSolid(t[|head|..])
    && (limit >= 0 || t[|head|..] == [] || IsDocumentIndicator(t[|head|..]))
  }

  ghost predicate IsLineTail(t: Text, breaks: bool, b: LineBreak, limit: int) {
    t == [] || exists n: nat :: n <= BlockScanner.Max(limit, 0) && LineAt(t, LineHead(breaks, b, n), limit)
  }

  /** The text ends on a line of its own, or will be broken. */
  predicate AtLine(g: Page) {
    !g.indention || (g.whitespace && ColumnOf(g.text) == 0)
  }

  lemma LinedIs(g: Page, indent: int, o: Options)
    requires AtLine(g)
    ensures Lined(g, indent, o) == Page(g.text + LineHead(!g.indention, o.lineBreak, BlockScanner.Max(indent, 0)), true, true, g.openEnded)
  {
    hide ColumnOf;
    assert BreakOf(o.lineBreak) + Spaces(BlockScanner.Max(indent, 0)) == LineHead(true, o.lineBreak, BlockScanner.Max(indent, 0));
    assert [] + Spaces(BlockScanner.Max(indent, 0)) == Spaces(BlockScanner.Max(indent, 0));
  }

  lemma {:induction false} LineTail(history: seq<Desk>, events: seq<Event>, o: Options, i: nat, j: nat)
    requires IsHistory(history, events, o) && i <= j < |history|
    requires IsLineState(history[i].config.state) && AtLine(history[i].page)
    ensures IsLineTail(Tail(history, i, j), !history[i].page.indention, o.lineBreak, history[i].config.indent)
    decreases j - i
  {
    hide IsHistory, StepsTo, Fits, Settled, IsLineTail, AtLine;
    if i == j {
      NoTail(history, i);
      NoLineTail(!history[i].page.indention, o.lineBreak, history[i].config.indent);
    } else {
      StepOf(history, events, o, i);
      HistoryNests(history, events, o, i);
      RunSettles(history, events, o, i);
      var a, b, rest := history[i], history[i + 1], events[i..];
      LineStates(a, rest, o, b);
      if BeginsNode(rest[0]) {
        LineTailNode(history, events, o, i, j);
      } else if rest[0].DocumentEnd? {
        LineTailDocument(history, events, o, i, j);
      } else {
        LineEnds(a, rest, o, b);
        LineTail(history, events, o, i + 1, j);
        TailStep(history, events, o, i, j);
        assert Added(a.page, b.page) == [];
        assert [] + Tail(history, i + 1, j) == Tail(history, i + 1, j);
        LineTailWeaker(Tail(history, i, j), !a.page.indention, o.lineBreak, b.config.indent, a.config.indent);
      }
    }
  }

  lemma NoLineTail(breaks: bool, b: LineBreak, limit: int)
    ensures IsLineTail([], breaks, b, limit)
  {
  }

  lemma LineTailWeaker(t: Text, breaks: bool, b: LineBreak, limit: int, more: int)
    requires IsLineTail(t, breaks, b, limit) && limit <= more
    ensures IsLineTail(t, breaks, b, more)
  {
    if t != [] {
      var n: nat :| n <= BlockScanner.Max(limit, 0) && LineAt(t, LineHead(breaks, b, n), limit);
      assert LineAt(t, LineHead(breaks, b, n), more);
    }
  }

  lemma LineStates(a: Desk, rest: seq<Event>, o: Options, b: Desk)
    requires Fits(a.config) && rest != [] && StepsTo(a, rest, o, b) && IsLineState(a.config.state)
    ensures if a.config.state.DocumentEndState? then rest[0].DocumentEnd? else BeginsNode(rest[0]) || rest[0].SequenceEnd? || rest[0].MappingEnd?
    ensures !a.config.state.DocumentEndState? ==> IsInside(a.config.state) && IsBlock(a.config.state) && a.config.indent >= 0
    ensures a.config.state.DocumentEndState? ==> a.config.indent == -1
  {
    hide StepPage, IsProper;
    NextNests(a.config, rest, o, a.page.indention);
    hide Next, LevelsFit, NoBlockInFlow, EnteredIn, FlowsIn, DirectivesFit;
    if a.config.state.DocumentEndState? {
      FlatNesting(a.config);
    } else {
      EnteredFits(a.config);
    }
  }

  /** A block collection ends without a trace. */
  lemma LineEnds(a: Desk, rest: seq<Event>, o: Options, b: Desk)
    requires Fits(a.config) && rest != [] && StepsTo(a, rest, o, b) && (rest[0].SequenceEnd? || rest[0].MappingEnd?)
    requires IsLineState(a.config.state) && Settled(a.config, rest) && IsInside(a.config.state) && IsBlock(a.config.state)
    ensures b.page == a.page && IsLineState(b.config.state) && b.config.indent <= a.config.indent
  {
    hide StepsTo, Fits, Settled, ColumnOf;
    EndSteps(a, rest, o, b);
    PoppedLine(a.config, rest);
    OuterIsLess(a.config);
  }

  lemma OuterIsLess(c: Config)
    requires Fits(c) && IsEntered(c.state)
    ensures c.indents != [] ==> c.indents[|c.indents| - 1] <= c.indent
  {
    hide DirectivesFit, NoBlockInFlow, EnteredIn, FlowsIn;
    var levels := c.indents + [c.indent];
    if c.indents != [] {
      assert levels[|c.indents| - 1] <= levels[|c.indents|];
    }
  }

  lemma LineTailNode(history: seq<Desk>, events: seq<Event>, o: Options, i: nat, j: nat)
    requires IsHistory(history, events, o) && i < j < |history| && i < |events| && events[i..] != [] && BeginsNode(events[i..][0])
    requires Fits(history[i].config) && StepsTo(history[i], events[i..], o, history[i + 1])
    requires IsLineState(history[i].config.state) && IsInside(history[i].config.state) && IsBlock(history[i].config.state)
    requires AtLine(history[i].page) && history[i].config.indent >= 0
    ensures IsLineTail(Tail(history, i, j), !history[i].page.indention, o.lineBreak, history[i].config.indent)
  {
    hide IsHistory, StepsTo, Fits, AtLine, NodeStart, NodeConfig, NodePage, NodeText, Lined, BeginsSolid;
    var a, b, rest := history[i], history[i + 1], events[i..];
    var g := Lined(a.page, a.config.indent, o);
    LinedIs(a.page, a.config.indent, o);
    NodeSteps(a, rest, o, b);
    var s, x := NodeStart(a.config, rest, o, a.page), NodeConfig(a.config, rest, o, a.page.indention);
    NodeConfigIs(a.config, rest, o, a.page.indention);
    NodeGrows(s, rest[0], x, o);
    RunGrows(history, events, o, i + 1, j);
    RunGrows(history, events, o, i, j);
    TailIs(history, i, j);
    var t := history[j].page.text;
    LineMark(a, rest, o);
    if s == g {
      KeyThen(history, events, o, i, j, g);
    } else {
      MarkThen(g.text, s.text, t);
    }
    var n := a.config.indent;
    var head := LineHead(!a.page.indention, o.lineBreak, n);
    assert g.text == a.page.text + head;
    TailAfter(a.page.text, head, t);
    assert LineAt(t[|a.page.text|..], head, a.config.indent);
  }

  lemma TailAfter(a: Text, head: Text, t: Text)
    requires a + head <= t
    ensures a <= t && head <= t[|a|..] && t[|a|..][|head|..] == t[|a + head|..]
  {
    assert (a + head)[|a|..] == head;
  }

  lemma MarkThen(g: Text, s: Text, t: Text)
    requires g <= s <= t && |g| < |s| && IsSolid(s[|g|])
    ensures g <= t && BeginsSolid(t[|g|..])
  {
    assert t[|g|..][0] == t[|g|] == s[|g|];
  }

  /** A line of a block collection begins with its mark, or with a simple key. */
  lemma LineMark(a: Desk, rest: seq<Event>, o: Options)
    requires rest != [] && IsLineState(a.config.state) && IsInside(a.config.state) && IsBlock(a.config.state)
    ensures
      var s, g := NodeStart(a.config, rest, o, a.page), Lined(a.page, a.config.indent, o);
      if s == g then NodeConfig(a.config, rest, o, a.page.indention).simpleKeyContext
      else g.text <= s.text && |g.text| < |s.text| && IsSolid(s.text[|g.text|])
  {
    hide IndentText, ColumnOf, IsSimpleKey;
    assert TextOf("-") == [DASH] && TextOf("?") == ['?' as nat] && TextOf(":") == [COLON];
  }

  /** A simple key begins with a character of its own. */
  lemma KeyThen(history: seq<Desk>, events: seq<Event>, o: Options, i: nat, j: nat, g: Page)
    requires IsHistory(history, events, o) && i < j < |history| && i < |events| && events[i..] != [] && BeginsNode(events[i..][0])
    requires Fits(history[i].config) && StepsTo(history[i], events[i..], o, history[i + 1])
    requires
      var a, rest := history[i], events[i..];
      && g == NodeStart(a.config, rest, o, a.page) && g.whitespace
      && NodeConfig(a.config, rest, o, a.page.indention).simpleKeyContext
    ensures g.text <= history[j].page.text && BeginsSolid(history[j].page.text[|g.text|..])
  {
    hide IsHistory, StepsTo, Fits, NodeStart, NodeConfig, NodePage, NodeText, BeginsSolid, Tail, Settled, IsProper, PropertiesText, ChoiceOf, NodeNext,
      IsSimpleValue, IsLineState, ColumnOf;
    var a, b, rest := history[i], history[i + 1], events[i..];
    NodeSteps(a, rest, o, b);
    var e, x := rest[0], NodeConfig(a.config, rest, o, a.page.indention);
    NodeConfigIs(a.config, rest, o, a.page.indention);
    NodeBegins(e, x, o, PenOf(g));
    NodeGrows(g, e, x, o);
    RunGrows(history, events, o, i + 1, j);
    var t := history[j].page.text;
    SplitAt(g.text, b.page.text, t);
    var node := NodeText(e, x, o, PenOf(g));
    assert b.page.text[|g.text|..] == node;
    if node == [] {
      assert b.page.text == g.text;
      RunSettles(history, events, o, i + 1);
      EmptyKey(g, e, x, o, rest, b, events[i + 1..]);
      FlowOpens(history, events, o, i + 1, j);
      TailIs(history, i + 1, j);
    } else {
      SolidThen(node, t[|b.page.text|..]);
    }
  }

  lemma SolidThen(t: Text, u: Text)
    requires t != [] && BeginsSolid(t)
    ensures BeginsSolid(t + u)
  {
  }

  lemma EmptyKey(g: Page, e: Event, x: Config, o: Options, rest: seq<Event>, b: Desk, more: seq<Event>)
    requires (e.SequenceStart? || e.MappingStart?) && rest != [] && rest[0] == e && x.states != [] && IsSimpleValue(x.states[|x.states| - 1])
    requires NodeText(e, x, o, PenOf(g)) == [] && PropertiesText(e, x, o, PenOf(g)) == [] && g.whitespace
    requires NodeNext(x, rest, o.canonical) == Some(b.config) && b.page == NodePage(g, e, x, o) && Settled(b.config, more)
    ensures IsFirst(b.config.state) && IsFlow(b.config.state) && b.page.whitespace
  {
    hide NodeText, PropertiesText, ColumnOf;
    assert b.config.states == x.states;
  }

  lemma FlowOpens(history: seq<Desk>, events: seq<Event>, o: Options, i: nat, j: nat)
    requires IsHistory(history, events, o) && i <= j < |history|
    requires IsFirst(history[i].config.state) && IsFlow(history[i].config.state) && history[i].page.whitespace
    ensures BeginsSolid(Tail(history, i, j))
  {
    hide IsHistory, StepsTo, Fits, OpenedPage;
    if i == j {
      NoTail(history, i);
    } else {
      StepOf(history, events, o, i);
      HistoryNests(history, events, o, i);
      var a, b, rest := history[i], history[i + 1], events[i..];
      FlowFirstGrows(a, rest, o, b);
      OpensSolid(a.page, a.config.state, o);
      RunGrows(history, events, o, i + 1, j);
      RunGrows(history, events, o, i, j);
      TailIs(history, i, j);
      MarkThen(a.page.text, OpenedPage(a.page, a.config.state).text, history[j].page.text);
    }
  }

  lemma OpensSolid(g: Page, k: State, o: Options)
    requires IsFirst(k) && IsFlow(k) && g.whitespace
    ensures var t := OpenedPage(g, k).text; g.text <= t && |g.text| < |t| && IsSolid(t[|g.text|])
  {
    hide ColumnOf;
    assert TextOf("[") == ['[' as nat] && TextOf("{") == ['{' as nat];
  }

  // ---- Documents ----

  /** Between two documents, the first of which was left open. */
  predicate BetweenDocuments(c: Config, g: Page) {
    c.state.DocumentStartState? && g.whitespace && g.indention && ColumnOf(g.text) == 0 && g.openEnded != 0
  }

  predicate IsDocumentTail(t: Text) {
    t == [] || IsDocumentIndicator(t)
  }

  lemma DocumentTail(history: seq<Desk>, events: seq<Event>, o: Options, i: nat, j: nat)
    requires IsHistory(history, events, o) && i <= j < |history| && BetweenDocuments(history[i].config, history[i].page)
    ensures IsDocumentTail(Tail(history, i, j))
  {
    hide IsHistory, StepsTo, Fits, BetweenDocuments, IsDocumentIndicator, IsApart;
    if i == j {
      NoTail(history, i);
    } else {
      StepOf(history, events, o, i);
      HistoryNests(history, events, o, i);
      TailStep(history, events, o, i, j);
      var a, b, rest := history[i], history[i + 1], events[i..];
      var mark, more := DocumentMark(a, rest, o, b);
      assert Added(a.page, b.page) == mark + more;
      if mark == [] {
        NothingFollows(history, events, o, i + 1, j);
      } else {
        if more == [] {
          TailApart(history, events, o, i + 1, j);
          assert [] + Tail(history, i + 1, j) == Tail(history, i + 1, j);
        } else {
          StaysApart(more, Tail(history, i + 1, j));
        }
        Assoc(mark, more, Tail(history, i + 1, j));
        IndicatorThen(mark, more + Tail(history, i + 1, j));
      }
    }
  }

  lemma IndicatorThen(mark: Text, t: Text)
    requires (mark == [DASH, DASH, DASH] || mark == [DOT, DOT, DOT]) && IsApart(t)
    ensures IsDocumentIndicator(mark + t)
  {
  }

  lemma NothingFollows(history: seq<Desk>, events: seq<Event>, o: Options, i: nat, j: nat)
    requires IsHistory(history, events, o) && i <= j < |history| && history[i].config.state.EndState?
    ensures Tail(history, i, j) == []
  {
    hide IsHistory, StepsTo, Fits;
    if i == j {
      NoTail(history, i);
    } else {
      StepOf(history, events, o, i);
      HistoryNests(history, events, o, i);
      StepNests(history[i], events[i..], o, history[i + 1]);
      assert false;
    }
  }

  /** The step from one document to the next, or to the end. */
  lemma DocumentMark(a: Desk, rest: seq<Event>, o: Options, b: Desk) returns (mark: Text, more: Text)
    requires Fits(a.config) && rest != [] && StepsTo(a, rest, o, b) && BetweenDocuments(a.config, a.page)
    ensures b.page.text == a.page.text + (mark + more) && IsApart(more)
    ensures mark == [] || mark == [DASH, DASH, DASH] || mark == [DOT, DOT, DOT]
    ensures mark == [] ==> more == [] && b.config.state.EndState?
    ensures mark != [] && more == [] ==> Separates(b.config, b.page)
  {
    hide Fits, StepPage, IsProper;
    NextNests(a.config, rest, o, a.page.indention);
    FlatNesting(a.config);
    StartNext(a.config, rest, o, a.page.indention);
    DocumentStartPage(a.config, rest, o, a.page);
    hide Next;
    if rest[0].DocumentStart? {
      mark, more := NextDocument(a.page, rest[0], o);
    } else {
      mark, more := LastDocument(a.page, o);
    }
  }

  lemma LastDocument(g: Page, o: Options) returns (mark: Text, more: Text)
    requires g.whitespace && g.indention && ColumnOf(g.text) == 0
    ensures StreamEndPage(g, -1, o).text == g.text + (mark + more) && IsApart(more)
    ensures if mark == [] then more == [] else mark == [DOT, DOT, DOT] && more != []
  {
    hide ColumnOf;
    assert TextOf("...") == [DOT, DOT, DOT];
    if g.openEnded == 2 {
      mark := [DOT, DOT, DOT];
      var m := Marked(g, "...", true, false, false).(openEnded := 0);
      LinedIs(m, -1, o);
      more := LineHead(true, o.lineBreak, 0);
      assert g.text + [] + mark == g.text + mark;
      assert (g.text + mark) + more == g.text + (mark + more);
      HeadApart(o.lineBreak, 0, []);
    } else {
      mark, more := [], [];
      assert g.text + ([] + []) == g.text;
    }
  }

  lemma HeadApart(b: LineBreak, n: nat, t: Text)
    ensures LineHead(true, b, n) + t != [] && IsApart(LineHead(true, b, n) + t)
  {
  }

  lemma NextDocument(g: Page, e: Event, o: Options) returns (mark: Text, more: Text)
    requires e.DocumentStart? && g.whitespace && g.indention && ColumnOf(g.text) == 0 && g.openEnded != 0
    ensures
      var p := StartPage(g, e, false, -1, o);
      && p.text == g.text + (mark + more) && IsApart(more) && (mark == [DASH, DASH, DASH] || mark == [DOT, DOT, DOT])
      && (more == [] ==> !p.whitespace && !p.indention)
  {
    if e.version.Some? || e.tagDirectives != [] {
      mark, more := DirectedDocument(g, e, o);
    } else {
      mark, more := PlainDocument(g, e, o);
    }
  }

  lemma DirectedDocument(g: Page, e: Event, o: Options) returns (mark: Text, more: Text)
    requires e.DocumentStart? && g.whitespace && g.openEnded != 0 && (e.version.Some? || e.tagDirectives != [])
    ensures StartPage(g, e, false, -1, o).text == g.text + (mark + more) && IsApart(more) && mark == [DOT, DOT, DOT] && more != []
  {
    hide Lined, Marked, DirectivesPage, VersionPage, IsApart, LineHead;
    mark := [DOT, DOT, DOT];
    var closed := Lined(Marked(g, "...", true, false, false), -1, o);
    DotsThen(g, o);
    VersionGrows(closed.(openEnded := 0), e.version, -1, o);
    var versioned := VersionPage(closed.(openEnded := 0), e.version, -1, o);
    DirectivesGrow(versioned, e.tagDirectives, -1, o);
    BodyGrows(DirectivesPage(versioned, e.tagDirectives, -1, o), -1, o);
    var t := StartPage(g, e, false, -1, o).text;
    assert closed.text <= t;
    var u := t[|closed.text|..];
    var head := LineHead(true, o.lineBreak, 0);
    more := head + u;
    HeadApart(o.lineBreak, 0, u);
    assert t == closed.text + u;
    assert g.text + (mark + head) + u == g.text + (mark + (head + u));
  }

  lemma DotsThen(g: Page, o: Options)
    requires g.whitespace
    ensures Lined(Marked(g, "...", true, false, false), -1, o).text == g.text + ([DOT, DOT, DOT] + LineHead(true, o.lineBreak, 0))
  {
    hide ColumnOf;
    assert TextOf("...") == [DOT, DOT, DOT];
    var m := Marked(g, "...", true, false, false);
    assert m.text == g.text + [DOT, DOT, DOT];
    LinedIs(m, -1, o);
    assert (g.text + [DOT, DOT, DOT]) + LineHead(true, o.lineBreak, 0) == g.text + ([DOT, DOT, DOT] + LineHead(true, o.lineBreak, 0));
  }

  lemma PlainDocument(g: Page, e: Event, o: Options) returns (mark: Text, more: Text)
    requires e.DocumentStart? && g.whitespace && g.indention && ColumnOf(g.text) == 0 && e.version.None? && e.tagDirectives == []
    ensures
      var p := StartPage(g, e, false, -1, o);
      && p.text == g.text + (mark + more) && IsApart(more) && mark == [DASH, DASH, DASH]
      && (more == [] ==> !p.whitespace && !p.indention)
  {
    hide ColumnOf, Marked, Lined, LineHead, IsApart;
    mark := [DASH, DASH, DASH];
    var h := g.(openEnded := 0);
    var started := Marked(Lined(h, -1, o), "---", true, false, false);
    DashesThen(h, o);
    NoHeader(h, e, o);
    if o.canonical {
      more := LineHead(true, o.lineBreak, 0);
      HeadApart(o.lineBreak, 0, []);
      assert more + [] == more;
      assert (g.text + mark) + more == g.text + (mark + more);
    } else {
      more := [];
      NothingApart();
      assert g.text + (mark + []) == g.text + mark;
    }
  }

  lemma NoHeader(g: Page, e: Event, o: Options)
    requires e.DocumentStart? && e.version.None? && e.tagDirectives == []
    ensures DirectivesPage(VersionPage(g, e.version, -1, o), e.tagDirectives, -1, o) == g
  {
    hide Marked, Lined, DirectivePage;
  }

  lemma DashesThen(g: Page, o: Options)
    requires g.whitespace && g.indention && ColumnOf(g.text) == 0
    ensures
      var started := Marked(Lined(g, -1, o), "---", true, false, false);
      && started.text == g.text + [DASH, DASH, DASH] && !started.whitespace && !started.indention
      && Lined(started, -1, o).text == started.text + LineHead(true, o.lineBreak, 0)
  {
    hide ColumnOf, Lined;
    assert TextOf("---") == [DASH, DASH, DASH];
    LinedIs(g, -1, o);
    assert LineHead(false, o.lineBreak, 0) == [];
    assert g.text + [] == g.text && g.text + [] + [DASH, DASH, DASH] == g.text + [DASH, DASH, DASH];
    LinedIs(Marked(Lined(g, -1, o), "---", true, false, false), -1, o);
  }

  lemma LineTailDocument(history: seq<Desk>, events: seq<Event>, o: Options, i: nat, j: nat)
    requires IsHistory(history, events, o) && i < j < |history| && i < |events| && events[i..] != [] && events[i..][0].DocumentEnd?
    requires Fits(history[i].config) && StepsTo(history[i], events[i..], o, history[i + 1])
    requires history[i].config.state.DocumentEndState? && AtLine(history[i].page) && history[i].config.indent == -1
    ensures IsLineTail(Tail(history, i, j), !history[i].page.indention, o.lineBreak, -1)
  {
    hide IsHistory, StepsTo, Fits, Tail, IsDocumentIndicator, AtLine, IsApart, BeginsSolid;
    var a, b, rest := history[i], history[i + 1], events[i..];
    TailStep(history, events, o, i, j);
    var head := LineHead(!a.page.indention, o.lineBreak, 0);
    var mark, more := DocumentEnds(a, rest, o, b);
    assert Added(a.page, b.page) == head + (mark + more);
    var t := Tail(history, i + 1, j);
    if mark == [] {
      assert head + ([] + []) == head;
      DocumentTail(history, events, o, i + 1, j);
      DocumentLine(head, t);
    } else {
      StaysApart(more, t);
      IndicatorThen(mark, more + t);
      assert head + (mark + more) + t == head + (mark + (more + t));
      DocumentLine(head, mark + (more + t));
    }
    assert 0 <= BlockScanner.Max(-1, 0) && LineAt(Tail(history, i, j), LineHead(!a.page.indention, o.lineBreak, 0), -1);
  }

  lemma DocumentLine(head: Text, t: Text)
    requires IsDocumentTail(t)
    ensures LineAt(head + t, head, -1)
  {
    assert (head + t)[|head|..] == t;
  }

  lemma DocumentEnds(a: Desk, rest: seq<Event>, o: Options, b: Desk) returns (mark: Text, more: Text)
    requires Fits(a.config) && rest != [] && StepsTo(a, rest, o, b) && rest[0].DocumentEnd?
    requires a.config.state.DocumentEndState? && AtLine(a.page) && a.config.indent == -1
    ensures b.page.text == a.page.text + (LineHead(!a.page.indention, o.lineBreak, 0) + (mark + more))
    ensures if mark == [] then more == [] && BetweenDocuments(b.config, b.page) else mark == [DOT, DOT, DOT] && more != [] && IsApart(more)
  {
    hide Fits, StepPage, ColumnOf, AtLine, Lined, Next, LineHead, IsApart, BetweenDocuments;
    OutsideNext(a.config, rest, o, a.page.indention);
    DocumentEndPage(a.config, rest, o, a.page);
    LinedIs(a.page, -1, o);
    var g, head := Lined(a.page, -1, o), LineHead(!a.page.indention, o.lineBreak, 0);
    if rest[0].implicit {
      mark, more := [], [];
      assert a.page.text + (head + ([] + [])) == a.page.text + head;
      LinedIsLine(a.page, o);
      LeftOpen(b.config, b.page);
    } else {
      mark, more := [DOT, DOT, DOT], LineHead(true, o.lineBreak, 0);
      DotsPageIs(g, o);
      HeadApart(o.lineBreak, 0, []);
      assert more + [] == more;
      assert (a.page.text + head) + (mark + more) == a.page.text + (head + (mark + more));
    }
  }

  lemma LeftOpen(c: Config, g: Page)
    requires c.state.DocumentStartState? && g.whitespace && g.indention && ColumnOf(g.text) == 0 && g.openEnded != 0
    ensures BetweenDocuments(c, g)
  {
  }

  lemma DotsPageIs(g: Page, o: Options)
    requires g.whitespace
    ensures DotsPage(g, -1, o).text == g.text + ([DOT, DOT, DOT] + LineHead(true, o.lineBreak, 0))
  {
    hide Lined, LineHead, Marked;
    DotsThen(g, o);
    LinedSame(Marked(g, "...", true, false, false), o);
  }

  lemma LinedSame(g: Page, o: Options)
    ensures Lined(g.(openEnded := 0), -1, o).text == Lined(g, -1, o).text
  {
    hide IndentText, ColumnOf;
  }

  lemma LinedIsLine(g: Page, o: Options)
    requires AtLine(g)
    ensures ColumnOf(Lined(g, -1, o).text) == 0
  {
    hide AtLine;
    var line := Lined(g, 0, o);
    LinedColumn(g, 0, o);
    assert Lined(g, -1, o) == line;
  }

  // ---- Columns ----

  lemma {:induction false} ColumnOnLine(t: Text, u: Text)
    requires SimpleKeys.OnOneLine(u)
    ensures ColumnOf(t + u) == ColumnOf(t) + |u|
    decreases |u|
  {
    hide IsBreak;
    if u == [] {
      assert t + u == t;
    } else {
      var v, last := u[..|u| - 1], u[|u| - 1];
      assert t + u == (t + v) + [last];
      ColumnOfSnoc(t + v, last);
      ColumnOnLine(t, v);
    }
  }

  /** A value that follows a simple key of a block mapping is behind its column. */
  predicate HoldsColumn(c: Config, g: Page) {
    (|| c.state.BlockMappingSimpleValueState?
     || (IsFirst(c.state) && IsFlow(c.state) && c.states != [] && c.states[|c.states| - 1].BlockMappingSimpleValueState?))
    ==> ColumnOf(g.text) >= c.indent
  }

  lemma {:induction false} RunHoldsColumn(history: seq<Desk>, events: seq<Event>, o: Options, n: nat)
    requires IsHistory(history, events, o) && n < |history|
    ensures HoldsColumn(history[n].config, history[n].page)
    decreases n
  {
    hide StepsTo, Suffices, Fits, Settled, HoldsColumn;
    if n == 0 {
      InitialHolds();
    } else {
      RunHoldsColumn(history, events, o, n - 1);
      HistoryNests(history, events, o, n - 1);
      RunSettles(history, events, o, n - 1);
      StepOf(history, events, o, n - 1);
      ColumnStep(history[n - 1], events[n - 1..], o, history[n]);
    }
  }

  lemma InitialHolds()
    ensures HoldsColumn(INITIAL, BLANK_PAGE)
  {
  }

  lemma ColumnStep(a: Desk, rest: seq<Event>, o: Options, b: Desk)
    requires Fits(a.config) && rest != [] && StepsTo(a, rest, o, b) && Settled(a.config, rest) && HoldsColumn(a.config, a.page)
    ensures HoldsColumn(b.config, b.page)
  {
    hide StepsTo, Fits, Settled, HoldsColumn;
    var e := rest[0];
    if BeginsNode(e) {
      KeyColumn(a, rest, o, b);
    } else if e.SequenceEnd? || e.MappingEnd? {
      EndColumn(a, rest, o, b);
    } else {
      SettledOutside(a, rest, o, b);
      OutsideHolds(a, rest, o, b);
    }
  }

  lemma OutsideHolds(a: Desk, rest: seq<Event>, o: Options, b: Desk)
    requires Fits(a.config) && rest != [] && StepsTo(a, rest, o, b)
    requires !BeginsNode(rest[0]) && !rest[0].SequenceEnd? && !rest[0].MappingEnd?
    requires b.config.states == []
    ensures HoldsColumn(b.config, b.page)
  {
    hide Next, StepPage, IsProper, ColumnOf;
    HistoryFits(a, rest, o, b);
    hide LevelsFit, NoBlockInFlow, EnteredIn, FlowsIn, DirectivesFit;
  }

  lemma HistoryFits(a: Desk, rest: seq<Event>, o: Options, b: Desk)
    requires Fits(a.config) && rest != [] && StepsTo(a, rest, o, b)
    ensures Fits(b.config)
  {
    hide StepsTo, Fits;
    StepNests(a, rest, o, b);
  }

  lemma KeyColumn(a: Desk, rest: seq<Event>, o: Options, b: Desk)
    requires Fits(a.config) && rest != [] && StepsTo(a, rest, o, b) && BeginsNode(rest[0])
    ensures HoldsColumn(b.config, b.page)
  {
    hide StepsTo, ColumnOf, NodeText, NodePage, IsProper, IsSimpleKey;
    NodeSteps(a, rest, o, b);
    var c, e := a.config, rest[0];
    var x, s := NodeConfig(c, rest, o, a.page.indention), NodeStart(c, rest, o, a.page);
    NodeConfigIs(c, rest, o, a.page.indention);
    if x.simpleKeyContext && x.states[|x.states| - 1].BlockMappingSimpleValueState? {
      SimpleKeyPlace(a, rest, o);
      LinedColumn(a.page, x.indent, o);
      NodeGrows(s, e, x, o);
      SimpleKeys.SimpleKeyIsShort(rest, x, o, PenOf(s));
      KeyOnLine(e, x, o, PenOf(s));
      ColumnOnLine(s.text, NodeText(e, x, o, PenOf(s)));
    } else {
      NodeStack(c, rest, o, a.page.indention);
      NoSimpleKey(x, rest, o, b.config);
    }
  }

  lemma KeyOnLine(e: Event, x: Config, o: Options, p: Pen)
    requires BeginsNode(e) && SimpleKeys.OnOneLine(SimpleKeys.KeyText(e, x, o, p))
    ensures SimpleKeys.OnOneLine(NodeText(e, x, o, p))
  {
    hide NodeText, IsBreak;
    var t := NodeText(e, x, o, p);
    assert forall i | 0 <= i < |t| :: SimpleKeys.KeyText(e, x, o, p)[i] == t[i];
  }

  /** A simple key of a block mapping begins its line. */
  lemma SimpleKeyPlace(a: Desk, rest: seq<Event>, o: Options)
    requires Fits(a.config) && rest != [] && BeginsNode(rest[0]) && (IsInside(a.config.state) || a.config.state.DocumentContentState?)
    requires
      var x := NodeConfig(a.config, rest, o, a.page.indention);
      x.simpleKeyContext && x.states != [] && x.states[|x.states| - 1].BlockMappingSimpleValueState?
    ensures
      var x := NodeConfig(a.config, rest, o, a.page.indention);
      && x.indent >= 0 && IsSimpleKey(rest, o.canonical, x.tagDirectives)
      && NodeStart(a.config, rest, o, a.page) == Lined(a.page, x.indent, o)
  {
    hide ColumnOf, Lined, IsSimpleKey, Fits, Started, LeadPage, TakesSimpleKey;
    KeyStateIs(a.config, rest, o, a.page.indention);
    StartedFits(a.config, o, a.page.indention);
    var d := Started(a.config, o, a.page.indention);
    TakenKey(d.state, rest, o.canonical, d.tagDirectives);
    KeyLead(a.page, a.config.state, d.indent, o);
  }

  lemma KeyStateIs(c: Config, rest: seq<Event>, o: Options, indention: bool)
    requires rest != [] && (IsInside(c.state) || c.state.DocumentContentState?)
    requires
      var x := NodeConfig(c, rest, o, indention);
      x.simpleKeyContext && x.states != [] && x.states[|x.states| - 1].BlockMappingSimpleValueState?
    ensures c.state.BlockMappingFirstKeyState? || c.state.BlockMappingKeyState?
    ensures var d := Started(c, o, indention); TakesSimpleKey(d.state, rest, o.canonical, d.tagDirectives)
  {
    hide IsSimpleKey, Deeper;
  }

  lemma TakenKey(k: State, rest: seq<Event>, canonical: bool, directives: seq<TagDirective>)
    requires TakesSimpleKey(k, rest, canonical, directives)
    ensures IsSimpleKey(rest, canonical, directives)
  {
  }

  lemma KeyLead(g: Page, k: State, indent: int, o: Options)
    requires k.BlockMappingFirstKeyState? || k.BlockMappingKeyState?
    ensures LeadPage(g, k, indent, true, o) == Lined(g, indent, o)
  {
    hide Lined, Marked;
  }

  lemma NoSimpleKey(x: Config, rest: seq<Event>, o: Options, d: Config)
    requires x.states != [] && rest != [] && NodeNext(x, rest, o.canonical) == Some(d)
    requires !x.states[|x.states| - 1].BlockMappingSimpleValueState? && !IsFirst(x.states[|x.states| - 1])
    ensures !d.state.BlockMappingSimpleValueState?
    ensures IsFirst(d.state) ==> d.states == x.states
  {
  }

  lemma EndColumn(a: Desk, rest: seq<Event>, o: Options, b: Desk)
    requires Fits(a.config) && rest != [] && StepsTo(a, rest, o, b) && (rest[0].SequenceEnd? || rest[0].MappingEnd?)
    requires Settled(a.config, rest) && HoldsColumn(a.config, a.page)
    ensures HoldsColumn(b.config, b.page)
  {
    hide StepsTo, ColumnOf, ClosePage;
    EndSteps(a, rest, o, b);
    StacksEntered(a.config);
    hide Fits;
    if b.config.state.BlockMappingSimpleValueState? {
      EmptyColumn(a.page, a.config.state, a.config.indent, o);
    }
  }

  /** The brackets of an empty collection stay on the line. */
  lemma EmptyColumn(g: Page, k: State, outer: int, o: Options)
    requires IsFirst(k) && IsFlow(k)
    ensures ColumnOf(ClosePage(g, k, outer, o).text) >= ColumnOf(g.text)
  {
    assert TextOf("[") == ['[' as nat] && TextOf("]") == [']' as nat] && TextOf("{") == ['{' as nat] && TextOf("}") == ['}' as nat];
    var t := ClosePage(g, k, outer, o).text;
    var space := Tags.Spacer(PenOf(g));
    var marks := if IsSequenceState(k) then ['[' as nat, ']' as nat] else ['{' as nat, '}' as nat];
    assert t == g.text + (space + marks);
    hide ColumnOf;
    ColumnOnLine(g.text, space + marks);
  }

  lemma StartColumn(history: seq<Desk>, events: seq<Event>, o: Options, n: nat)
    requires IsHistory(history, events, o) && n + 1 < |history| && events[n..] != [] && BeginsNode(events[n..][0])
    ensures
      var a, rest := history[n], events[n..];
      var x := NodeConfig(a.config, rest, o, a.page.indention);
      x.flowLevel == 0 ==> ColumnOf(NodeStart(a.config, rest, o, a.page).text) >= x.indent
  {
    hide IsHistory, StepsTo, Fits, HoldsColumn, NodeStart, NodeConfig;
    StepOf(history, events, o, n);
    HistoryNests(history, events, o, n);
    RunHoldsColumn(history, events, o, n);
    var a, rest := history[n], events[n..];
    NodeSteps(a, rest, o, history[n + 1]);
    LeadColumn(a, rest, o);
  }

  lemma LeadColumn(a: Desk, rest: seq<Event>, o: Options)
    requires Fits(a.config) && rest != [] && BeginsNode(rest[0]) && HoldsColumn(a.config, a.page)
    requires IsInside(a.config.state) || a.config.state.DocumentContentState?
    ensures
      var x := NodeConfig(a.config, rest, o, a.page.indention);
      x.flowLevel == 0 ==> ColumnOf(NodeStart(a.config, rest, o, a.page).text) >= x.indent
  {
    hide ColumnOf, IndentText, IsSimpleKey, Fits;
    var c, g := a.config, a.page;
    if c.state.DocumentContentState? {
      RootIndent(c);
    } else {
      StartedFits(c, o, g.indention);
      var d := Started(c, o, g.indention);
      if d.flowLevel == 0 {
        if c.state.BlockMappingSimpleValueState? {
          assert TextOf(":") == [COLON];
          assert g.text + [] + [COLON] == g.text + [COLON];
          ColumnOnLine(g.text, [COLON]);
        } else {
          LinedColumn(g, d.indent, o);
          MarkedColumn(Lined(g, d.indent, o));
        }
      }
    }
  }

  lemma MarkedColumn(g: Page)
    requires g.whitespace
    ensures ColumnOf(Marked(g, "-", true, false, true).text) == ColumnOf(g.text) + 1
    ensures ColumnOf(Marked(g, "?", true, false, true).text) == ColumnOf(g.text) + 1
    ensures ColumnOf(Marked(g, ":", true, false, true).text) == ColumnOf(g.text) + 1
  {
    assert TextOf("-") == [DASH] && TextOf("?") == ['?' as nat] && TextOf(":") == [COLON];
    assert forall c: nat :: g.text + [] + [c] == g.text + [c];
    ColumnOfSnoc(g.text, DASH);
    ColumnOfSnoc(g.text, '?' as nat);
    ColumnOfSnoc(g.text, COLON);
    hide ColumnOf;
  }

  // ---- Every scalar of a run is read back ----

  /** What stands before the content of a node: its lead and its properties. */
  ghost function Before(a: Desk, rest: seq<Event>, o: Options): Text
    requires rest != [] && BeginsNode(rest[0])
  {
    var g := NodeStart(a.config, rest, o, a.page);
    g.text + PropertiesText(rest[0], NodeConfig(a.config, rest, o, a.page.indention), o, PenOf(g))
  }

  ghost function ScalarPen(a: Desk, rest: seq<Event>, o: Options): Pen
    requires rest != [] && BeginsNode(rest[0])
  {
    var g := NodeStart(a.config, rest, o, a.page);
    Tags.AfterProperty(PenOf(g), PropertiesText(rest[0], NodeConfig(a.config, rest, o, a.page.indention), o, PenOf(g)))
  }

  function ScalarSettings(x: Config, o: Options): Settings {
    SettingsAt(Deeper(x.indent, BestIndent(o), true, false), o, !x.simpleKeyContext)
  }

  ghost function Written(a: Desk, rest: seq<Event>, o: Options): Text
    requires rest != [] && rest[0].Scalar?
    requires ChoiceOf(rest[0], NodeConfig(a.config, rest, o, a.page.indention), o).Chosen?
  {
    var x := NodeConfig(a.config, rest, o, a.page.indention);
    ScalarText(ChoiceOf(rest[0], x, o).style, TextOf(rest[0].value), ScalarPen(a, rest, o), ScalarSettings(x, o), x.flowLevel > 0, BestIndent(o))
  }

  lemma ScalarStep(a: Desk, rest: seq<Event>, o: Options, b: Desk)
    requires Fits(a.config) && rest != [] && rest[0].Scalar? && StepsTo(a, rest, o, b)
    ensures
      var e, x := rest[0], NodeConfig(a.config, rest, o, a.page.indention);
      var choice := ChoiceOf(e, x, o);
      && (IsInside(a.config.state) || a.config.state.DocumentContentState?) && x.states != [] && IsProper(e, o.canonical)
      && choice.Chosen? && b.config == Back(x)
      && b.page.text == Before(a, rest, o) + Written(a, rest, o)
      && b.page.whitespace == IsBlockStyle(choice.style)
      && b.page.indention == (IsBlockStyle(choice.style) && LiteralScalars.LeavesLine(TextOf(e.value)))
  {
    hide Fits, StepsTo, ScalarText, PropertiesText, NodeConfig, NodeStart, ChoiceOf, IsProper, ColumnOf;
    NodeSteps(a, rest, o, b);
    var e, x, g := rest[0], NodeConfig(a.config, rest, o, a.page.indention), NodeStart(a.config, rest, o, a.page);
    ChoiceFits(e, x, o);
    Assoc(g.text, PropertiesText(e, x, o, PenOf(g)), Written(a, rest, o));
  }

  /** The state that a scalar leaves is one of its collection. */
  lemma ScalarLeaves(c: Config, rest: seq<Event>, o: Options, indention: bool)
    requires Fits(c) && rest != [] && BeginsNode(rest[0]) && (IsInside(c.state) || c.state.DocumentContentState?)
    ensures
      var x := NodeConfig(c, rest, o, indention);
      && x.states != []
      && var k := x.states[|x.states| - 1];
         if x.flowLevel > 0 then IsFlow(k) && IsEntered(k)
         else if x.simpleKeyContext then k.BlockMappingSimpleValueState?
         else IsLineState(k)
  {
    hide IsSimpleKey, Fits;
    if IsInside(c.state) {
      StartedFits(c, o, indention);
    } else {
      RootIndent(c);
    }
  }

  /** What follows a scalar in a run is what its style allows; `parserIndent` is the indentation of the
      collection that holds it. */
  lemma ScalarContinues(history: seq<Desk>, events: seq<Event>, o: Options, n: nat, m: nat, parserIndent: int)
    requires IsHistory(history, events, o) && n < m < |history| && events[n].Scalar?
    requires
      var x := NodeConfig(history[n].config, events[n..], o, history[n].page.indention);
      parserIndent >= -1 && (parserIndent == x.indent || x.simpleKeyContext || x.flowLevel > 0)
    ensures
      var a, e, rest := history[n], events[n], events[n..];
      var x := NodeConfig(a.config, rest, o, a.page.indention);
      var choice := ChoiceOf(e, x, o);
      && choice.Chosen?
      && AllowsTail(choice.style, Tail(history, n + 1, m), TextOf(e.value), ScalarSettings(x, o), x.flowLevel > 0, parserIndent)
  {
    hide IsHistory, Fits, StepsTo, NodeConfig, NodeStart, ChoiceOf, IsProper, Tail, Before, Written, AllowsTail, LiteralScalars.LiteralAllowed,
      PlainScalars.PlainAllowed, LiteralScalars.LeavesLine;
    StepOf(history, events, o, n);
    HistoryNests(history, events, o, n);
    var a, b, rest := history[n], history[n + 1], events[n..];
    var e, x := rest[0], NodeConfig(a.config, rest, o, a.page.indention);
    ScalarStep(a, rest, o, b);
    ChoiceFits(e, x, o);
    ScalarLeaves(a.config, rest, o, a.page.indention);
    NodeConfigIs(a.config, rest, o, a.page.indention);
    var style, value, t := ChoiceOf(e, x, o).style, TextOf(e.value), Tail(history, n + 1, m);
    var l := ScalarSettings(x, o);
    if x.flowLevel > 0 {
      FlowContinues(history, events, o, n + 1, m, style, value, l, parserIndent);
    } else if x.simpleKeyContext {
      ColonTail(history, events, o, n + 1, m);
      ColonContinues(style, t, value, l, false, parserIndent);
    } else {
      LiteralIsText(value, style, o.unicode);
      PageAtLine(a, rest, o, b);
      LineTail(history, events, o, n + 1, m);
      LineContinues(style, t, value, l, o, parserIndent);
    }
  }

  lemma LiteralIsText(value: Text, style: ScalarStyle, unicode: bool)
    requires IsBlockStyle(style) ==> LiteralScalars.LiteralAllowed(value, unicode)
    ensures IsBlockStyle(style) ==> value != []
  {
  }

  predicate EndsWithBreak(t: Text) {
    t != [] && IsBreak(t[|t| - 1])
  }

  lemma LongerEnds(a: Text, b: Text)
    requires EndsWithBreak(b)
    ensures EndsWithBreak(a + b)
  {
  }

  lemma BreakEnds(c: nat, b: LineBreak)
    requires IsBreak(c)
    ensures EndsWithBreak(BreakAs(c, b))
  {
  }

  lemma {:induction false} LiteralEndsLine(s: Text, p: Pen, breaks: bool, l: Settings)
    requires EndsWithBreak(s)
    ensures EndsWithBreak(LiteralScalars.Body(s, p, breaks, l))
    decreases |s|
  {
    hide IndentText, BreakAs, IsBreak;
    if IsBreak(s[0]) {
      BreakEnds(s[0], l.lineBreak);
      var tail := LiteralScalars.Body(s[1..], Pen(0, p.whitespace, true), true, l);
      if |s| == 1 {
        assert BreakAs(s[0], l.lineBreak) + [] == BreakAs(s[0], l.lineBreak);
      } else {
        LiteralEndsLine(s[1..], Pen(0, p.whitespace, true), true, l);
        LongerEnds(BreakAs(s[0], l.lineBreak), tail);
      }
    } else {
      var next := Move(if breaks then Indented(l) else p, 1).(indention := false);
      LiteralEndsLine(s[1..], next, false, l);
      LongerEnds((if breaks then IndentText(l, p) else []) + [s[0]], LiteralScalars.Body(s[1..], next, false, l));
    }
  }

  lemma {:induction false} FoldedEndsLine(s: Text, at: FoldedScalars.Place, l: Settings)
    requires EndsWithBreak(s)
    ensures EndsWithBreak(FoldedScalars.Body(s, at, l))
    decreases |s|
  {
    hide FoldedScalars.Next, FoldedScalars.Piece, IsBreak;
    var tail := FoldedScalars.Body(s[1..], FoldedScalars.Next(s, at, l), l);
    if |s| == 1 {
      LastPiece(s, at, l);
      assert FoldedScalars.Piece(s, at, l) + [] == FoldedScalars.Piece(s, at, l);
    } else {
      FoldedEndsLine(s[1..], FoldedScalars.Next(s, at, l), l);
      LongerEnds(FoldedScalars.Piece(s, at, l), tail);
    }
  }

  lemma LastPiece(s: Text, at: FoldedScalars.Place, l: Settings)
    requires s != [] && IsBreak(s[0])
    ensures EndsWithBreak(FoldedScalars.Piece(s, at, l))
  {
    BreakEnds(s[0], l.lineBreak);
    LongerEnds(if FoldedScalars.Doubles(s, at) then BreakOf(l.lineBreak) else [], BreakAs(s[0], l.lineBreak));
  }

  lemma BlockEndsLine(style: ScalarStyle, value: Text, p: Pen, l: Settings, inFlow: bool, bestIndent: nat)
    requires IsBlockStyle(style) && EndsWithBreak(value)
    ensures EndsWithBreak(ScalarText(style, value, p, l, inFlow, bestIndent))
  {
    hide LiteralScalars.Body, FoldedScalars.Body, Opening, LiteralScalars.Hints, BreakOf;
    if style.Literal? {
      LiteralEndsLine(value, Pen(0, true, true), true, l);
      LongerEnds(Opening(LiteralScalars.BAR, p) + LiteralScalars.Hints(value, bestIndent) + BreakOf(l.lineBreak), LiteralScalars.Body(value, Pen(0, true, true), true, l));
    } else {
      FoldedEndsLine(value, FoldedScalars.START, l);
      LongerEnds(Opening(GREATER, p) + LiteralScalars.Hints(value, bestIndent) + BreakOf(l.lineBreak), FoldedScalars.Body(value, FoldedScalars.START, l));
    }
  }

  /** A block scalar whose value ends its line leaves the writer at the start of a line. */
  lemma PageAtLine(a: Desk, rest: seq<Event>, o: Options, b: Desk)
    requires Fits(a.config) && rest != [] && rest[0].Scalar? && StepsTo(a, rest, o, b)
    ensures AtLine(b.page)
  {
    hide Fits, StepsTo, NodeConfig, NodeStart, ChoiceOf, IsProper, Before, LiteralScalars.LiteralAllowed, PlainScalars.PlainAllowed, ScalarText;
    ScalarStep(a, rest, o, b);
    var e, x := rest[0], NodeConfig(a.config, rest, o, a.page.indention);
    ChoiceFits(e, x, o);
    var style, value := ChoiceOf(e, x, o).style, TextOf(e.value);
    LiteralIsText(value, style, o.unicode);
    if b.page.indention {
      BlockEndsLine(style, value, ScalarPen(a, rest, o), ScalarSettings(x, o), x.flowLevel > 0, BestIndent(o));
      LongerEnds(Before(a, rest, o), Written(a, rest, o));
      assert ColumnOf(b.page.text) == 0;
    }
  }

  // ---- The tails are what the styles allow ----

  lemma ColonContinues(style: ScalarStyle, t: Text, value: Text, l: Settings, inFlow: bool, parserIndent: int)
    requires IsColonTail(t) && !IsBlockStyle(style) && parserIndent >= -1
    ensures AllowsTail(style, t, value, l, inFlow, parserIndent)
  {
    var x := P.Context(inFlow, parserIndent + 1);
    if t == [] {
      NothingStops(x);
    } else {
      ApartIsBlank(t[1..]);
      assert Look(t, 1) == Look(t[1..], 0);
      PlainScalars.StopsAtColon(t, x);
    }
    hide PlainScalars.Stops;
  }

  lemma NothingStops(x: P.Context)
    ensures PlainScalars.Stops([], x)
  {
  }

  lemma ApartIsBlank(t: Text)
    requires IsApart(t)
    ensures IsBlankZ(Look(t, 0))
  {
  }

  lemma {:induction false} SpacesEnd(n: nat, t: Text, column: nat, indent: nat)
    requires column + n < indent && BeginsSolid(t)
    ensures LiteralScalars.EndsBlock(Spaces(n) + t, column, indent)
    decreases n
  {
    if n == 0 {
      assert Spaces(n) + t == t;
    } else {
      assert (Spaces(n) + t)[1..] == Spaces(n - 1) + t;
      SpacesEnd(n - 1, t, column + 1, indent);
    }
  }

  lemma LineContinues(style: ScalarStyle, t: Text, value: Text, l: Settings, o: Options, parserIndent: int)
    requires parserIndent >= -1 && l == SettingsAt(Deeper(parserIndent, BestIndent(o), true, false), o, l.allowBreaks)
    requires IsBlockStyle(style) ==> value != []
    requires IsLineTail(t, !(IsBlockStyle(style) && LiteralScalars.LeavesLine(value)), o.lineBreak, parserIndent)
    ensures AllowsTail(style, t, value, l, false, parserIndent)
  {
    hide PlainScalars.Stops, LiteralScalars.EndsBlockScalar, LineAt, LineHead, LiteralScalars.LeavesLine;
    var breaks := !(IsBlockStyle(style) && LiteralScalars.LeavesLine(value));
    if t == [] {
      NothingStops(P.Context(false, parserIndent + 1));
      NothingFollowsBlock(value, l);
    } else {
      var n: nat :| n <= BlockScanner.Max(parserIndent, 0) && LineAt(t, LineHead(breaks, o.lineBreak, n), parserIndent);
      if IsBlockStyle(style) {
        BlockFollows(t, value, l, n, parserIndent);
      } else {
        LineStops(t, o.lineBreak, n, parserIndent);
      }
    }
  }

  lemma LineStops(t: Text, b: LineBreak, n: nat, parserIndent: int)
    requires parserIndent >= -1 && n <= BlockScanner.Max(parserIndent, 0) && LineAt(t, LineHead(true, b, n), parserIndent)
    ensures PlainScalars.Stops(t, P.Context(false, parserIndent + 1)) && Look(t, 0) != APOSTROPHE
  {
    hide PlainScalars.Stops, IsDocumentIndicator, BeginsSolid, BreakOf;
    var head := LineHead(true, b, n);
    var u := t[|head|..];
    SolidIs(u);
    PlainScalars.StopsAtNewLine(b, n, u, P.Context(false, parserIndent + 1));
    assert t == BreakOf(b) + Spaces(n) + u == BreakOf(b) + (Spaces(n) + u);
    BreakIsNoQuote(b, Spaces(n) + u);
  }

  lemma SolidIs(t: Text)
    requires BeginsSolid(t)
    ensures t == [] || (!IsGapChar(t[0]) && t[0] != LF)
  {
  }

  lemma BreakIsNoQuote(b: LineBreak, t: Text)
    ensures Look(BreakOf(b) + t, 0) != APOSTROPHE
  {
  }

  lemma NothingFollowsBlock(value: Text, l: Settings)
    requires l.indent > 0
    ensures LiteralScalars.EndsBlockScalar([], value, l)
  {
  }

  lemma BlockFollows(t: Text, value: Text, l: Settings, n: nat, limit: int)
    requires value != [] && n < l.indent
    requires LineAt(t, LineHead(!LiteralScalars.LeavesLine(value), l.lineBreak, n), limit)
    ensures LiteralScalars.EndsBlockScalar(t, value, l)
  {
    hide BreakOf, IsDocumentIndicator, BeginsSolid;
    var head := LineHead(!LiteralScalars.LeavesLine(value), l.lineBreak, n);
    var u := t[|head|..];
    assert t == head + u;
    SpacesEnd(n, u, 0, l.indent);
    if LiteralScalars.LeavesLine(value) {
      assert t == Spaces(n) + u;
    } else {
      var br := BreakOf(l.lineBreak);
      assert t == br + (Spaces(n) + u);
      assert t[|br|..] == Spaces(n) + u;
    }
  }

  lemma FlowContinues(history: seq<Desk>, events: seq<Event>, o: Options, i: nat, j: nat, style: ScalarStyle, value: Text, l: Settings, parserIndent: int)
    requires IsHistory(history, events, o) && i <= j < |history| && parserIndent >= -1 && !IsBlockStyle(style)
    requires IsFlow(history[i].config.state) && IsEntered(history[i].config.state)
    requires !history[i].page.whitespace && !history[i].page.indention
    ensures AllowsTail(style, Tail(history, i, j), value, l, true, parserIndent)
  {
    hide IsHistory, Tail, PlainScalars.Stops, P.EndsPlain, IsApart;
    var k, t, x := history[i].config.state, Tail(history, i, j), P.Context(true, parserIndent + 1);
    if IsSimpleValue(k) {
      ColonTail(history, events, o, i, j);
      ColonContinues(style, t, value, l, true, parserIndent);
    } else if k.FlowMappingValueState? {
      ValueTail(history, events, o, i, j);
      ValueContinues(t, o.lineBreak, x);
    } else {
      ItemTail(history, events, o, i, j);
      ItemContinues(t, x);
    }
  }

  lemma ItemContinues(t: Text, x: P.Context)
    requires IsItemTail(t) && x.inFlow
    ensures PlainScalars.Stops(t, x) && Look(t, 0) != APOSTROPHE
  {
    if t == [] {
      NothingStops(x);
    } else {
      PlainScalars.StopsAtFlowIndicator(t, x);
    }
  }

  lemma ValueContinues(t: Text, b: LineBreak, x: P.Context)
    requires IsValueTail(t, b) && x.inFlow
    ensures PlainScalars.Stops(t, x) && Look(t, 0) != APOSTROPHE
  {
    hide PlainScalars.Stops, ValueAt;
    if t == [] {
      NothingStops(x);
    } else if ValueAt(t, [SPACE]) {
      SpacedColonStops(t, x);
    } else {
      var n: nat :| ValueAt(t, BreakOf(b) + Spaces(n));
      BrokenColonStops(t, b, n, x);
    }
  }

  lemma SpacedColonStops(t: Text, x: P.Context)
    requires ValueAt(t, [SPACE])
    ensures PlainScalars.Stops(t, x) && Look(t, 0) != APOSTROPHE
  {
    hide PlainScalars.Stops, IsApart;
    ApartIsBlank(t[2..]);
    assert t[0] == ([SPACE] + [COLON])[0] && t[1] == ([SPACE] + [COLON])[1] && Look(t, 2) == Look(t[2..], 0);
    PlainScalars.StopsAtSpacedColon(t, x);
  }

  lemma BrokenColonStops(t: Text, b: LineBreak, n: nat, x: P.Context)
    requires ValueAt(t, BreakOf(b) + Spaces(n))
    ensures PlainScalars.Stops(t, x) && Look(t, 0) != APOSTROPHE
  {
    hide PlainScalars.Stops, IsApart, BreakOf;
    var head := BreakOf(b) + Spaces(n);
    var u := t[|head|..];
    assert t == head + u && u[0] == (head + [COLON])[|head|];
    assert u[1..] == t[|head| + 1..];
    ApartIsBlank(u[1..]);
    assert Look(u, 1) == Look(u[1..], 0);
    PlainScalars.StopsAtNewLine(b, n, u, x);
    BreakIsNoQuote(b, Spaces(n) + u);
    assert BreakOf(b) + (Spaces(n) + u) == t;
  }

  /** Every scalar that the emitter writes in a run is read back from the text of the run, at any
      later point of it: the scanner, at the column where the scalar stands, takes it for a scalar
      of its style and gives its value, in the folded style exactly if no line that begins with a
      blank was folded.  `parserIndent` is the indentation of the block collection that holds the
      scalar, or for a simple key of any collection around it. */
  lemma ScalarsComeBack(history: seq<Desk>, events: seq<Event>, o: Options, n: nat, m: nat, parserIndent: int)
    requires IsHistory(history, events, o) && n < m < |history| && events[n].Scalar?
    requires
      var x := NodeConfig(history[n].config, events[n..], o, history[n].page.indention);
      parserIndent >= -1 && (parserIndent == x.indent || (x.simpleKeyContext && parserIndent <= x.indent) || x.flowLevel > 0)
    ensures
      var a, e, rest := history[n], events[n], events[n..];
      var x := NodeConfig(a.config, rest, o, a.page.indention);
      var choice, value, tail := ChoiceOf(e, x, o), TextOf(e.value), Tail(history, n + 1, m);
      var before, p, l, inFlow := Before(a, rest, o), ScalarPen(a, rest, o), ScalarSettings(x, o), x.flowLevel > 0;
      && choice.Chosen? && history[m].page.text == before + Written(a, rest, o) + tail && p.column == ColumnOf(before)
      && (!(choice.style.Plain? && value == []) ==>
          var text := Written(a, rest, o) + tail;
          && |text| > ScalarStyles.Start(p) && text[..ScalarStyles.Start(p)] == Spaces(ScalarStyles.Start(p))
          && (ReadScalar(text[ScalarStyles.Start(p)..], p.column + ScalarStyles.Start(p), inFlow, parserIndent)
              == Value(value, Leftover(choice.style, tail))
              <==> (choice.style.Folded? ==> FoldedScalars.Faithful(value, FoldedScalars.START, l))))
  {
    hide IsHistory, Fits, StepsTo, NodeConfig, NodeStart, IsProper, Tail, AllowsTail, ScalarText, ReadScalar, SelectStyle, IsAnalysis,
      FoldedScalars.Faithful, ColumnOf, PropertiesText, ScalarStyles.Leftover;
    StepOf(history, events, o, n);
    HistoryNests(history, events, o, n);
    var a, b, rest := history[n], history[n + 1], events[n..];
    var e, x := rest[0], NodeConfig(a.config, rest, o, a.page.indention);
    var value, p := TextOf(e.value), ScalarPen(a, rest, o);
    ScalarStep(a, rest, o, b);
    RunGrows(history, events, o, n + 1, m);
    TailIs(history, n + 1, m);
    ScalarContinues(history, events, o, n, m, parserIndent);
    PenColumn(a, rest, o);
    StartColumn(history, events, o, n);
    NodeConfigIs(a.config, rest, o, a.page.indention);
    if !(ChoiceOf(e, x, o).style.Plain? && value == []) {
      StyleChoiceIsSound(e.scalarStyle, AnalysisOf(value, o.unicode), value, Site(x.flowLevel > 0, x.simpleKeyContext, o.canonical),
        Tagging(!WritesTag(e, o.canonical), e.plainImplicit, e.quotedImplicit), p, ScalarSettings(x, o), BestIndent(o),
        Tail(history, n + 1, m), p.column + ScalarStyles.Start(p), parserIndent);
    }
  }

  lemma PenColumn(a: Desk, rest: seq<Event>, o: Options)
    requires Fits(a.config) && rest != [] && BeginsNode(rest[0]) && (IsInside(a.config.state) || a.config.state.DocumentContentState?)
    requires IsProper(rest[0], o.canonical)
    ensures ScalarPen(a, rest, o).column == ColumnOf(Before(a, rest, o)) >= ColumnOf(NodeStart(a.config, rest, o, a.page).text)
  {
    hide Fits, NodeConfig, NodeStart, IsProper, PropertiesText, ColumnOf;
    var x, g := NodeConfig(a.config, rest, o, a.page.indention), NodeStart(a.config, rest, o, a.page);
    NodeConfigIs(a.config, rest, o, a.page.indention);
    SimpleKeys.PropertiesFit(rest[0], x, o, PenOf(g));
    var t := PropertiesText(rest[0], x, o, PenOf(g));
    ColumnOnLine(g.text, t);
    assert g.text + [] == g.text;
  }

  /** A folded scalar that is lost: a value of one line that begins with a blank and is longer than
      the width.  The emitter takes the folded style that the event asks for, with a layout that it
      accepts, and the scanner reads another value or none. */
  lemma FoldedMayBeLost(p: Pen, column: nat)
    ensures
      var o := Options(false, 2, 5, true, Ln);
      var e := Scalar(None, None, " abc d", true, true, Folded);
      var c := Config(DocumentContentState, [], [], -1, 0, false, false, []);
      var x := Expecting(c, false, false, DocumentEndState);
      var text := ScalarText(Folded, TextOf(e.value), p, ScalarSettings(x, o), false, BestIndent(o));
      && BestIndent(o) == 2 && BestWidth(o) == 5 && IsProper(e, o.canonical) && Fits(c)
      && ChoiceOf(e, x, o).Chosen? && ChoiceOf(e, x, o).style == Folded
      && |text| > ScalarStyles.Start(p)
      && ReadScalar(text[ScalarStyles.Start(p)..], column, false, x.indent) != Value(TextOf(e.value), [])
  {
    hide ReadScalar, ScalarText, FoldedScalars.Faithful, Fits, ChoiceOf, SelectStyle, IsAnalysis;
    var o := Options(false, 2, 5, true, Ln);
    var e := Scalar(None, None, " abc d", true, true, Folded);
    var value := TextOf(e.value);
    var c := Config(DocumentContentState, [], [], -1, 0, false, false, []);
    var x := Expecting(c, false, false, DocumentEndState);
    RootFits(c);
    LostValue(e, x, o);
    var l := ScalarSettings(x, o);
    FoldedScalars.LongLineIsFolded(l);
    NothingFollowsBlock(value, l);
    var text := ScalarText(Folded, value, p, l, false, BestIndent(o));
    assert text + [] == text;
    StyleChoiceIsSound(e.scalarStyle, AnalysisOf(value, o.unicode), value, Site(false, false, false), Tagging(true, true, true), p, l,
      BestIndent(o), [], column, -1);
    NothingLeft();
  }

  lemma LostValue(e: Event, x: Config, o: Options)
    requires e == Scalar(None, None, " abc d", true, true, Folded) && o == Options(false, 2, 5, true, Ln)
    requires x.flowLevel == 0 && !x.simpleKeyContext
    ensures TextOf(e.value) == [SPACE, 0x61, 0x62, 0x63, SPACE, 0x64]
    ensures ChoiceOf(e, x, o) == Chosen(Folded, false)
    ensures ChoiceOf(e, x, o) == SelectStyle(Folded, AnalysisOf(TextOf(e.value), true), false, Site(false, false, false), Tagging(true, true, true))
  {
    var value: Text := [SPACE, 0x61, 0x62, 0x63, SPACE, 0x64];
    assert TextOf(e.value) == value;
    assert LiteralScalars.LiteralAllowed(value, true);
    hide PlainScalars.PlainAllowed, SingleQuotedScalars.SingleQuotable, LiteralScalars.LiteralAllowed;
  }

  lemma NothingLeft()
    ensures ScalarStyles.Leftover(Folded, []) == []
  {
  }

  lemma RootFits(c: Config)
    requires c == Config(DocumentContentState, [], [], -1, 0, false, false, [])
    ensures Fits(c)
  {
    OneState(DocumentContentState);
    NoDirectives();
    assert All(c) == [DocumentContentState];
    assert c.indents + [c.indent] == [-1];
  }

  /** In a run, every item, complex key and complex value of a block collection is marked at the
      column of its collection, and every simple key begins there. */
  lemma BlockItemsAligned(history: seq<Desk>, events: seq<Event>, o: Options, n: nat, m: nat)
    requires IsHistory(history, events, o) && n < m < |history| && n < |events| && BeginsNode(events[n])
    requires IsBlock(history[n].config.state) && !history[n].config.state.BlockMappingSimpleValueState?
    ensures
      var a, rest := history[n], events[n..];
      var x, start := NodeConfig(a.config, rest, o, a.page.indention), NodeStart(a.config, rest, o, a.page);
      var line := Lined(a.page, x.indent, o);
      && start.text <= history[m].page.text && ColumnOf(line.text) == x.indent
      && if x.simpleKeyContext then start == line
         else start.text == line.text + TextOf(if IsSequenceState(a.config.state) then "-"
                                               else if IsKeyState(Entered(a.config.state)) then "?" else ":")
  {
    hide IsHistory, StepsTo, Fits, LeadPage, NodePage, NodeText, ColumnOf, Lined, IsSimpleKey;
    StepOf(history, events, o, n);
    HistoryNests(history, events, o, n);
    var a, b, rest := history[n], history[n + 1], events[n..];
    NodeSteps(a, rest, o, b);
    var x, start := NodeConfig(a.config, rest, o, a.page.indention), NodeStart(a.config, rest, o, a.page);
    NodeGrows(start, rest[0], x, o);
    RunGrows(history, events, o, n + 1, m);
    StartedFits(a.config, o, a.page.indention);
    BlockLeadAligned(a.page, a.config.state, x.indent, x.simpleKeyContext, o);
    KeyStates(a.config.state);
  }

  lemma KeyStates(k: State)
    requires IsBlock(k)
    ensures IsKeyState(Entered(k)) <==> TopOf(k) == MappingFrame(false)
  {
  }

  // ---- Simple keys ----

  /** How many events the simple key that begins with `e` takes: a collection is empty. */
  function KeyEvents(e: Event): nat {
    if e.Alias? || e.Scalar? then 1 else 2
  }

  /** Where a run takes a node for a simple key, all of the key is written and a colon directly
      behind it; wherever in the key the scanner noted it, it is not stale at the colon. */
  lemma RunKeysStayLive(history: seq<Desk>, events: seq<Event>, o: Options, n: nat, m: nat)
    requires IsHistory(history, events, o) && n < |events| && BeginsNode(events[n]) && m == n + KeyEvents(events[n]) && m + 1 < |history|
    requires NodeConfig(history[n].config, events[n..], o, history[n].page.indention).simpleKeyContext
    ensures
      var a, rest := history[n], events[n..];
      var x, start := NodeConfig(a.config, rest, o, a.page.indention), NodeStart(a.config, rest, o, a.page);
      var before := history[m].page.text;
      && before == start.text + SimpleKeys.KeyText(events[n], x, o, PenOf(start))
      && before + [COLON] <= history[m + 1].page.text
      && forall i, k: Tokens.SimpleKey | |start.text| <= i <= |before| :: !TokenQueue.IsStale(k, SimpleKeys.Passed(k.mark, before[i..]))
  {
    hide IsHistory, StepsTo, Fits, IsSimpleKey, NodeConfig, NodeStart, SimpleKeys.KeyText, TokenQueue.IsStale, SimpleKeys.Passed, IsProper;
    StepOf(history, events, o, n);
    HistoryNests(history, events, o, n);
    var a, rest := history[n], events[n..];
    KeyIsWritten(history, events, o, n, m);
    NodeSteps(a, rest, o, history[n + 1]);
    KeyStaysLive(a, rest, o);
    HistoryNests(history, events, o, m);
    StepOf(history, events, o, m);
    ColonIsWritten(history[m], events[m..], o, history[m + 1]);
  }

  lemma KeyStaysLive(a: Desk, rest: seq<Event>, o: Options)
    requires Fits(a.config) && rest != [] && BeginsNode(rest[0]) && (IsInside(a.config.state) || a.config.state.DocumentContentState?)
    requires NodeConfig(a.config, rest, o, a.page.indention).simpleKeyContext && IsProper(rest[0], o.canonical)
    ensures
      var x, start := NodeConfig(a.config, rest, o, a.page.indention), NodeStart(a.config, rest, o, a.page);
      var text := start.text + SimpleKeys.KeyText(rest[0], x, o, PenOf(start));
      forall i, k: Tokens.SimpleKey | |start.text| <= i <= |text| :: !TokenQueue.IsStale(k, SimpleKeys.Passed(k.mark, text[i..]))
  {
    hide Fits, IsSimpleKey, NodeConfig, NodeStart, SimpleKeys.KeyText, TokenQueue.IsStale, SimpleKeys.Passed, IsProper;
    var x, start := NodeConfig(a.config, rest, o, a.page.indention), NodeStart(a.config, rest, o, a.page);
    NodeStack(a.config, rest, o, a.page.indention);
    NodeConfigIs(a.config, rest, o, a.page.indention);
    var key := SimpleKeys.KeyText(rest[0], x, o, PenOf(start));
    forall i, k: Tokens.SimpleKey | |start.text| <= i <= |start.text + key|
      ensures !TokenQueue.IsStale(k, SimpleKeys.Passed(k.mark, (start.text + key)[i..]))
    {
      assert (start.text + key)[i..] == key[i - |start.text|..];
      SimpleKeys.WrittenKeyIsNotStale(rest, x, o, PenOf(start), i - |start.text|, k);
    }
  }

  /** The run from the first event of a simple key to the last. */
  lemma KeyIsWritten(history: seq<Desk>, events: seq<Event>, o: Options, n: nat, m: nat)
    requires IsHistory(history, events, o) && n < |events| && BeginsNode(events[n]) && m == n + KeyEvents(events[n]) && m + 1 < |history|
    requires NodeConfig(history[n].config, events[n..], o, history[n].page.indention).simpleKeyContext
    ensures
      var a, rest := history[n], events[n..];
      var x, start := NodeConfig(a.config, rest, o, a.page.indention), NodeStart(a.config, rest, o, a.page);
      && history[m].page.text == start.text + SimpleKeys.KeyText(events[n], x, o, PenOf(start))
      && IsSimpleValue(history[m].config.state)
  {
    hide IsHistory, StepsTo, Fits, IsSimpleKey, NodeConfig, NodeStart, NodeText, NodePage, SimpleKeys.EndText, IsEmptySequence, IsEmptyMapping;
    StepOf(history, events, o, n);
    HistoryNests(history, events, o, n);
    var a, b, rest, e := history[n], history[n + 1], events[n..], events[n];
    var x, start := NodeConfig(a.config, rest, o, a.page.indention), NodeStart(a.config, rest, o, a.page);
    NodeSteps(a, rest, o, b);
    NodeStack(a.config, rest, o, a.page.indention);
    NodeGrows(start, e, x, o);
    if e.Alias? || e.Scalar? {
      NothingEnds(e, Tags.AfterProperty(PenOf(start), NodeText(e, x, o, PenOf(start))));
      assert start.text + (NodeText(e, x, o, PenOf(start)) + []) == start.text + NodeText(e, x, o, PenOf(start));
    } else {
      KeyIsEmpty(rest, o.canonical, x.tagDirectives);
      EmptyKeyStep(x, rest, o, b.config);
      StepOf(history, events, o, n + 1);
      HistoryNests(history, events, o, n + 1);
      EndsNext(rest);
      assert rest[1] == events[n + 1];
      EmptyKeyEnds(b, events[n + 1..], o, history[m]);
      PenBehind(start, e, x, o);
      EndIs(b.page, b.config.state, e);
      Assoc(start.text, NodeText(e, x, o, PenOf(start)), SimpleKeys.EndText(e, PenOf(b.page)));
    }
  }

  lemma NothingEnds(e: Event, p: Pen)
    requires e.Alias? || e.Scalar?
    ensures SimpleKeys.EndText(e, p) == []
  {
  }

  lemma EndsNext(rest: seq<Event>)
    requires IsEmptySequence(rest) || IsEmptyMapping(rest)
    ensures |rest| >= 2 && (rest[1].SequenceEnd? || rest[1].MappingEnd?)
  {
  }

  lemma EmptyKeyStep(x: Config, rest: seq<Event>, o: Options, d: Config)
    requires rest != [] && x.states != [] && IsSimpleValue(x.states[|x.states| - 1]) && NodeNext(x, rest, o.canonical) == Some(d)
    requires IsEmptySequence(rest) || IsEmptyMapping(rest)
    ensures d.states == x.states
    ensures d.state == if rest[0].SequenceStart? then FlowSequenceFirstItemState else FlowMappingFirstKeyState
  {
  }

  /** The end of a collection that is a simple key, and empty. */
  lemma EmptyKeyEnds(a: Desk, rest: seq<Event>, o: Options, b: Desk)
    requires Fits(a.config) && rest != [] && (rest[0].SequenceEnd? || rest[0].MappingEnd?) && StepsTo(a, rest, o, b)
    requires IsFirst(a.config.state) && IsFlow(a.config.state)
    requires a.config.states != [] && IsSimpleValue(a.config.states[|a.config.states| - 1])
    ensures exists outer :: b.page == ClosePage(a.page, a.config.state, outer, o)
    ensures IsSimpleValue(b.config.state)
  {
    hide StepsTo, Fits, ClosePage, Deeper;
    EndSteps(a, rest, o, b);
  }

  /** Where the pen is behind the start of a collection. */
  lemma PenBehind(g: Page, e: Event, x: Config, o: Options)
    requires e.SequenceStart? || e.MappingStart?
    ensures SimpleKeys.EndText(e, PenOf(NodePage(g, e, x, o))) == SimpleKeys.EndText(e, Tags.AfterProperty(PenOf(g), NodeText(e, x, o, PenOf(g))))
  {
    hide ColumnOf, PropertiesText;
    var properties := PropertiesText(e, x, o, PenOf(g));
    assert NodeText(e, x, o, PenOf(g)) == properties;
  }

  lemma EndIs(g: Page, k: State, e: Event)
    requires e.SequenceStart? || e.MappingStart?
    requires k == if e.SequenceStart? then FlowSequenceFirstItemState else FlowMappingFirstKeyState
    ensures forall outer, o :: ClosePage(g, k, outer, o).text == g.text + SimpleKeys.EndText(e, PenOf(g))
  {
    hide ColumnOf;
    var t := SimpleKeys.EndText(e, PenOf(g));
    var space := Tags.Spacer(PenOf(g));
    if e.SequenceStart? {
      assert g.text + space + TextOf("[") + [] + TextOf("]") == g.text + t;
    } else {
      assert g.text + space + TextOf("{") + [] + TextOf("}") == g.text + t;
    }
  }

  /** The value of a simple key begins with the colon. */
  lemma ColonIsWritten(a: Desk, rest: seq<Event>, o: Options, b: Desk)
    requires Fits(a.config) && rest != [] && StepsTo(a, rest, o, b) && IsSimpleValue(a.config.state)
    ensures a.page.text + [COLON] <= b.page.text
  {
    hide StepsTo, Fits, NodeStart, NodeConfig, NodeText, AfterMark;
    ValueIsNode(a, rest, o, b);
    ColonLead(a, rest, o);
    NodeSteps(a, rest, o, b);
    NodeGrows(NodeStart(a.config, rest, o, a.page), rest[0], NodeConfig(a.config, rest, o, a.page.indention), o);
  }
}
