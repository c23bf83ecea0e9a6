/** The emitter: a state machine that writes events as text, with a queue that lets it look ahead. */
module Emitter {
  import opened Events
  import opened Nesting
  import opened Characters
  import opened Layout
  import opened EmitterStates
  import opened EmittedNodes
  import opened ScalarStyles
  import opened Pages
  import Parser
  import Tags

  // ---- Waiting for more events ----

  function Delta(e: Event): int {
    if e.StreamStart? || e.DocumentStart? || e.SequenceStart? || e.MappingStart? then 1
    else if e.StreamEnd? || e.DocumentEnd? || e.SequenceEnd? || e.MappingEnd? then -1
    else 0
  }

  function LevelOf(es: seq<Event>): int {
    if es == [] then 0 else LevelOf(es[..|es| - 1]) + Delta(es[|es| - 1])
  }

  /** How many more events are waited for. */
  function Accumulates(e: Event): nat {
    if e.DocumentStart? then 1 else if e.SequenceStart? then 2 else if e.MappingStart? then 3 else 0
  }

  /** The queue does not tell yet how its head is to be written. */
  predicate Waits(queue: seq<Event>) {
    queue == []
    || (Accumulates(queue[0]) > 0 && |queue| <= Accumulates(queue[0])
        && forall k | 1 <= k <= |queue| :: LevelOf(queue[..k]) != 0)
  }

  /** The emitter never keeps more than three events. */
  lemma WaitsForThree(queue: seq<Event>)
    requires Waits(queue)
    ensures |queue| <= 3
  {
  }

  /** The events tell whether the first of them begins an empty collection. */
  predicate Suffices(rest: seq<Event>) {
    rest != [] && (rest[0].SequenceStart? || rest[0].MappingStart? ==> |rest| >= 2)
  }

  lemma NoWaitSuffices(queue: seq<Event>)
    requires !Waits(queue)
    ensures Suffices(queue)
  {
    if |queue| == 1 {
      assert queue[..1] == queue && queue[..0] == [];
      assert LevelOf(queue) == LevelOf([]) + Delta(queue[0]);
    }
  }

  /** What was decided with some events in view is what is decided with all of them. */
  lemma LookAheadSuffices(c: Config, queue: seq<Event>, more: seq<Event>, o: Options, g: Page)
    requires Suffices(queue)
    ensures Next(c, queue + more, o, g.indention) == Next(c, queue, o, g.indention)
    ensures StepPage(c, queue + more, o, g) == StepPage(c, queue, o, g)
  {
    hide Next, StepPage;
    NextSame(c, queue, more, o, g.indention);
    PageSame(c, queue, more, o, g);
  }

  lemma PageSame(c: Config, queue: seq<Event>, more: seq<Event>, o: Options, g: Page)
    requires Suffices(queue)
    ensures StepPage(c, queue + more, o, g) == StepPage(c, queue, o, g)
  {
    hide Started, IsInside, IsSimpleKey, NodePage, LeadPage, ClosePage, StartPage, EndPage, EndsCollection, TopOf, Following, StreamEndPage;
    SameAhead(queue, more, o.canonical);
    if IsInside(c.state) {
      SimpleKeySame(queue, more, o.canonical, Started(c, o, g.indention).tagDirectives);
    }
  }

  lemma NextSame(c: Config, queue: seq<Event>, more: seq<Event>, o: Options, indention: bool)
    requires Suffices(queue)
    ensures Next(c, queue + more, o, indention) == Next(c, queue, o, indention)
  {
    var all := queue + more;
    SameAhead(queue, more, o.canonical);
    hide IsProper, Parser.WithDefaults, NodeNext, EnteredNext, Started, IsInside, IsEmptyMapping, IsEmptySequence;
    if c.state.DocumentContentState? {
      NodeSame(Expecting(c, false, false, DocumentEndState), queue, more, o.canonical);
    }
    if IsInside(c.state) {
      EnteredSame(Started(c, o, indention), queue, more, o.canonical);
    }
  }

  lemma SameAhead(queue: seq<Event>, more: seq<Event>, canonical: bool)
    requires Suffices(queue)
    ensures (queue + more)[0] == queue[0]
    ensures IsEmptySequence(queue + more) == IsEmptySequence(queue)
    ensures IsEmptyMapping(queue + more) == IsEmptyMapping(queue)
  {
    assert |queue| >= 2 ==> (queue + more)[1] == queue[1];
  }

  lemma NodeSame(c: Config, queue: seq<Event>, more: seq<Event>, canonical: bool)
    requires Suffices(queue) && c.states != []
    ensures NodeNext(c, queue + more, canonical) == NodeNext(c, queue, canonical)
  {
    SameAhead(queue, more, canonical);
    hide IsEmptySequence, IsEmptyMapping;
  }

  lemma SimpleKeySame(queue: seq<Event>, more: seq<Event>, canonical: bool, directives: seq<TagDirective>)
    requires Suffices(queue)
    ensures IsSimpleKey(queue + more, canonical, directives) == IsSimpleKey(queue, canonical, directives)
  {
    SameAhead(queue, more, canonical);
    hide IsEmptySequence, IsEmptyMapping, KeyLength, IsMultiline;
  }

  lemma EnteredSame(c: Config, queue: seq<Event>, more: seq<Event>, canonical: bool)
    requires Suffices(queue) && IsEntered(c.state)
    ensures EnteredNext(c, queue + more, canonical) == EnteredNext(c, queue, canonical)
  {
    SameAhead(queue, more, canonical);
    SimpleKeySame(queue, more, canonical, c.tagDirectives);
    hide IsSimpleKey, Leaves, NodeNext, EndsCollection, TopOf, Following;
    forall mapping, simpleKey, k
      ensures NodeNext(Expecting(c, mapping, simpleKey, k), queue + more, canonical)
           == NodeNext(Expecting(c, mapping, simpleKey, k), queue, canonical)
    {
      NodeSame(Expecting(c, mapping, simpleKey, k), queue, more, canonical);
    }
  }

  // ---- Runs ----

  /** Where the emitter stands and what it has written. */
  datatype Desk = Desk(config: Config, page: Page)

  /** One step of the emitter, with all the remaining events in view. */
  ghost predicate StepsTo(a: Desk, rest: seq<Event>, o: Options, b: Desk)
    requires rest != []
  {
    Next(a.config, rest, o, a.page.indention) == Some(b.config) && b.page == StepPage(a.config, rest, o, a.page)
  }

  ghost predicate IsHistory(history: seq<Desk>, events: seq<Event>, o: Options) {
    && 0 < |history| <= |events| + 1
    && history[0] == Desk(INITIAL, BLANK_PAGE)
    && forall i | 0 <= i < |history| - 1 :: Suffices(events[i..]) && StepsTo(history[i], events[i..], o, history[i + 1])
  }

  const INITIAL := Config(StreamStartState, [], [], 0, 0, false, false, [])

  /** More events change nothing about the past. */
  lemma HistoryStays(history: seq<Desk>, events: seq<Event>, more: seq<Event>, o: Options)
    requires IsHistory(history, events, o)
    ensures IsHistory(history, events + more, o)
  {
    hide Next, StepPage;
    forall i | 0 <= i < |history| - 1
      ensures Suffices((events + more)[i..]) && StepsTo(history[i], (events + more)[i..], o, history[i + 1])
    {
      assert (events + more)[i..] == events[i..] + more;
      LookAheadSuffices(history[i].config, events[i..], more, o, history[i].page);
    }
  }

  lemma HistoryGrows(history: seq<Desk>, events: seq<Event>, d: Desk, o: Options)
    requires IsHistory(history, events, o) && |history| <= |events|
    requires var rest := events[|history| - 1..]; Suffices(rest) && StepsTo(history[|history| - 1], rest, o, d)
    ensures IsHistory(history + [d], events, o)
  {
    hide Next, Suffices, StepsTo;
  }

  /** After every step the stacks fit, and the nesting is that of the events processed so far. */
  lemma {:induction false} HistoryNests(history: seq<Desk>, events: seq<Event>, o: Options, n: nat)
    requires IsHistory(history, events, o) && n < |history|
    ensures Fits(history[n].config) && Run(Outside, events[..n]) == Some(NestOf(history[n].config))
    decreases n
  {
    hide StepsTo, Fits, NestOf, Suffices, Enter, Admits;
    if n == 0 {
      InitialFits();
      assert events[..0] == [];
    } else {
      HistoryNests(history, events, o, n - 1);
      var c, rest := history[n - 1], events[n - 1..];
      assert Suffices(rest) && StepsTo(c, rest, o, history[n - 1 + 1]);
      StepNests(c, rest, o, history[n]);
      RunSnoc(Outside, events[..n - 1], NestOf(c.config), rest[0]);
      assert events[..n] == events[..n - 1] + [rest[0]];
    }
  }

  lemma StepNests(a: Desk, rest: seq<Event>, o: Options, b: Desk)
    requires Fits(a.config) && rest != [] && StepsTo(a, rest, o, b)
    ensures IsProper(rest[0], o.canonical) && Admits(NestOf(a.config), rest[0])
    ensures Fits(b.config) && NestOf(b.config) == Enter(NestOf(a.config), rest[0])
  {
    hide Next, Fits, NestOf, IsProper, StepPage;
    NextNests(a.config, rest, o, a.page.indention);
  }

  lemma InitialFits()
    ensures Fits(INITIAL) && NestOf(INITIAL) == Outside
  {
    hide LevelsFit, NoBlockInFlow, EnteredIn, FlowsIn, Parser.DistinctHandles, Tags.ValidHandles;
    OneState(StreamStartState);
    NoDirectives();
    assert All(INITIAL) == [StreamStartState];
  }

  /** Nothing is left to wait for at the end of a complete stream. */
  lemma CompleteDoesNotWait(n: Nesting, rest: seq<Event>)
    requires Run(n, rest) == Some(Finished) && rest != []
    ensures !Waits(rest)
  {
    if Accumulates(rest[0]) > 0 {
      RestIsLong(Enter(n, rest[0]), rest[1..]);
    }
  }

  /** With a frame open, at least the end of it and of the stream follow. */
  lemma {:induction false} RestIsLong(n: Nesting, rest: seq<Event>)
    requires Run(n, rest) == Some(Finished) && n.Stream?
    ensures |rest| >= Depth(n.frames) + 1
    ensures n.frames.On? && n.frames.top == DocumentFrame(false) ==> |rest| >= Depth(n.frames) + 2
    decreases |rest|
  {
    assert rest != [];
    var m := Enter(n, rest[0]);
    if m.Stream? {
      RestIsLong(m, rest[1..]);
    }
  }

  // ---- Steps inside a collection ----

  lemma StepsIntoNode(c: Config, rest: seq<Event>, o: Options, indention: bool, simpleKey: bool, x: Config)
    requires IsInside(c.state) && rest != []
    requires
      var d := Started(c, o, indention);
      && !EndsCollection(d.state, rest[0])
      && simpleKey == TakesSimpleKey(d.state, rest, o.canonical, d.tagDirectives)
      && x == Expecting(d, !TopOf(d.state).SequenceFrame?, simpleKey, Following(d.state, simpleKey)).(state := x.state)
    ensures x.states != []
    ensures Next(c, rest, o, indention) == if IsProper(rest[0], o.canonical) then NodeNext(x, rest, o.canonical) else None
  {
    hide IsSimpleKey, IsProper, Started, IsInside, TopOf, Following, EndsCollection, IsEmptySequence, IsEmptyMapping;
  }

  lemma OutsideHasNoDirectives(c: Config)
    requires Fits(c)
    ensures IsOutside(c.state) ==> c.tagDirectives == []
  {
  }

  /** What the state machine does outside the nodes. */
  lemma OutsideNext(c: Config, rest: seq<Event>, o: Options, indention: bool)
    requires rest != []
    ensures c.state.StreamStartState? ==>
      Next(c, rest, o, indention) == if rest[0].StreamStart? then Some(c.(state := FirstDocumentStartState, indent := -1)) else None
    ensures c.state.DocumentEndState? ==>
      Next(c, rest, o, indention) == if rest[0].DocumentEnd? then Some(c.(state := DocumentStartState, tagDirectives := [])) else None
  {
    hide EnteredNext, NodeNext, Started, Parser.WithDefaults, IsAnchor, Parser.DistinctHandles, IsDirective;
  }

  /** The start of a collection writes nothing but its properties. */
  lemma CollectionPage(g: Page, e: Event, c: Config, o: Options)
    requires e.SequenceStart? || e.MappingStart?
    ensures
      var t := PropertiesText(e, c, o, PenOf(g));
      NodePage(g, e, c, o) == g.(text := g.text + t, whitespace := g.whitespace && t == [], indention := g.indention && t == [])
  {
    hide PropertiesText;
    var t := PropertiesText(e, c, o, PenOf(g));
    assert t + [] == t;
  }

  lemma StartNext(c: Config, rest: seq<Event>, o: Options, indention: bool)
    requires rest != [] && (c.state.FirstDocumentStartState? || c.state.DocumentStartState?)
    ensures Next(c, rest, o, indention) ==
      if !IsProper(rest[0], o.canonical) then None
      else if rest[0].DocumentStart? then Some(c.(state := DocumentContentState, tagDirectives := Parser.WithDefaults(rest[0].tagDirectives)))
      else if rest[0].StreamEnd? then Some(c.(state := EndState))
      else None
  {
    hide EnteredNext, NodeNext, Started, Parser.WithDefaults, IsProper;
  }

  /** What is written outside the nodes. */
  lemma StreamStartPage(c: Config, rest: seq<Event>, o: Options, g: Page)
    requires rest != [] && c.state.StreamStartState?
    ensures StepPage(c, rest, o, g) == g.(whitespace := true, indention := true, openEnded := 0)
  {
  }

  lemma DocumentStartPage(c: Config, rest: seq<Event>, o: Options, g: Page)
    requires rest != [] && (c.state.FirstDocumentStartState? || c.state.DocumentStartState?)
    ensures
      StepPage(c, rest, o, g) == if rest[0].DocumentStart? then StartPage(g, rest[0], c.state.FirstDocumentStartState?, c.indent, o)
                                 else StreamEndPage(g, c.indent, o)
  {
    hide StartPage, StreamEndPage;
  }

  lemma RootPage(c: Config, rest: seq<Event>, o: Options, g: Page)
    requires rest != [] && c.state.DocumentContentState?
    ensures BeginsNode(rest[0]) ==> StepPage(c, rest, o, g) == NodePage(g, rest[0], Expecting(c, false, false, DocumentEndState), o)
  {
    hide NodePage;
  }

  lemma DocumentEndPage(c: Config, rest: seq<Event>, o: Options, g: Page)
    requires rest != [] && c.state.DocumentEndState?
    ensures rest[0].DocumentEnd? ==> StepPage(c, rest, o, g) == EndPage(g, rest[0].implicit, c.indent, o)
  {
    hide EndPage;
  }

  /** What entering and leaving a block collection does. */
  lemma BlockIs(c: Config, o: Options, indention: bool)
    requires
      || c.state.BlockSequenceFirstItemState? || c.state.BlockSequenceItemState?
      || c.state.BlockMappingFirstKeyState? || c.state.BlockMappingKeyState?
    ensures IsInside(c.state)
    ensures
      var isSequence := c.state.BlockSequenceFirstItemState? || c.state.BlockSequenceItemState?;
      var d := Started(c, o, indention);
      && d == (if c.state.BlockSequenceItemState? || c.state.BlockMappingKeyState? then c
               else c.(state := if isSequence then BlockSequenceItemState else BlockMappingKeyState,
                       indents := c.indents + [c.indent],
                       indent := Deeper(c.indent, BestIndent(o), false, isSequence && c.mappingContext && !indention)))
      && (d.states != [] && d.indents != [] ==> Leaves(d) == LeftTo(d, d.flowLevel))
  {
  }

  function LeftTo(d: Config, flowLevel: nat): Config
    requires d.states != [] && d.indents != []
  {
    var n, m := |d.states| - 1, |d.indents| - 1;
    d.(state := d.states[n], states := d.states[..n], indents := d.indents[..m], indent := d.indents[m], flowLevel := flowLevel)
  }

  /** What entering and leaving a flow collection does. */
  lemma FlowIs(c: Config, o: Options, indention: bool)
    requires
      || c.state.FlowSequenceFirstItemState? || c.state.FlowSequenceItemState?
      || c.state.FlowMappingFirstKeyState? || c.state.FlowMappingKeyState?
    ensures IsInside(c.state)
    ensures
      var isSequence := c.state.FlowSequenceFirstItemState? || c.state.FlowSequenceItemState?;
      var d := Started(c, o, indention);
      && IsFlow(d.state)
      && d == (if c.state.FlowSequenceItemState? || c.state.FlowMappingKeyState? then c
               else c.(state := if isSequence then FlowSequenceItemState else FlowMappingKeyState,
                       indents := c.indents + [c.indent], flowLevel := c.flowLevel + 1,
                       indent := Deeper(c.indent, BestIndent(o), true, false)))
      && (d.states != [] && d.indents != [] && d.flowLevel > 0 ==> Leaves(d) == LeftTo(d, d.flowLevel - 1))
  {
  }

  predicate IsMappingState(k: State) {
    || k.FlowMappingKeyState? || k.FlowMappingSimpleValueState? || k.FlowMappingValueState?
    || k.BlockMappingKeyState? || k.BlockMappingSimpleValueState? || k.BlockMappingValueState?
  }

  lemma FollowsKind(k: State, simpleKey: bool)
    requires IsEntered(k)
    ensures IsMappingState(Following(k, simpleKey)) <==> !TopOf(k).SequenceFrame?
  {
  }

  lemma InsideHasNoStart(k: State)
    requires IsInside(k)
    ensures !k.StreamStartState?
  {
  }

  lemma StepsOut(c: Config, rest: seq<Event>, o: Options, indention: bool)
    requires IsInside(c.state) && rest != []
    requires
      var d := Started(c, o, indention);
      && d.states != [] && d.indents != []
      && if d.state.FlowSequenceItemState? || d.state.BlockSequenceItemState? then rest[0].SequenceEnd?
         else rest[0].MappingEnd? && (d.state.FlowMappingKeyState? || d.state.BlockMappingKeyState?)
    ensures Next(c, rest, o, indention) == Some(Leaves(Started(c, o, indention)))
  {
    hide Started, IsInside, Leaves;
  }

  /** The page at the end of a collection. */
  lemma StepOutPage(c: Config, rest: seq<Event>, o: Options, g: Page)
    requires Fits(c) && IsInside(c.state) && rest != []
    requires if IsSequenceState(c.state) then rest[0].SequenceEnd? else rest[0].MappingEnd? && IsKeyState(Entered(c.state))
    ensures
      var d := Started(c, o, g.indention);
      && d.indents != []
      && StepPage(c, rest, o, g) == ClosePage(g, c.state, d.indents[|d.indents| - 1], o)
  {
    hide Fits, ClosePage, NodePage, LeadPage;
    StartedHas(c, o, g.indention);
  }

  lemma FlowClosePage(g: Page, k: State, outer: int, o: Options)
    requires k.FlowSequenceFirstItemState? || k.FlowSequenceItemState? || k.FlowMappingFirstKeyState? || k.FlowMappingKeyState?
    ensures
      var begun := OpenedPage(g, k);
      var last := if o.canonical && !IsFirst(k) then Lined(Marked(begun, ",", false, false, false), outer, o) else begun;
      ClosePage(g, k, outer, o) == Marked(last, if IsSequenceState(k) then "]" else "}", false, false, false)
  {
    hide Marked, Lined;
  }

  /** What the end of a block collection does. */
  lemma BlockEnds(c: Config, rest: seq<Event>, o: Options, g: Page)
    requires Fits(c) && rest != []
    requires if c.state.BlockSequenceFirstItemState? || c.state.BlockSequenceItemState? then rest[0].SequenceEnd?
             else (c.state.BlockMappingFirstKeyState? || c.state.BlockMappingKeyState?) && rest[0].MappingEnd?
    ensures IsInside(c.state)
    ensures
      var d := Started(c, o, g.indention);
      && d.states != [] && d.indents != [] && !d.states[|d.states| - 1].StreamStartState?
      && Next(c, rest, o, g.indention) == Some(LeftTo(d, d.flowLevel)) && StepPage(c, rest, o, g) == g
  {
    hide Next, Fits, Started, Leaves, Deeper, StepPage, ClosePage, BestIndent, IsFlow;
    BlockStates(c.state);
    BlockIs(c, o, g.indention);
    StartedHas(c, o, g.indention);
    StepsOut(c, rest, o, g.indention);
    StepOutPage(c, rest, o, g);
    var outer := Started(c, o, g.indention).indents;
    BlockClosePage(g, c.state, outer[|outer| - 1], o);
  }

  lemma BlockStates(k: State)
    ensures
      || k.BlockSequenceFirstItemState? || k.BlockSequenceItemState? || k.BlockMappingFirstKeyState? || k.BlockMappingKeyState?
      ==> IsBlock(k) && IsInside(k) && (IsKeyState(Entered(k)) <==> !IsSequenceState(k))
  {
  }

  lemma BlockClosePage(g: Page, k: State, outer: int, o: Options)
    requires IsBlock(k)
    ensures ClosePage(g, k, outer, o) == g
  {
  }

  /** The page after the first event of a child. */
  lemma StepInPage(c: Config, rest: seq<Event>, o: Options, g: Page)
    requires IsInside(c.state) && rest != [] && BeginsNode(rest[0])
    ensures
      var d := Started(c, o, g.indention);
      var simpleKey := TakesSimpleKey(d.state, rest, o.canonical, d.tagDirectives);
      && (IsSequenceState(c.state) ==> !simpleKey)
      && StepPage(c, rest, o, g) == NodePage(LeadPage(g, c.state, d.indent, simpleKey, o), rest[0], ChildConfig(d, simpleKey), o)
  {
    hide NodePage, LeadPage, IsSimpleKey;
  }

  /** Inside a collection, entered or not, the stacks can be popped. */
  lemma StartedHas(c: Config, o: Options, indention: bool)
    requires Fits(c) && IsInside(c.state)
    ensures var d := Started(c, o, indention); d.states != [] && d.indents != [] && (IsFlow(d.state) ==> d.flowLevel > 0)
    ensures c.states != [] && !c.states[|c.states| - 1].StreamStartState?
  {
    hide Fits, Enters, IsIndentless;
    StackHasNoStart(c);
    if IsFirst(c.state) {
      EntersFits(c, BestIndent(o), IsIndentless(c, indention));
    }
    EnteredHas(Started(c, o, indention));
  }

  lemma StackHasNoStart(c: Config)
    requires Fits(c) && IsInside(c.state)
    ensures c.states != [] && !c.states[|c.states| - 1].StreamStartState?
  {
    hide DirectivesFit, EnteredIn, FlowsIn, NoBlockInFlow, LevelsFit;
    if |c.states| > 1 {
      assert IsEntered(c.states[|c.states| - 1]);
    }
  }

  // ---- The emitter itself ----

  /** The anchor and the tag of an event can be written. */
  predicate IsAnalyzable(e: Event, canonical: bool) {
    && (e.Alias? ==> e.anchor.Some?)
    && (BeginsNode(e) && e.anchor.Some? ==> IsAnchor(e.anchor.value))
    && (WritesTag(e, canonical) ==> e.tag.value != "")
  }

  function AnchorIn(e: Event): Option<string> {
    if BeginsNode(e) then e.anchor else None
  }

  class Emitter {
    const options: Options
    const w: Writer
    // The events that were not processed yet.
    var events: seq<Event>
    var state: State
    var states: seq<State>
    var indents: seq<int>
    var indent: int
    var flowLevel: nat
    var mappingContext: bool
    var simpleKeyContext: bool
    var tagDirectives: seq<TagDirective>
    var openEnded: nat
    var bestIndent: int
    var bestWidth: int
    // What the analysis of the current event gives.
    var anchor: Option<string>
    var tagData: Tags.TagData
    var analysis: Analysis
    // All the events so far, and the configurations that the emitter has passed through.
    ghost var seen: seq<Event>
    ghost var history: seq<Desk>

    function Now(): Config
      reads this
    {
      Config(state, states, indents, indent, flowLevel, mappingContext, simpleKeyContext, tagDirectives)
    }

    ghost function Sheet(): Page
      reads this, w
    {
      Page(w.text, w.whitespace, w.indention, openEnded)
    }

    /** The layout is set at the start of the stream. */
    predicate IsLaidOut()
      reads this
    {
      if state.StreamStartState? then bestIndent == options.bestIndent && bestWidth == options.bestWidth
      else bestIndent == BestIndent(options) && bestWidth == BestWidth(options)
    }

    ghost predicate Valid()
      reads this, w
    {
      && w.Valid() && IsLaidOut()
      && IsHistory(history, seen, options) && history[|history| - 1] == Desk(Now(), Sheet())
      && events == seen[|history| - 1..]
    }

    constructor (o: Options)
      ensures Valid() && options == o && seen == [] && events == [] && fresh(w)
    {
      hide IsHistory, ColumnOf, BestIndent, BestWidth;
      NoHistory(o);
      options := o;
      w := new Writer();
      events, state, states, indents, indent, flowLevel := [], StreamStartState, [], [], 0, 0;
      mappingContext, simpleKeyContext, tagDirectives, openEnded := false, false, [], 0;
      bestIndent, bestWidth := o.bestIndent, o.bestWidth;
      anchor, tagData, analysis := None, Tags.NO_TAG, Analysis(false, false, false, false, false);
      seen, history := [], [Desk(INITIAL, BLANK_PAGE)];
    }

    method NeedMoreEvents() returns (b: bool)
      ensures b <==> Waits(events)
    {
      if events == [] {
        return true;
      }
      var accumulate := Accumulates(events[0]);
      if accumulate == 0 || |events| > accumulate {
        return false;
      }
      var level := 0;
      for i := 0 to |events|
        invariant level == LevelOf(events[..i])
        invariant forall k | 1 <= k <= i :: LevelOf(events[..k]) != 0
      {
        assert events[..i + 1][..i] == events[..i];
        level := level + Delta(events[i]);
        if level == 0 {
          return false;
        }
      }
      return true;
    }

    // ---- The analysis of an event ----

    /** The analysis is that of the event at the head of the queue. */
    ghost predicate Analyzed()
      reads this
    {
      && events != [] && IsAnalyzable(events[0], options.canonical)
      && anchor == AnchorIn(events[0])
      && tagData == TagDataOf(events[0], options.canonical, tagDirectives)
      && (events[0].Scalar? ==> IsAnalysis(analysis, TextOf(events[0].value), options.unicode))
    }

    method AnalyzeAnchor(a: Option<string>) returns (ok: bool)
      modifies this`anchor
      ensures ok <==> a.Some? && IsAnchor(a.value)
      ensures ok ==> anchor == a
    {
      if a.None? || a.value == "" {
        return false;
      }
      for i := 0 to |a.value|
        invariant forall j | 0 <= j < i :: IsAlpha(a.value[j] as nat)
      {
        if !IsAlpha(a.value[i] as nat) {
          return false;
        }
      }
      anchor := a;
      return true;
    }

    method AnalyzeEvent() returns (ok: bool)
      requires events != []
      modifies this`anchor, this`tagData, this`analysis
      ensures ok <==> IsAnalyzable(events[0], options.canonical)
      ensures ok ==> Analyzed()
    {
      hide IsAnchor, Tags.Shorten, IsAnalysis;
      var e := events[0];
      anchor, tagData := None, Tags.NO_TAG;
      if BeginsNode(e) && (e.Alias? || e.anchor.Some?) {
        ok := AnalyzeAnchor(e.anchor);
        if !ok {
          return;
        }
      }
      if WritesTag(e, options.canonical) {
        ok, tagData := Tags.AnalyzeTag(e.tag.value, tagDirectives);
        if !ok {
          return;
        }
      }
      if e.Scalar? {
        analysis := AnalyzeScalar(TextOf(e.value), options.unicode);
      }
      ok := true;
    }

    // ---- The states ----

    /** What a state function does: it processes the head of the queue as the transitions say. */
    twostate predicate Took(ok: bool)
      requires old(events) != []
      reads this, w
    {
      && w.Valid() && IsLaidOut() && events == old(events) && seen == old(seen) && history == old(history)
      && Result(ok) == Next(old(Now()), events, options, old(w.indention))
      && (ok ==> Sheet() == StepPage(old(Now()), events, options, old(Sheet())))
    }

    function Result(ok: bool): Option<Config>
      reads this
    {
      if ok then Some(Now()) else None
    }

    /** The writer is at hand and the head of the queue is analyzed. */
    ghost predicate Ready()
      reads this, w
    {
      w.Valid() && IsLaidOut() && Analyzed() && Tags.ValidHandles(tagDirectives)
    }

    method WriteIndent()
      requires w.Valid()
      modifies w
      ensures w.Valid() && Sheet() == Lined(old(Sheet()), indent, options)
    {
      w.WriteIndent(LayoutNow());
    }

    function LayoutNow(): Settings
      reads this
    {
      SettingsAt(indent, options, !simpleKeyContext)
    }

    method Indicate(indicator: string, needWhitespace: bool, isWhitespace: bool, isIndention: bool)
      requires w.Valid() && forall i | 0 <= i < |indicator| :: '!' <= indicator[i] <= '~'
      modifies w
      ensures w.Valid()
      ensures Sheet() == Marked(old(Sheet()), indicator, needWhitespace, isWhitespace, isIndention)
    {
      hide ColumnOf;
      w.WriteIndicator(TextOf(indicator), needWhitespace, isWhitespace, isIndention);
    }

    /** Settles the indentation and the width. */
    method SetLayout()
      requires bestIndent == options.bestIndent && bestWidth == options.bestWidth
      modifies this`bestIndent, this`bestWidth
      ensures bestIndent == BestIndent(options) && bestWidth == BestWidth(options)
    {
      if bestIndent < 2 || bestIndent > 9 {
        bestIndent := 2;
      }
      if bestWidth >= 0 && bestWidth <= bestIndent * 2 {
        bestWidth := 80;
      }
      if bestWidth < 0 {
        bestWidth := 0x7FFF_FFFF;
      }
    }

    method EmitStreamStart() returns (ok: bool)
      requires Ready() && state == StreamStartState
      modifies this, w
      ensures Took(ok)
    {
      hide IsAnalyzable, IsAnalysis, TagDataOf, ColumnOf, Next, Tags.ValidHandles, BestIndent, BestWidth, StepPage;
      OutsideNext(Now(), events, options, w.indention);
      StreamStartPage(Now(), events, options, Sheet());
      openEnded := 0;
      if !events[0].StreamStart? {
        return false;
      }
      SetLayout();
      indent := -1;
      w.whitespace, w.indention := true, true;
      state := FirstDocumentStartState;
      return true;
    }

    method AppendTagDirective(value: TagDirective, allowDuplicates: bool) returns (ok: bool)
      modifies this`tagDirectives
      ensures ok <==> allowDuplicates || !Parser.HasHandle(old(tagDirectives), value.handle)
      ensures ok ==> tagDirectives == Parser.WithDirective(old(tagDirectives), value)
    {
      for i := 0 to |tagDirectives|
        invariant forall j | 0 <= j < i :: tagDirectives[j].handle != value.handle
        invariant tagDirectives == old(tagDirectives)
      {
        if tagDirectives[i].handle == value.handle {
          return allowDuplicates;
        }
      }
      tagDirectives := tagDirectives + [value];
      return true;
    }

    method AnalyzeTagDirective(d: TagDirective) returns (ok: bool)
      ensures ok <==> IsDirective(d)
    {
      if d.handle == "" || d.handle[0] != '!' || d.handle[|d.handle| - 1] != '!' {
        return false;
      }
      var i := 1;
      while i < |d.handle| - 1
        invariant 1 <= i
        invariant forall j | 1 <= j < i && j < |d.handle| - 1 :: IsAlpha(d.handle[j] as nat)
      {
        if !IsAlpha(d.handle[i] as nat) {
          return false;
        }
        i := i + 1;
      }
      return d.prefix != "";
    }

    /** Installs the directives of a document. */
    method AppendDirectives(ds: seq<TagDirective>) returns (ok: bool)
      requires tagDirectives == []
      modifies this`tagDirectives
      ensures ok <==> (forall i | 0 <= i < |ds| :: IsDirective(ds[i])) && Parser.DistinctHandles(ds)
      ensures ok ==> tagDirectives == Parser.WithDefaults(ds)
    {
      hide IsDirective;
      for i := 0 to |ds|
        invariant tagDirectives == ds[..i] && Parser.DistinctHandles(ds[..i])
        invariant forall j | 0 <= j < i :: IsDirective(ds[j])
      {
        ok := AnalyzeTagDirective(ds[i]);
        if !ok {
          return;
        }
        ok := AppendTagDirective(ds[i], false);
        if !ok {
          var j :| 0 <= j < |ds[..i]| && ds[..i][j].handle == ds[i].handle;
          assert ds[j].handle == ds[i].handle;
          return;
        }
        assert ds[..i] + [ds[i]] == ds[..i + 1];
      }
      assert ds[..|ds|] == ds;
      hide Parser.WithDirective;
      ok := AppendTagDirective(TagDirective("!", "!"), true);
      ok := AppendTagDirective(TagDirective("!!", "tag:yaml.org,2002:"), true);
    }

    method AnalyzeVersion(version: Option<Version>) returns (ok: bool)
      ensures ok <==> (version.Some? ==> version.value.major == 1 && (version.value.minor == 1 || version.value.minor == 2))
    {
      return version.None? || (version.value.major == 1 && (version.value.minor == 1 || version.value.minor == 2));
    }

    /** Writes the %YAML and the %TAG directives. */
    method WriteDirectives(version: Option<Version>, ds: seq<TagDirective>)
      requires w.Valid() && forall i | 0 <= i < |ds| :: IsDirective(ds[i])
      modifies w
      ensures w.Valid()
      ensures Sheet() == DirectivesPage(VersionPage(old(Sheet()), version, indent, options), ds, indent, options)
    {
      hide ColumnOf, Tags.ContentText, IsBreak, Marked, Lined, Worded, Tags.Spacer;
      ghost var goal := DirectivesPage(VersionPage(Sheet(), version, indent, options), ds, indent, options);
      if version.Some? {
        Indicate("%YAML", true, false, false);
        if version.value.minor == 1 {
          Indicate("1.1", true, false, false);
        } else {
          Indicate("1.2", true, false, false);
        }
        WriteIndent();
      }
      assert ds[0..] == ds;
      for i := 0 to |ds|
        invariant w.Valid() && DirectivesPage(Sheet(), ds[i..], indent, options) == goal
      {
        assert ds[i..][1..] == ds[i + 1..];
        WriteDirective(ds[i]);
      }
      assert ds[|ds|..] == [];
    }

    method WriteDirective(d: TagDirective)
      requires w.Valid() && IsDirective(d)
      modifies w
      ensures w.Valid() && Sheet() == DirectivePage(old(Sheet()), d, indent, options)
    {
      hide ColumnOf, Tags.ContentText, IsBreak, Marked, Lined;
      Indicate("%TAG", true, false, false);
      Tags.HandleHasNoBreak(d.handle);
      Tags.WriteName(w, TextOf(d.handle), true);
      Tags.WriteTagContent(w, TextOf(d.prefix), true);
      WriteIndent();
    }

    /** Writes what stands before the root of a document. */
    method WriteDocumentStart(e: Event, first: bool)
      requires w.Valid() && e.DocumentStart? && forall i | 0 <= i < |e.tagDirectives| :: IsDirective(e.tagDirectives[i])
      modifies w, this`openEnded
      ensures w.Valid() && Sheet() == StartPage(old(Sheet()), e, first, indent, options)
    {
      hide ColumnOf, IsDirective, IsBreak, Marked, Lined, VersionPage, DirectivesPage;
      var implicit := e.implicit && first && !options.canonical && e.version.None? && e.tagDirectives == [];
      if (e.version.Some? || e.tagDirectives != []) && openEnded != 0 {
        Indicate("...", true, false, false);
        WriteIndent();
      }
      openEnded := 0;
      WriteDirectives(e.version, e.tagDirectives);
      if !implicit {
        WriteIndent();
        Indicate("---", true, false, false);
        if options.canonical {
          WriteIndent();
        }
      }
    }

    /** Closes an open document before the end of the stream. */
    method WriteStreamEnd()
      requires w.Valid()
      modifies w, this`openEnded
      ensures w.Valid() && Sheet() == StreamEndPage(old(Sheet()), indent, options)
    {
      hide ColumnOf, IsBreak, Marked, Lined;
      if openEnded == 2 {
        Indicate("...", true, false, false);
        openEnded := 0;
        WriteIndent();
      }
    }

    method EmitDocumentStart(first: bool) returns (ok: bool)
      requires Ready() && tagDirectives == [] && state == if first then FirstDocumentStartState else DocumentStartState
      modifies this, w
      ensures Took(ok)
    {
      hide IsAnalysis, TagDataOf, ColumnOf, IsDirective, Parser.WithDefaults, Parser.DistinctHandles, IsAnchor, Next, StepPage,
        StartPage, StreamEndPage, BestIndent, BestWidth, Tags.ValidHandles;
      StartNext(Now(), events, options, w.indention);
      DocumentStartPage(Now(), events, options, Sheet());
      if events[0].DocumentStart? {
        ok := BeginDocument(first);
      } else if events[0].StreamEnd? {
        WriteStreamEnd();
        state := EndState;
        ok := true;
      } else {
        ok := false;
      }
    }

    /** Installs the directives of a document and writes what stands before its root. */
    method BeginDocument(first: bool) returns (ok: bool)
      requires w.Valid() && tagDirectives == [] && events != [] && events[0].DocumentStart?
      modifies w, this`tagDirectives, this`state, this`openEnded
      ensures w.Valid() && (ok <==> IsProper(events[0], options.canonical)) && (!ok ==> state == old(state))
      ensures ok ==> state == DocumentContentState && tagDirectives == Parser.WithDefaults(events[0].tagDirectives)
      ensures ok ==> Sheet() == StartPage(old(Sheet()), events[0], first, indent, options)
    {
      hide ColumnOf, IsDirective, Parser.WithDefaults, Parser.DistinctHandles, StartPage;
      ok := AnalyzeVersion(events[0].version);
      if ok {
        ok := AppendDirectives(events[0].tagDirectives);
      }
      if ok {
        WriteDocumentStart(events[0], first);
        state := DocumentContentState;
      }
    }

    method EmitDocumentEnd() returns (ok: bool)
      requires Ready() && state == DocumentEndState
      modifies this, w
      ensures Took(ok)
    {
      hide IsAnalyzable, IsAnalysis, TagDataOf, ColumnOf, IsBreak, Next, Tags.ValidHandles, StepPage, Marked, Lined, BestIndent, BestWidth;
      OutsideNext(Now(), events, options, w.indention);
      DocumentEndPage(Now(), events, options, Sheet());
      if !events[0].DocumentEnd? {
        return false;
      }
      WriteIndent();
      if !events[0].implicit {
        Indicate("...", true, false, false);
        openEnded := 0;
        WriteIndent();
      } else if openEnded == 0 {
        openEnded := 1;
      }
      state := DocumentStartState;
      tagDirectives := [];
      return true;
    }

    // ---- Nodes ----

    /** What emitting the node at the head of the queue does from `c`. */
    twostate predicate Emitted(ok: bool, c: Config)
      requires old(events) != [] && c.states != []
      reads this, w
    {
      && w.Valid() && IsLaidOut() && events == old(events) && seen == old(seen) && history == old(history)
      && Result(ok) == (if IsProper(events[0], options.canonical) then NodeNext(c, events, options.canonical) else None)
      && (ok ==> BeginsNode(events[0]) && Sheet() == NodePage(old(Sheet()), events[0], c, options))
    }

    method PopState()
      requires states != []
      modifies this`state, this`states
      ensures state == old(states)[|old(states)| - 1] && states == old(states)[..|old(states)| - 1]
    {
      state := states[|states| - 1];
      states := states[..|states| - 1];
    }

    method IncreaseIndent(flow: bool, indentless: bool)
      requires bestIndent == BestIndent(options)
      modifies this`indents, this`indent
      ensures indents == old(indents) + [old(indent)] && indent == Deeper(old(indent), BestIndent(options), flow, indentless)
    {
      indents := indents + [indent];
      if indent < 0 {
        indent := if flow then bestIndent else 0;
      } else if !indentless {
        indent := indent + bestIndent;
      }
    }

    method PopIndent()
      requires indents != []
      modifies this`indents, this`indent
      ensures indent == old(indents)[|old(indents)| - 1] && indents == old(indents)[..|old(indents)| - 1]
    {
      indent := indents[|indents| - 1];
      indents := indents[..|indents| - 1];
    }

    method EmitAlias() returns (ok: bool)
      requires Ready() && states != [] && events[0].Alias? && !state.StreamStartState? && !states[|states| - 1].StreamStartState?
      modifies this, w
      ensures ok && Emitted(ok, old(Now()))
    {
      hide IsAnchor, ColumnOf, IsAnalysis;
      ghost var c, p := Now(), w.CurrentPen();
      BangIsHandle();
      ProcessProperties(w, anchor, true, Tags.NO_TAG);
      ghost var properties := PropertiesText(events[0], c, options, p);
      assert w.text == old(w.text) + properties && properties != [];
      if simpleKeyContext {
        w.Put(SPACE);
      }
      Assoc(old(w.text), properties, [SPACE]);
      assert properties + [] == properties;
      PopState();
      return true;
    }

    /** Chooses the style of a scalar; without a tag it may get the tag `!`. */
    method SelectScalarStyle() returns (ok: bool, style: ScalarStyle)
      requires Ready() && events[0].Scalar?
      modifies this`tagData
      ensures ok <==> IsProper(events[0], options.canonical)
      ensures ok ==> ChoiceOf(events[0], Now(), options).Chosen? && style == ChoiceOf(events[0], Now(), options).style
      ensures ok ==> !style.AnyScalarStyle?
      ensures ok ==> tagData == TagOf(events[0], Now(), options) && Tags.HasValidHandle(tagData)
    {
      hide IsAnalysis, IsAnchor, Tags.IsHandle;
      var e := events[0];
      AnalysisIs(analysis, TextOf(e.value), options.unicode);
      TagDataIs(e, options.canonical, tagDirectives);
      BangIsHandle();
      var choice := SelectStyle(e.scalarStyle, analysis, |e.value| == 0, Site(flowLevel > 0, simpleKeyContext, options.canonical),
        Tagging(tagData == Tags.NO_TAG, e.plainImplicit, e.quotedImplicit));
      assert choice == ChoiceOf(e, Now(), options);
      if choice.NoTagAndNotImplicit? {
        return false, Plain;
      }
      if choice.addsHandle {
        tagData := Tags.TagData(Some("!"), None);
      }
      return true, choice.style;
    }

    /** Writes the properties and the value of a scalar, indented one level deeper. */
    method WriteScalar(style: ScalarStyle)
      requires w.Valid() && events != [] && events[0].Scalar? && bestIndent == BestIndent(options)
      requires anchor == events[0].anchor && (anchor.Some? ==> IsAnchor(anchor.value))
      requires ChoiceOf(events[0], Now(), options).Chosen? && style == ChoiceOf(events[0], Now(), options).style && !style.AnyScalarStyle?
      requires tagData == TagOf(events[0], Now(), options) && Tags.HasValidHandle(tagData)
      modifies w, this`openEnded, this`indents, this`indent
      ensures w.Valid() && Now() == old(Now())
      ensures Sheet() == NodePage(old(Sheet()), events[0], Now(), options)
    {
      hide IsAnchor, ColumnOf, AnchorText, ChoiceOf, TagOf, Tags.TagText, ScalarText, Tags.HasValidHandle, OpenEnd;
      ghost var c, p, before := Now(), w.CurrentPen(), w.text;
      ProcessProperties(w, anchor, false, tagData);
      ghost var properties := PropertiesText(events[0], c, options, p);
      assert w.text == before + properties && w.CurrentPen() == Tags.AfterProperty(p, properties);
      IncreaseIndent(true, false);
      ghost var content := ContentOf(events[0], c, options, w.CurrentPen());
      Assoc(before, properties, content);
      openEnded := ProcessScalar(w, style, LayoutNow(), TextOf(events[0].value), flowLevel > 0, bestIndent, openEnded);
      PopIndent();
      assert indents == c.indents;
    }

    method EmitScalar() returns (ok: bool)
      requires Ready() && states != [] && events[0].Scalar? && !state.StreamStartState? && !states[|states| - 1].StreamStartState?
      modifies this, w
      ensures Emitted(ok, old(Now()))
    {
      hide IsAnchor, ColumnOf, IsAnalysis, IsProper, ChoiceOf, TagOf, NodePage, Tags.HasValidHandle, TagDataOf;
      var style;
      ok, style := SelectScalarStyle();
      if ok {
        WriteScalar(style);
        PopState();
      }
    }

    /** Writes the properties of a collection. */
    method WriteProperties()
      requires Ready() && (events[0].SequenceStart? || events[0].MappingStart?)
      modifies w
      ensures w.Valid() && Sheet() == NodePage(old(Sheet()), events[0], Now(), options)
    {
      hide IsAnchor, ColumnOf, AnchorText, IsAnalysis, Tags.TagText, Tags.HasValidHandle, TagDataOf, NodePage, BestIndent, BestWidth;
      CollectionPage(Sheet(), events[0], Now(), options);
      TagDataIs(events[0], options.canonical, tagDirectives);
      ProcessProperties(w, anchor, false, tagData);
    }

    /** Emits the start of a collection, in flow style where it must be. */
    method EmitStart() returns (ok: bool)
      requires Ready() && states != [] && (events[0].SequenceStart? || events[0].MappingStart?) && !state.StreamStartState?
      modifies this, w
      ensures ok && Emitted(ok, old(Now()))
    {
      hide IsAnchor, ColumnOf, IsAnalysis, TagDataOf, NodePage, BestIndent, BestWidth, Tags.IsHandle;
      WriteProperties();
      var isEmpty := if events[0].SequenceStart? then CheckEmptySequence() else CheckEmptyMapping();
      if flowLevel > 0 || options.canonical || events[0].style.Flow? || isEmpty {
        state := if events[0].SequenceStart? then FlowSequenceFirstItemState else FlowMappingFirstKeyState;
      } else {
        state := if events[0].SequenceStart? then BlockSequenceFirstItemState else BlockMappingFirstKeyState;
      }
      return true;
    }

    /** Whether the queue starts with an empty sequence. */
    predicate CheckEmptySequence()
      reads this
    {
      |events| >= 2 && events[0].SequenceStart? && events[1].SequenceEnd?
    }

    predicate CheckEmptyMapping()
      reads this
    {
      |events| >= 2 && events[0].MappingStart? && events[1].MappingEnd?
    }

    method EmitNode(mapping: bool, simpleKey: bool) returns (ok: bool)
      requires Ready() && states != [] && !state.StreamStartState? && !states[|states| - 1].StreamStartState?
      modifies this, w
      ensures Emitted(ok, old(Now()).(mappingContext := mapping, simpleKeyContext := simpleKey))
    {
      hide IsAnchor, ColumnOf, NodePage, IsAnalysis, TagDataOf;
      mappingContext, simpleKeyContext := mapping, simpleKey;
      if events[0].Alias? {
        ok := EmitAlias();
      } else if events[0].Scalar? {
        ok := EmitScalar();
      } else if events[0].SequenceStart? || events[0].MappingStart? {
        ok := EmitStart();
      } else {
        ok := false;
      }
    }

    // ---- Collections ----

    method CheckSimpleKey() returns (b: bool)
      requires Ready()
      ensures b <==> IsSimpleKey(events, options.canonical, tagDirectives)
    {
      var e := events[0];
      var length := LengthOf(anchor) + LengthOf(tagData.handle) + LengthOf(tagData.suffix);
      if e.Alias? {
        length := LengthOf(anchor);
      } else if e.Scalar? {
        if analysis.multiline {
          return false;
        }
        length := length + ByteLength(e.value);
      } else if e.SequenceStart? {
        if !CheckEmptySequence() {
          return false;
        }
      } else if e.MappingStart? {
        if !CheckEmptyMapping() {
          return false;
        }
      } else {
        return false;
      }
      return length <= 128;
    }

    /** Enters a flow collection. */
    method EnterFlow(indicator: string)
      requires w.Valid() && bestIndent == BestIndent(options) && (indicator == "[" || indicator == "{")
      modifies w, this`indents, this`indent, this`flowLevel
      ensures w.Valid() && indents == old(indents) + [old(indent)] && flowLevel == old(flowLevel) + 1
      ensures indent == Deeper(old(indent), BestIndent(options), true, false)
      ensures Sheet() == Marked(old(Sheet()), indicator, true, true, false)
    {
      Indicate(indicator, true, true, false);
      IncreaseIndent(true, false);
      flowLevel := flowLevel + 1;
    }

    /** Leaves a flow collection. */
    method LeaveFlow(indicator: string, first: bool)
      requires w.Valid() && states != [] && indents != [] && flowLevel > 0 && (indicator == "]" || indicator == "}")
      modifies w, this`indents, this`indent, this`flowLevel, this`state, this`states
      ensures w.Valid() && flowLevel == old(flowLevel) - 1
      ensures indent == old(indents)[|old(indents)| - 1] && indents == old(indents)[..|old(indents)| - 1]
      ensures state == old(states)[|old(states)| - 1] && states == old(states)[..|old(states)| - 1]
      ensures
        var last := if options.canonical && !first then Lined(Marked(old(Sheet()), ",", false, false, false), indent, options)
                    else old(Sheet());
        Sheet() == Marked(last, indicator, false, false, false)
    {
      hide ColumnOf, Marked, Lined;
      flowLevel := flowLevel - 1;
      PopIndent();
      if options.canonical && !first {
        Indicate(",", false, false, false);
        WriteIndent();
      }
      Indicate(indicator, false, false, false);
      PopState();
    }

    /** Writes what separates an item or a key of a flow collection from what stands before. */
    method SeparateFlow(first: bool)
      requires w.Valid() && bestWidth == BestWidth(options)
      modifies w
      ensures w.Valid()
      ensures Sheet() == Wrapped(if first then old(Sheet()) else Marked(old(Sheet()), ",", false, false, false), indent, options)
    {
      hide ColumnOf, Marked, Lined, BestWidth;
      if !first {
        Indicate(",", false, false, false);
      }
      if options.canonical || w.column > bestWidth {
        WriteIndent();
      }
    }

    /** The emitter has entered the collection that `c` is in or about to enter. */
    ghost predicate IsInsideOf(c: Config, indention: bool)
      reads this
    {
      IsInside(c.state) && Now() == Started(c, options, indention).(state := c.state)
    }

    /** Emits a child of the collection that `c` is in. */
    method EmitChild(k: State, simpleKey: bool, ghost c: Config, ghost indention: bool) returns (ok: bool)
      requires Ready() && IsInsideOf(c, indention) && !k.StreamStartState?
      requires
        var inner := Started(c, options, indention).state;
        && !EndsCollection(inner, events[0]) && k == Following(inner, simpleKey)
        && simpleKey == TakesSimpleKey(inner, events, options.canonical, tagDirectives)
      modifies this, w
      ensures w.Valid() && IsLaidOut() && events == old(events) && seen == old(seen) && history == old(history)
      ensures Result(ok) == Next(c, events, options, indention)
      ensures ok ==>
        && BeginsNode(events[0])
        && Sheet() == NodePage(old(Sheet()), events[0], ChildConfig(Started(c, options, indention), simpleKey), options)
    {
      hide IsAnchor, ColumnOf, IsAnalysis, IsProper, NodePage, TagDataOf, Next, NodeNext, IsSimpleKey, IsAnalyzable, WritesTag,
        EndsCollection, Tags.IsHandle, TakesSimpleKey, Following, Enters, TopOf;
      InsideHasNoStart(c.state);
      states := states + [k];
      ghost var inner := Started(c, options, indention).state;
      var mapping := IsMappingState(k);
      FollowsKind(inner, simpleKey);
      StepsIntoNode(c, events, options, indention, simpleKey, Now().(mappingContext := mapping, simpleKeyContext := simpleKey));
      ghost var x := Now().(mappingContext := mapping, simpleKeyContext := simpleKey);
      ok := EmitNode(mapping, simpleKey);
      if ok {
        NodePageSame(old(Sheet()), events[0], x, ChildConfig(Started(c, options, indention), simpleKey), options);
      }
    }

    method EmitItem(flow: bool, ghost c: Config, ghost indention: bool) returns (ok: bool)
      requires Ready() && IsInsideOf(c, indention) && !events[0].SequenceEnd?
      requires Started(c, options, indention).state == if flow then FlowSequenceItemState else BlockSequenceItemState
      modifies this, w
      ensures w.Valid() && IsLaidOut() && events == old(events) && seen == old(seen) && history == old(history)
      ensures Result(ok) == Next(c, events, options, indention)
      ensures ok ==>
        && BeginsNode(events[0])
        && Sheet() == NodePage(old(Sheet()), events[0], ChildConfig(Started(c, options, indention), false), options)
    {
      hide IsAnchor, ColumnOf, IsAnalysis, TagDataOf, Next, IsSimpleKey, IsAnalyzable, Tags.IsHandle, Enters;
      ok := EmitChild(if flow then FlowSequenceItemState else BlockSequenceItemState, false, c, indention);
    }

    /** Enters a flow collection if that is still to be done. */
    method StartFlow(first: bool, ghost c: Config, ghost indention: bool)
      requires Ready() && Now() == c && w.indention == indention
      requires if first then state.FlowSequenceFirstItemState? || state.FlowMappingFirstKeyState?
               else state.FlowSequenceItemState? || state.FlowMappingKeyState?
      modifies w, this`indents, this`indent, this`flowLevel
      ensures Ready() && IsInsideOf(c, indention)
      ensures Sheet() == OpenedPage(old(Sheet()), state)
    {
      hide ColumnOf, IsAnalysis, TagDataOf, IsAnalyzable, Started, IsInside, IsFlow, Leaves, Deeper, Marked, Tags.IsHandle;
      FlowIs(c, options, indention);
      if first {
        EnterFlow(if state.FlowSequenceFirstItemState? then "[" else "{");
      }
    }

    /** Ends a flow collection. */
    method EndFlow(first: bool, isSequence: bool, ghost c: Config, ghost indention: bool, ghost g: Page)
      requires first == IsFirst(c.state) && indention == g.indention && Sheet() == OpenedPage(g, c.state)
      requires w.Valid() && IsLaidOut() && IsInsideOf(c, indention) && Fits(c) && events != []
      requires if isSequence then (c.state.FlowSequenceFirstItemState? || c.state.FlowSequenceItemState?) && events[0].SequenceEnd?
               else (c.state.FlowMappingFirstKeyState? || c.state.FlowMappingKeyState?) && events[0].MappingEnd?
      modifies w, this`indents, this`indent, this`flowLevel, this`state, this`states
      ensures w.Valid() && IsLaidOut() && Result(true) == Next(c, events, options, indention)
      ensures Sheet() == StepPage(c, events, options, g)
    {
      hide ColumnOf, Next, Fits, Started, IsInside, IsFlow, Leaves, Deeper, Marked, Lined, StepPage;
      FlowIs(c, options, indention);
      StepOutPage(c, events, options, g);
      ghost var outer := Started(c, options, indention).indents;
      FlowClosePage(g, c.state, outer[|outer| - 1], options);
      StartedHas(c, options, indention);
      StepsOut(c, events, options, indention);
      LeaveFlow(if isSequence then "]" else "}", first);
    }

    method EmitFlowSequenceItem(first: bool) returns (ok: bool)
      requires Ready() && Fits(Now()) && state == if first then FlowSequenceFirstItemState else FlowSequenceItemState
      modifies this, w
      ensures Took(ok)
    {
      hide ColumnOf, IsAnalysis, TagDataOf, Next, Fits, IsAnalyzable, Started, IsInside, IsFlow, Leaves, BestIndent, BestWidth,
        StepPage, NodePage, Marked, Lined, TakesSimpleKey, ChildConfig, Tags.IsHandle;
      ghost var c, indention := Now(), w.indention;
      FlowIs(c, options, indention);
      StartFlow(first, c, indention);
      if events[0].SequenceEnd? {
        EndFlow(first, true, c, indention, old(Sheet()));
        return true;
      }
      SeparateFlow(first);
      ok := EmitItem(true, c, indention);
      if ok {
        StepInPage(c, events, options, old(Sheet()));
      }
    }

    method EmitFlowMappingKey(first: bool) returns (ok: bool)
      requires Ready() && Fits(Now()) && state == if first then FlowMappingFirstKeyState else FlowMappingKeyState
      modifies this, w
      ensures Took(ok)
    {
      hide ColumnOf, IsAnalysis, TagDataOf, Next, Fits, IsAnalyzable, Started, IsInside, IsFlow, Leaves, BestIndent, BestWidth,
        StepPage, NodePage, Marked, Lined, TakesSimpleKey, ChildConfig, Tags.IsHandle;
      ghost var c, indention := Now(), w.indention;
      FlowIs(c, options, indention);
      StartFlow(first, c, indention);
      if events[0].MappingEnd? {
        EndFlow(first, false, c, indention, old(Sheet()));
        return true;
      }
      SeparateFlow(first);
      ok := EmitKey(true, c, indention);
      if ok {
        StepInPage(c, events, options, old(Sheet()));
      }
    }

    /** Emits a key, simple or not. */
    method EmitKey(flow: bool, ghost c: Config, ghost indention: bool) returns (ok: bool)
      requires Ready() && IsInsideOf(c, indention) && !events[0].MappingEnd?
      requires Started(c, options, indention).state == if flow then FlowMappingKeyState else BlockMappingKeyState
      modifies this, w
      ensures w.Valid() && IsLaidOut() && events == old(events) && seen == old(seen) && history == old(history)
      ensures Result(ok) == Next(c, events, options, indention)
      ensures ok ==>
        var d := Started(c, options, indention);
        var simpleKey := TakesSimpleKey(d.state, events, options.canonical, d.tagDirectives);
        && BeginsNode(events[0])
        && Sheet() == NodePage(if simpleKey then old(Sheet()) else Marked(old(Sheet()), "?", true, false, !flow),
                               events[0], ChildConfig(d, simpleKey), options)
    {
      hide IsAnchor, ColumnOf, IsAnalysis, TagDataOf, Next, IsSimpleKey, IsAnalyzable, Tags.IsHandle, Enters;
      var simple := CheckSimpleKey();
      if (flow && options.canonical) || !simple {
        Indicate("?", true, false, !flow);
        ok := EmitChild(if flow then FlowMappingValueState else BlockMappingValueState, false, c, indention);
      } else {
        ok := EmitChild(if flow then FlowMappingSimpleValueState else BlockMappingSimpleValueState, true, c, indention);
      }
    }

    method EmitFlowMappingValue(simple: bool) returns (ok: bool)
      requires Ready() && Fits(Now()) && state == if simple then FlowMappingSimpleValueState else FlowMappingValueState
      modifies this, w
      ensures Took(ok)
    {
      hide IsAnchor, ColumnOf, IsAnalysis, TagDataOf, Next, Fits, IsSimpleKey, IsAnalyzable, Marked, Lined, NodePage, StepPage,
        ChildConfig, BestIndent, BestWidth, Tags.IsHandle;
      ghost var c, indention := Now(), w.indention;
      if simple {
        Indicate(":", false, false, false);
      } else {
        if options.canonical || w.column > bestWidth {
          WriteIndent();
        }
        Indicate(":", true, false, false);
      }
      ok := EmitChild(FlowMappingKeyState, false, c, indention);
      if ok {
        StepInPage(c, events, options, old(Sheet()));
      }
    }

    /** Enters a block collection if that is still to be done. */
    method StartBlock(first: bool, ghost c: Config, ghost indention: bool)
      requires Ready() && Now() == c && w.indention == indention
      requires if first then state.BlockSequenceFirstItemState? || state.BlockMappingFirstKeyState?
               else state.BlockSequenceItemState? || state.BlockMappingKeyState?
      modifies this`indents, this`indent
      ensures Ready() && IsInsideOf(c, indention)
    {
      hide ColumnOf, IsAnalysis, TagDataOf, IsAnalyzable, Started, IsInside, IsFlow, Leaves, Deeper, Tags.IsHandle;
      BlockIs(c, options, indention);
      if first {
        IncreaseIndent(false, state.BlockSequenceFirstItemState? && mappingContext && !w.indention);
      }
    }

    /** Ends a block collection. */
    method EndBlock(ghost c: Config)
      requires w.Valid() && IsLaidOut() && IsInsideOf(c, w.indention) && Fits(c) && events != []
      requires if c.state.BlockSequenceFirstItemState? || c.state.BlockSequenceItemState? then events[0].SequenceEnd?
               else (c.state.BlockMappingFirstKeyState? || c.state.BlockMappingKeyState?) && events[0].MappingEnd?
      modifies this`indents, this`indent, this`state, this`states
      ensures w.Valid() && IsLaidOut() && Result(true) == Next(c, events, options, w.indention)
      ensures Sheet() == StepPage(c, events, options, Sheet())
    {
      hide ColumnOf, Next, Fits, Started, IsInside, Leaves, Deeper, StepPage, BestIndent, BestWidth, IsFlow, IsBlock;
      BlockEnds(c, events, options, Sheet());
      PopIndent();
      PopState();
    }

    method EmitBlockSequenceItem(first: bool) returns (ok: bool)
      requires Ready() && Fits(Now()) && state == if first then BlockSequenceFirstItemState else BlockSequenceItemState
      modifies this, w
      ensures Took(ok)
    {
      hide ColumnOf, IsAnalysis, TagDataOf, Next, Fits, IsAnalyzable, Started, IsInside, IsFlow, Leaves, BestIndent, BestWidth,
        StepPage, NodePage, Marked, Lined, TakesSimpleKey, ChildConfig, Tags.IsHandle;
      ghost var c, indention := Now(), w.indention;
      BlockIs(c, options, indention);
      StartBlock(first, c, indention);
      if events[0].SequenceEnd? {
        EndBlock(c);
        return true;
      }
      ok := EmitDash(c, indention);
    }

    /** Emits the next item of a block sequence. */
    method EmitDash(ghost c: Config, ghost indention: bool) returns (ok: bool)
      requires Ready() && IsInsideOf(c, indention) && !events[0].SequenceEnd? && indention == w.indention
      requires c.state.BlockSequenceFirstItemState? || c.state.BlockSequenceItemState?
      modifies this, w
      ensures w.Valid() && IsLaidOut() && events == old(events) && seen == old(seen) && history == old(history)
      ensures Result(ok) == Next(c, events, options, indention)
      ensures ok ==> Sheet() == StepPage(c, events, options, old(Sheet()))
    {
      hide ColumnOf, IsAnalysis, TagDataOf, Next, Fits, IsAnalyzable, Started, IsInside, IsFlow, Leaves, BestIndent, BestWidth,
        StepPage, NodePage, Marked, Lined, TakesSimpleKey, ChildConfig, Tags.IsHandle;
      BlockIs(c, options, indention);
      WriteIndent();
      Indicate("-", true, false, true);
      ok := EmitItem(false, c, indention);
      if ok {
        StepInPage(c, events, options, old(Sheet()));
      }
    }

    method EmitBlockMappingKey(first: bool) returns (ok: bool)
      requires Ready() && Fits(Now()) && state == if first then BlockMappingFirstKeyState else BlockMappingKeyState
      modifies this, w
      ensures Took(ok)
    {
      hide ColumnOf, IsAnalysis, TagDataOf, Next, Fits, IsAnalyzable, Started, IsInside, IsFlow, Leaves, BestIndent, BestWidth,
        StepPage, NodePage, Marked, Lined, TakesSimpleKey, ChildConfig, Tags.IsHandle;
      ghost var c, indention := Now(), w.indention;
      BlockIs(c, options, indention);
      StartBlock(first, c, indention);
      if events[0].MappingEnd? {
        EndBlock(c);
        return true;
      }
      WriteIndent();
      ok := EmitKey(false, c, indention);
      if ok {
        StepInPage(c, events, options, old(Sheet()));
      }
    }

    method EmitBlockMappingValue(simple: bool) returns (ok: bool)
      requires Ready() && Fits(Now()) && state == if simple then BlockMappingSimpleValueState else BlockMappingValueState
      modifies this, w
      ensures Took(ok)
    {
      hide IsAnchor, ColumnOf, IsAnalysis, TagDataOf, Next, Fits, IsSimpleKey, IsAnalyzable, Marked, Lined, NodePage, StepPage,
        ChildConfig, BestIndent, BestWidth, Tags.IsHandle;
      ghost var c, indention := Now(), w.indention;
      if simple {
        Indicate(":", false, false, false);
      } else {
        WriteIndent();
        Indicate(":", true, false, true);
      }
      ok := EmitChild(BlockMappingKeyState, false, c, indention);
      if ok {
        StepInPage(c, events, options, old(Sheet()));
      }
    }

    method EmitDocumentContent() returns (ok: bool)
      requires Ready() && state == DocumentContentState
      modifies this, w
      ensures Took(ok)
    {
      hide IsAnchor, ColumnOf, IsAnalysis, IsProper, NodePage, TagDataOf, NodeNext, IsAnalyzable, Tags.IsHandle, EnteredNext, Started,
        StepPage, BestIndent, BestWidth;
      RootPage(Now(), events, options, Sheet());
      ghost var c := Now();
      states := states + [DocumentEndState];
      assert Now().(mappingContext := false, simpleKeyContext := false) == Expecting(c, false, false, DocumentEndState);
      ok := EmitNode(false, false);
    }

    /** Processes the event at the head of the queue. */
    method StateMachine() returns (ok: bool)
      requires Ready() && Fits(Now())
      modifies this, w
      ensures Took(ok)
    {
      OutsideHasNoDirectives(Now());
      hide Ready, Fits, Next, Took;
      match state {
        case StreamStartState => ok := EmitStreamStart();
        case FirstDocumentStartState => ok := EmitDocumentStart(true);
        case DocumentStartState => ok := EmitDocumentStart(false);
        case DocumentContentState => ok := EmitDocumentContent();
        case DocumentEndState => ok := EmitDocumentEnd();
        case FlowSequenceFirstItemState => ok := EmitFlowSequenceItem(true);
        case FlowSequenceItemState => ok := EmitFlowSequenceItem(false);
        case FlowMappingFirstKeyState => ok := EmitFlowMappingKey(true);
        case FlowMappingKeyState => ok := EmitFlowMappingKey(false);
        case FlowMappingSimpleValueState => ok := EmitFlowMappingValue(true);
        case FlowMappingValueState => ok := EmitFlowMappingValue(false);
        case BlockSequenceFirstItemState => ok := EmitBlockSequenceItem(true);
        case BlockSequenceItemState => ok := EmitBlockSequenceItem(false);
        case BlockMappingFirstKeyState => ok := EmitBlockMappingKey(true);
        case BlockMappingKeyState => ok := EmitBlockMappingKey(false);
        case BlockMappingSimpleValueState => ok := EmitBlockMappingValue(true);
        case BlockMappingValueState => ok := EmitBlockMappingValue(false);
        case EndState => ok := EmitNothing();
      }
    }

    /** Nothing is expected after the end of the stream. */
    method EmitNothing() returns (ok: bool)
      requires Ready() && state == EndState
      ensures Took(ok)
    {
      return false;
    }

    /** The event at the head of the queue was refused: it cannot be written, or is out of place. */
    ghost predicate Refused()
      reads this
    {
      && IsHistory(history, seen, options) && |history| <= |seen| && events == seen[|history| - 1..]
      && var e := seen[|history| - 1];
         !IsProper(e, options.canonical) || !Admits(NestOf(history[|history| - 1].config), e)
    }

    /** Processes one event. */
    method Process() returns (ok: bool)
      requires Valid() && !Waits(events)
      modifies this, w
      ensures seen == old(seen) && old(history) <= history
      ensures ok ==> Valid() && events == old(events)[1..]
      ensures !ok ==> Refused()
    {
      hide Fits, Next, IsProper, IsAnalyzable, IsAnalysis, TagDataOf, IsHistory, Waits, NestOf, Admits, Tags.ValidHandles, StepPage, BestIndent,
        BestWidth, ColumnOf;
      HistoryIs(history, seen, options);
      HeadNests(history, seen, options, w.indention);
      FitsDirectives(Now());
      ok := AnalyzeEvent();
      if !ok {
        ProperIsAnalyzable(events[0], options.canonical);
        return;
      }
      ok := StateMachine();
      if !ok {
        return;
      }
      StepRecorded(history, seen, Desk(Now(), Sheet()), options);
      history := history + [Desk(Now(), Sheet())];
      events := events[1..];
    }

    /** Takes one more event and processes all that need not wait. */
    method Emit(e: Event) returns (ok: bool)
      requires Valid()
      modifies this, w
      ensures seen == old(seen) + [e] && old(history) <= history
      ensures ok ==> Valid() && Waits(events)
      ensures !ok ==> Refused()
    {
      hide Next, IsProper, IsHistory, Waits, NestOf, Admits;
      HistoryStays(history, seen, [e], options);
      HistoryIs(history, seen, options);
      events := events + [e];
      seen := seen + [e];
      ok := true;
      while true
        invariant ok && Valid() && seen == old(seen) + [e] && old(history) <= history
        decreases |events|
      {
        var wait := NeedMoreEvents();
        if wait {
          return;
        }
        NoWaitSuffices(events);
        ok := Process();
        if !ok {
          return;
        }
      }
    }
  }

  /** The next event is accepted exactly if it is proper and in place. */
  lemma HeadNests(history: seq<Desk>, seen: seq<Event>, o: Options, indention: bool)
    requires IsHistory(history, seen, o) && 0 < |history| && !Waits(seen[|history| - 1..])
    ensures
      var n := |history| - 1;
      var c := history[n].config;
      && n < |seen| && seen[n..][0] == seen[n] && Fits(c)
      && (Next(c, seen[n..], o, indention).Some? <==> IsProper(seen[n], o.canonical) && Admits(NestOf(c), seen[n]))
  {
    hide Fits, Next, IsProper, IsHistory, NestOf, Admits, StepPage;
    var n := |history| - 1;
    HistoryIs(history, seen, o);
    NoWaitSuffices(seen[n..]);
    HistoryNests(history, seen, o, n);
    NextNests(history[n].config, seen[n..], o, indention);
  }

  lemma StepRecorded(history: seq<Desk>, seen: seq<Event>, d: Desk, o: Options)
    requires IsHistory(history, seen, o) && 0 < |history| && !Waits(seen[|history| - 1..]) && |history| <= |seen|
    requires StepsTo(history[|history| - 1], seen[|history| - 1..], o, d)
    ensures IsHistory(history + [d], seen, o) && seen[|history| - 1..][1..] == seen[|history|..]
  {
    hide IsHistory, StepsTo;
    NoWaitSuffices(seen[|history| - 1..]);
    HistoryGrows(history, seen, d, o);
  }

  lemma NoHistory(o: Options)
    ensures IsHistory([Desk(INITIAL, BLANK_PAGE)], [], o)
  {
  }

  lemma HistoryIs(history: seq<Desk>, events: seq<Event>, o: Options)
    requires IsHistory(history, events, o)
    ensures 0 < |history| <= |events| + 1
  {
  }

  lemma FitsDirectives(c: Config)
    requires Fits(c)
    ensures Tags.ValidHandles(c.tagDirectives)
  {
  }

  lemma ProperIsAnalyzable(e: Event, canonical: bool)
    ensures IsProper(e, canonical) ==> IsAnalyzable(e, canonical)
  {
  }

  predicate AllProper(events: seq<Event>, canonical: bool) {
    forall i | 0 <= i < |events| :: IsProper(events[i], canonical)
  }

  lemma HistoryIsProper(history: seq<Desk>, events: seq<Event>, o: Options)
    requires IsHistory(history, events, o)
    ensures AllProper(events[..|history| - 1], o.canonical)
  {
    hide Next, IsProper;
    var done := events[..|history| - 1];
    forall i | 0 <= i < |done| ensures IsProper(done[i], o.canonical) {
      assert StepsTo(history[i], events[i..], o, history[i + 1]);
      HistoryNests(history, events, o, i);
      StepNests(history[i], events[i..], o, history[i + 1]);
    }
  }

  /** A whole run of the emitter over any events.  Each event is processed once and in order, by the
      step that the whole remaining sequence calls for, and so is the text; at most three are held
      back.  The emitter stops exactly at the first event that cannot be written or is out of place, so it accepts
      every complete, well nested stream of events that can be written. */
  method EmitStream(events: seq<Event>, o: Options) returns (ok: bool, processed: nat, text: Text, ghost history: seq<Desk>)
    ensures processed <= |events| && |history| == processed + 1 && IsHistory(history, events, o)
    ensures ok ==> text == history[processed].page.text
    ensures AllProper(events[..processed], o.canonical)
    ensures Run(Outside, events[..processed]) == Some(NestOf(history[processed].config)) && Fits(history[processed].config)
    ensures ok ==> Waits(events[processed..]) && |events| - processed <= 3
    ensures !ok ==>
      && processed < |events|
      && (!IsProper(events[processed], o.canonical) || Run(Outside, events[..processed + 1]) == None)
    ensures AllProper(events, o.canonical) && Run(Outside, events) == Some(Finished) ==> ok && processed == |events|
  {
    hide *;
    var emitter := new Emitter(o);
    var i;
    ok, i := EmitAll(emitter, events);
    history, text := emitter.history, emitter.w.text;
    StoppedIs(emitter, events, i, ok);
    processed := i - |emitter.events|;
    Concludes(events, i, history, ok, o);
  }

  /** Emits one event after the other until one is refused. */
  method EmitAll(emitter: Emitter, events: seq<Event>) returns (ok: bool, i: nat)
    requires emitter.Valid() && emitter.seen == [] && emitter.events == []
    modifies emitter, emitter.w
    ensures i <= |events| && emitter.seen == events[..i]
    ensures ok ==> i == |events| && emitter.Valid() && Waits(emitter.events)
    ensures !ok ==> emitter.Refused()
  {
    hide *;
    ok, i := true, 0;
    NoneTaken(events);
    EmptyWaits();
    while i < |events| && ok
      invariant i <= |events| && emitter.seen == events[..i]
      invariant ok ==> emitter.Valid() && Waits(emitter.events)
      invariant !ok ==> emitter.Refused()
    {
      OneMoreTaken(events, i);
      ok := emitter.Emit(events[i]);
      i := i + 1;
    }
  }

  lemma NoneTaken(events: seq<Event>)
    ensures events[..0] == []
  {
  }

  lemma OneMoreTaken(events: seq<Event>, i: nat)
    requires i < |events|
    ensures events[..i + 1] == events[..i] + [events[i]]
  {
  }

  /** What the emitter itself knows when it stops. */
  lemma StoppedIs(emitter: Emitter, events: seq<Event>, i: nat, ok: bool)
    requires i <= |events| && emitter.seen == events[..i]
    requires if ok then i == |events| && emitter.Valid() && Waits(emitter.events) else emitter.Refused()
    ensures
      var history, o := emitter.history, emitter.options;
      && IsHistory(history, events[..i], o) && 0 < |history| <= i + 1 && |emitter.events| == i - (|history| - 1)
      && (ok ==> i == |events| && Waits(events[..i][|history| - 1..]) && emitter.w.text == history[|history| - 1].page.text)
      && (!ok ==>
            && |history| <= i
            && (!IsProper(events[|history| - 1], o.canonical)
                || !Admits(NestOf(history[|history| - 1].config), events[|history| - 1])))
  {
    hide Next, IsProper, Waits, NestOf, Admits, StepPage, StepsTo, ColumnOf, BestIndent, BestWidth;
  }

  /** What is known when the emitter stops. */
  lemma Concludes(events: seq<Event>, i: nat, history: seq<Desk>, ok: bool, o: Options)
    requires i <= |events| && IsHistory(history, events[..i], o) && 0 < |history| <= i + 1
    requires ok ==> i == |events| && Waits(events[..i][|history| - 1..])
    requires !ok ==>
      && |history| <= i
      && (!IsProper(events[|history| - 1], o.canonical) || !Admits(NestOf(history[|history| - 1].config), events[|history| - 1]))
    ensures
      var n := |history| - 1;
      && IsHistory(history, events, o) && AllProper(events[..n], o.canonical)
      && Run(Outside, events[..n]) == Some(NestOf(history[n].config)) && Fits(history[n].config)
      && (ok ==> Waits(events[n..]) && |events| - n <= 3)
      && (!ok ==> !IsProper(events[n], o.canonical) || Run(Outside, events[..n + 1]) == None)
      && (AllProper(events, o.canonical) && Run(Outside, events) == Some(Finished) ==> ok && n == |events|)
  {
    hide Next, IsProper, IsHistory, Waits, NestOf, Admits, Fits, AllProper, Run, StepPage, StepsTo;
    var n := |history| - 1;
    assert events[..i] + events[i..] == events;
    HistoryStays(history, events[..i], events[i..], o);
    HistoryNests(history, events, o, n);
    HistoryIsProper(history, events, o);
    if ok {
      assert events[..i] == events;
      WaitsForThree(events[n..]);
      if Run(Outside, events) == Some(Finished) {
        Completes(history[n].config, events, n, o);
      }
    } else {
      RefusalSpoils(history[n].config, events, n, o);
    }
  }

  lemma EmptyWaits()
    ensures Waits([])
  {
  }

  /** What is left of a complete stream does not wait. */
  lemma Completes(c: Config, events: seq<Event>, n: nat, o: Options)
    requires n <= |events| && Run(Outside, events[..n]) == Some(NestOf(c))
    requires Waits(events[n..]) && Run(Outside, events) == Some(Finished)
    ensures n == |events|
  {
    hide Waits, NestOf;
    assert events[..n] + events[n..] == events;
    RunAppend(Outside, events[..n], events[n..]);
    if n < |events| {
      CompleteDoesNotWait(NestOf(c), events[n..]);
    }
  }

  /** An event that is out of place spoils the run. */
  lemma RefusalSpoils(c: Config, events: seq<Event>, n: nat, o: Options)
    requires n < |events| && Run(Outside, events[..n]) == Some(NestOf(c))
    requires !IsProper(events[n], o.canonical) || !Admits(NestOf(c), events[n])
    ensures !IsProper(events[n], o.canonical) || Run(Outside, events[..n + 1]) == None
    ensures !(AllProper(events, o.canonical) && Run(Outside, events) == Some(Finished))
  {
    hide NestOf, IsProper, Admits;
    assert events[..n + 1] == events[..n] + [events[n]] && events == events[..n + 1] + events[n + 1..];
    RunAppend(Outside, events[..n], [events[n]]);
    RunAppend(Outside, events[..n + 1], events[n + 1..]);
  }
}
