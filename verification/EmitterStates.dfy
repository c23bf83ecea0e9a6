/** The states of the emitter, how they and the stacks encode the nesting of the events, and what
    each transition keeps. */
module EmitterStates {
  import opened Events
  import opened Nesting
  import opened Characters
  import Layout
  import Encodings
  import Parser
  import Tags

  datatype State =
    | StreamStartState | FirstDocumentStartState | DocumentStartState | DocumentContentState | DocumentEndState
    | FlowSequenceFirstItemState | FlowSequenceItemState
    | FlowMappingFirstKeyState | FlowMappingKeyState | FlowMappingSimpleValueState | FlowMappingValueState
    | BlockSequenceFirstItemState | BlockSequenceItemState
    | BlockMappingFirstKeyState | BlockMappingKeyState | BlockMappingSimpleValueState | BlockMappingValueState
    | EndState

  /** What the control of the emitter depends on. */
  datatype Config = Config(
    state: State, states: seq<State>, indents: seq<int>, indent: int, flowLevel: nat,
    mappingContext: bool, simpleKeyContext: bool, tagDirectives: seq<TagDirective>)

  predicate IsOutside(k: State) {
    k.StreamStartState? || k.FirstDocumentStartState? || k.DocumentStartState? || k.EndState?
  }

  predicate IsFirst(k: State) {
    || k.FlowSequenceFirstItemState? || k.FlowMappingFirstKeyState?
    || k.BlockSequenceFirstItemState? || k.BlockMappingFirstKeyState?
  }

  /** The states inside a collection that was entered. */
  predicate IsEntered(k: State) {
    || k.FlowSequenceItemState? || k.FlowMappingKeyState? || k.FlowMappingSimpleValueState? || k.FlowMappingValueState?
    || k.BlockSequenceItemState? || k.BlockMappingKeyState? || k.BlockMappingSimpleValueState? || k.BlockMappingValueState?
  }

  predicate IsFlow(k: State) {
    || k.FlowSequenceFirstItemState? || k.FlowMappingFirstKeyState?
    || k.FlowSequenceItemState? || k.FlowMappingKeyState? || k.FlowMappingSimpleValueState? || k.FlowMappingValueState?
  }

  predicate IsBlock(k: State) {
    (IsFirst(k) || IsEntered(k)) && !IsFlow(k)
  }

  function TopOf(k: State): Frame {
    if k.FlowSequenceFirstItemState? || k.FlowSequenceItemState? || k.BlockSequenceFirstItemState? || k.BlockSequenceItemState?
    then SequenceFrame
    else if k.DocumentContentState? || k.DocumentEndState? then DocumentFrame(k.DocumentEndState?)
    else MappingFrame(k.FlowMappingSimpleValueState? || k.FlowMappingValueState?
                      || k.BlockMappingSimpleValueState? || k.BlockMappingValueState?)
  }

  function FramesOf(states: seq<State>): Frames {
    if states == [] then Ground else On(FramesOf(states[..|states| - 1]), TopOf(states[|states| - 1]))
  }

  /** How many of the states are inside a collection, and inside a flow collection. */
  function EnteredIn(states: seq<State>): nat {
    if states == [] then 0 else EnteredIn(states[..|states| - 1]) + (if IsEntered(states[|states| - 1]) then 1 else 0)
  }

  function FlowsIn(states: seq<State>): nat {
    if states == [] then 0
    else FlowsIn(states[..|states| - 1]) + (if IsEntered(states[|states| - 1]) && IsFlow(states[|states| - 1]) then 1 else 0)
  }

  predicate StackFor(k: State, states: seq<State>) {
    if IsOutside(k) || k.DocumentContentState? || k.DocumentEndState? then states == []
    else states != [] && states[0] == DocumentEndState && forall i | 1 <= i < |states| :: IsEntered(states[i])
  }

  /** No block collection is inside a flow collection. */
  predicate NoBlockInFlow(states: seq<State>) {
    forall i, j | 0 <= i < j < |states| :: IsFlow(states[i]) ==> !IsBlock(states[j])
  }

  /** The indentation starts from -1, is never negative inside a collection, and never shrinks. */
  predicate LevelsFit(levels: seq<int>) {
    && levels != [] && levels[0] == -1
    && (forall i | 1 <= i < |levels| :: levels[i] >= 0)
    && (forall i, j | 0 <= i < j < |levels| :: levels[i] <= levels[j])
  }

  function All(c: Config): seq<State> {
    c.states + [c.state]
  }

  /** Inside a document the directives have distinct, valid handles; outside there are none. */
  predicate DirectivesFit(c: Config) {
    && (IsOutside(c.state) ==> c.tagDirectives == [])
    && Parser.DistinctHandles(c.tagDirectives) && Tags.ValidHandles(c.tagDirectives)
  }

  predicate Fits(c: Config) {
    && DirectivesFit(c)
    && StackFor(c.state, c.states)
    && |c.indents| == EnteredIn(All(c))
    && c.flowLevel == FlowsIn(All(c))
    && NoBlockInFlow(All(c))
    && (c.state.StreamStartState? || LevelsFit(c.indents + [c.indent]))
  }

  function NestOf(c: Config): Nesting {
    if c.state.StreamStartState? then Outside
    else if c.state.EndState? then Finished
    else if IsOutside(c.state) then Stream(Ground)
    else Stream(On(FramesOf(c.states), TopOf(c.state)))
  }

  lemma AllSnoc(s: seq<State>, k: State)
    ensures EnteredIn(s + [k]) == EnteredIn(s) + (if IsEntered(k) then 1 else 0)
    ensures FlowsIn(s + [k]) == FlowsIn(s) + (if IsEntered(k) && IsFlow(k) then 1 else 0)
    ensures FramesOf(s + [k]) == On(FramesOf(s), TopOf(k))
  {
    assert (s + [k])[..|s|] == s;
  }

  /** The state of a collection after its first event. */
  function Entered(k: State): State {
    if k.FlowSequenceFirstItemState? then FlowSequenceItemState
    else if k.FlowMappingFirstKeyState? then FlowMappingKeyState
    else if k.BlockSequenceFirstItemState? then BlockSequenceItemState
    else if k.BlockMappingFirstKeyState? then BlockMappingKeyState
    else k
  }

  /** The indentation of a node inside the current one. */
  function Deeper(indent: int, bestIndent: nat, flow: bool, indentless: bool): int {
    if indent < 0 then (if flow then bestIndent else 0)
    else if !indentless then indent + bestIndent
    else indent
  }

  function Enters(c: Config, bestIndent: nat, indentless: bool): Config {
    c.(state := Entered(c.state), indents := c.indents + [c.indent],
       indent := Deeper(c.indent, bestIndent, IsFlow(c.state), indentless),
       flowLevel := c.flowLevel + (if IsFlow(c.state) then 1 else 0))
  }

  lemma EntersFits(c: Config, bestIndent: nat, indentless: bool)
    requires Fits(c) && IsFirst(c.state)
    ensures Fits(Enters(c, bestIndent, indentless)) && NestOf(Enters(c, bestIndent, indentless)) == NestOf(c)
  {
    hide LevelsFit, NoBlockInFlow, EnteredIn, FlowsIn, FramesOf;
    var d := Enters(c, bestIndent, indentless);
    AllSnoc(c.states, c.state);
    AllSnoc(c.states, d.state);
    LevelsGrow(c.indents + [c.indent], d.indent);
    SameKindInFlow(c.states, c.state, d.state);
  }

  lemma LevelsGrow(levels: seq<int>, indent: int)
    requires LevelsFit(levels) && (levels == [] || (indent >= 0 && indent >= levels[|levels| - 1]))
    ensures LevelsFit(levels + [indent])
  {
  }

  lemma SameKindInFlow(s: seq<State>, k: State, m: State)
    requires NoBlockInFlow(s + [k]) && (IsBlock(m) ==> IsBlock(k))
    ensures NoBlockInFlow(s + [m])
  {
    var t, u := s + [k], s + [m];
    forall i, j | 0 <= i < j < |u|
      ensures IsFlow(u[i]) ==> !IsBlock(u[j])
    {
      assert t[i] == u[i] && (j < |s| ==> t[j] == u[j]) && (j == |s| ==> t[j] == k && u[j] == m);
    }
  }

  /** A collection ends. */
  function Leaves(c: Config): Config
    requires c.states != [] && c.indents != []
  {
    var n, m := |c.states| - 1, |c.indents| - 1;
    c.(state := c.states[n], states := c.states[..n], indents := c.indents[..m], indent := c.indents[m],
       flowLevel := if IsFlow(c.state) && c.flowLevel > 0 then c.flowLevel - 1 else c.flowLevel)
  }

  lemma LeavesFits(c: Config, e: Event)
    requires Fits(c) && IsEntered(c.state) && (e.SequenceEnd? || e.MappingEnd?) && Admits(NestOf(c), e)
    ensures c.states != [] && c.indents != [] && (IsFlow(c.state) ==> c.flowLevel > 0)
    ensures Fits(Leaves(c)) && NestOf(Leaves(c)) == Enter(NestOf(c), e)
  {
    hide LevelsFit, NoBlockInFlow, EnteredIn, FlowsIn, FramesOf, TopOf, IsFlow;
    AllSnoc(c.states, c.state);
    var d, n, m := Leaves(c), |c.states| - 1, |c.indents| - 1;
    assert c.states == d.states + [d.state];
    AllSnoc(d.states, d.state);
    assert d.indents + [d.indent] == (c.indents + [c.indent])[..m + 1];
    LevelsShrink(c.indents + [c.indent], m + 1);
    assert All(d) == c.states == All(c)[..n + 1];
    FlowShrinks(All(c), n + 1);
    StackShrinks(c.states);
  }

  lemma StackShrinks(states: seq<State>)
    requires states != [] && states[0] == DocumentEndState && forall i | 1 <= i < |states| :: IsEntered(states[i])
    ensures StackFor(states[|states| - 1], states[..|states| - 1])
    ensures !IsOutside(states[|states| - 1])
  {
    var k := states[|states| - 1];
    if |states| > 1 {
      assert IsEntered(k);
    }
  }

  lemma LevelsShrink(levels: seq<int>, n: nat)
    requires LevelsFit(levels) && 0 < n <= |levels|
    ensures LevelsFit(levels[..n])
  {
  }

  lemma FlowShrinks(s: seq<State>, n: nat)
    requires NoBlockInFlow(s) && n <= |s|
    ensures NoBlockInFlow(s[..n])
  {
  }

  // ---- What the emitter accepts ----

  datatype Options = Options(canonical: bool, bestIndent: int, bestWidth: int, unicode: bool, lineBreak: Layout.LineBreak)

  function BestIndent(o: Options): (n: nat)
    ensures 2 <= n <= 9
  {
    if o.bestIndent < 2 || o.bestIndent > 9 then 2 else o.bestIndent
  }

  predicate IsAnchor(a: string) {
    a != "" && forall i | 0 <= i < |a| :: IsAlpha(a[i] as nat)
  }

  /** The tag of a node is written unless it is implied. */
  predicate WritesTag(e: Event, canonical: bool) {
    match e
    case Scalar(_, tag, _, plainImplicit, quotedImplicit, _) => tag.Some? && (canonical || (!plainImplicit && !quotedImplicit))
    case SequenceStart(_, tag, implicit, _) => tag.Some? && (canonical || !implicit)
    case MappingStart(_, tag, implicit, _) => tag.Some? && (canonical || !implicit)
    case _ => false
  }

  predicate IsDirective(d: TagDirective) {
    Tags.IsHandle(d.handle) && d.prefix != ""
  }

  /** The anchor, the tag or the directives of an event are ones that can be written. */
  predicate IsProper(e: Event, canonical: bool) {
    && (e.Alias? ==> e.anchor.Some?)
    && (BeginsNode(e) && e.anchor.Some? ==> IsAnchor(e.anchor.value))
    && (WritesTag(e, canonical) ==> e.tag.value != "")
    && (e.Scalar? && !WritesTag(e, canonical) ==> e.plainImplicit || e.quotedImplicit)
    && (e.DocumentStart? ==>
          && (e.version.Some? ==> e.version.value.major == 1 && (e.version.value.minor == 1 || e.version.value.minor == 2))
          && (forall i | 0 <= i < |e.tagDirectives| :: IsDirective(e.tagDirectives[i]))
          && Parser.DistinctHandles(e.tagDirectives))
  }

  lemma WithDirectiveFits(ds: seq<TagDirective>, d: TagDirective)
    requires Parser.DistinctHandles(ds) && Tags.ValidHandles(ds) && Tags.IsHandle(d.handle)
    ensures Parser.DistinctHandles(Parser.WithDirective(ds, d)) && Tags.ValidHandles(Parser.WithDirective(ds, d))
  {
    hide Tags.IsHandle;
  }

  lemma WithDefaultsFits(ds: seq<TagDirective>)
    requires Parser.DistinctHandles(ds) && forall i | 0 <= i < |ds| :: IsDirective(ds[i])
    ensures Parser.DistinctHandles(Parser.WithDefaults(ds)) && Tags.ValidHandles(Parser.WithDefaults(ds))
  {
    hide Parser.WithDirective, Parser.DistinctHandles;
    WithDirectiveFits(ds, TagDirective("!", "!"));
    WithDirectiveFits(Parser.WithDirective(ds, TagDirective("!", "!")), TagDirective("!!", "tag:yaml.org,2002:"));
  }

  // ---- Looking ahead ----

  predicate IsEmptySequence(rest: seq<Event>) {
    |rest| >= 2 && rest[0].SequenceStart? && rest[1].SequenceEnd?
  }

  predicate IsEmptyMapping(rest: seq<Event>) {
    |rest| >= 2 && rest[0].MappingStart? && rest[1].MappingEnd?
  }

  function ByteLength(s: string): nat {
    |Encodings.Encode(TextOf(s), Encodings.Utf8Encoding)|
  }

  function LengthOf(s: Option<string>): nat {
    if s.Some? then ByteLength(s.value) else 0
  }

  function TagDataOf(e: Event, canonical: bool, directives: seq<TagDirective>): Tags.TagData {
    if WritesTag(e, canonical) then Tags.Shorten(e.tag.value, directives) else Tags.NO_TAG
  }

  /** The bytes that an anchor, a tag and a value take before they are escaped. */
  function KeyLength(e: Event, canonical: bool, directives: seq<TagDirective>): nat
    requires BeginsNode(e)
  {
    var g := TagDataOf(e, canonical, directives);
    LengthOf(e.anchor) + LengthOf(g.handle) + LengthOf(g.suffix) + (if e.Scalar? then ByteLength(e.value) else 0)
  }

  predicate IsMultiline(s: string) {
    exists i | 0 <= i < |TextOf(s)| :: IsBreak(TextOf(s)[i])
  }

  /** Whether the next node can be a simple key, with all the remaining events in view. */
  predicate IsSimpleKey(rest: seq<Event>, canonical: bool, directives: seq<TagDirective>) {
    && rest != [] && BeginsNode(rest[0])
    && (rest[0].Scalar? ==> !IsMultiline(rest[0].value))
    && (rest[0].SequenceStart? ==> IsEmptySequence(rest))
    && (rest[0].MappingStart? ==> IsEmptyMapping(rest))
    && KeyLength(rest[0], canonical, directives) <= 128
  }

  // ---- The transitions ----

  /** A node is expected; `k` is the state to come back to. */
  function Expecting(c: Config, mapping: bool, simpleKey: bool, k: State): Config {
    c.(states := c.states + [k], mappingContext := mapping, simpleKeyContext := simpleKey)
  }

  function Back(c: Config): Config
    requires c.states != []
  {
    c.(state := c.states[|c.states| - 1], states := c.states[..|c.states| - 1])
  }

  function NodeNext(c: Config, rest: seq<Event>, canonical: bool): Option<Config>
    requires c.states != [] && rest != []
  {
    var e := rest[0];
    if e.Alias? || e.Scalar? then Some(Back(c))
    else if e.SequenceStart? then
      Some(c.(state := if c.flowLevel > 0 || canonical || e.style.Flow? || IsEmptySequence(rest)
                       then FlowSequenceFirstItemState else BlockSequenceFirstItemState))
    else if e.MappingStart? then
      Some(c.(state := if c.flowLevel > 0 || canonical || e.style.Flow? || IsEmptyMapping(rest)
                       then FlowMappingFirstKeyState else BlockMappingFirstKeyState))
    else None
  }

  predicate IsKeyState(k: State) {
    k.FlowMappingKeyState? || k.BlockMappingKeyState?
  }

  /** The state after one more child of an entered collection. */
  function Following(k: State, simpleKey: bool): State {
    if k.FlowMappingKeyState? then (if simpleKey then FlowMappingSimpleValueState else FlowMappingValueState)
    else if k.BlockMappingKeyState? then (if simpleKey then BlockMappingSimpleValueState else BlockMappingValueState)
    else if k.FlowMappingSimpleValueState? || k.FlowMappingValueState? then FlowMappingKeyState
    else if k.BlockMappingSimpleValueState? || k.BlockMappingValueState? then BlockMappingKeyState
    else k
  }

  predicate EndsCollection(k: State, e: Event) {
    (e.SequenceEnd? && TopOf(k) == SequenceFrame) || (e.MappingEnd? && IsKeyState(k))
  }

  function EnteredNext(c: Config, rest: seq<Event>, canonical: bool): Option<Config>
    requires rest != [] && IsEntered(c.state)
  {
    if EndsCollection(c.state, rest[0]) then (if c.states == [] || c.indents == [] then None else Some(Leaves(c)))
    else
      var simpleKey :=
        IsKeyState(c.state) && !(c.state.FlowMappingKeyState? && canonical) && IsSimpleKey(rest, canonical, c.tagDirectives);
      NodeNext(Expecting(c, !TopOf(c.state).SequenceFrame?, simpleKey, Following(c.state, simpleKey)), rest, canonical)
  }

  predicate IsIndentless(c: Config, indention: bool) {
    c.state.BlockSequenceFirstItemState? && c.mappingContext && !indention
  }

  predicate IsInside(k: State) {
    IsFirst(k) || IsEntered(k)
  }

  /** A collection is entered by its first event. */
  function Started(c: Config, o: Options, indention: bool): (d: Config)
    requires IsInside(c.state)
    ensures IsEntered(d.state)
  {
    if IsFirst(c.state) then Enters(c, BestIndent(o), IsIndentless(c, indention)) else c
  }

  /** Where the first of the remaining events leads; `indention` tells whether only indentation
      stands on the current line.  None is an error. */
  function Next(c: Config, rest: seq<Event>, o: Options, indention: bool): Option<Config>
    requires rest != []
  {
    var e := rest[0];
    if !IsProper(e, o.canonical) then None
    else if IsInside(c.state) then EnteredNext(Started(c, o, indention), rest, o.canonical)
    else if c.state.StreamStartState? then
      if e.StreamStart? then Some(c.(state := FirstDocumentStartState, indent := -1)) else None
    else if c.state.FirstDocumentStartState? || c.state.DocumentStartState? then
      if e.DocumentStart? then Some(c.(state := DocumentContentState, tagDirectives := Parser.WithDefaults(e.tagDirectives)))
      else if e.StreamEnd? then Some(c.(state := EndState))
      else None
    else if c.state.DocumentContentState? then
      NodeNext(Expecting(c, false, false, DocumentEndState), rest, o.canonical)
    else if c.state.DocumentEndState? && e.DocumentEnd? then Some(c.(state := DocumentStartState, tagDirectives := []))
    else None
  }

  // ---- The transitions follow the nesting of the events ----

  lemma {:induction false} NoFlowBelow(s: seq<State>, j: nat)
    requires FlowsIn(s) == 0 && j < |s| && IsEntered(s[j])
    ensures !IsFlow(s[j])
    decreases |s|
  {
    if j < |s| - 1 {
      NoFlowBelow(s[..|s| - 1], j);
    }
  }

  /** One more child was expected by `c`. */
  predicate LeadsOnTo(c: Config, k: State) {
    && (if c.state.DocumentContentState? then k == DocumentEndState
        else IsEntered(c.state) && IsEntered(k) && IsFlow(k) == IsFlow(c.state))
    && TopOf(k) == WithChild(TopOf(c.state))
  }

  lemma LeafFits(c: Config, frames: Frames, k: State, d: Config)
    requires Fits(c) && NestOf(c) == Stream(frames) && frames.On? && LeadsOnTo(c, k)
    requires d == c.(state := k, mappingContext := d.mappingContext, simpleKeyContext := d.simpleKeyContext)
    ensures Fits(d) && NestOf(d) == Stream(AfterChild(frames))
  {
    hide LevelsFit, NoBlockInFlow, EnteredIn, FlowsIn, FramesOf, TopOf;
    AllSnoc(c.states, c.state);
    AllSnoc(c.states, k);
    SameKindInFlow(c.states, c.state, k);
  }

  lemma StartFits(c: Config, frames: Frames, k: State, first: State, d: Config)
    requires Fits(c) && NestOf(c) == Stream(frames) && frames.On? && LeadsOnTo(c, k) && IsFirst(first) && (IsBlock(first) ==> c.flowLevel == 0)
    requires d == c.(state := first, states := c.states + [k], mappingContext := d.mappingContext, simpleKeyContext := d.simpleKeyContext)
    ensures Fits(d) && NestOf(d) == Stream(On(AfterChild(frames), TopOf(first)))
  {
    hide LevelsFit, NoBlockInFlow, EnteredIn, FlowsIn, FramesOf, TopOf;
    AllSnoc(c.states, c.state);
    AllSnoc(c.states, k);
    AllSnoc(c.states + [k], first);
    SameKindInFlow(c.states, c.state, k);
    var s := c.states + [k];
    if IsBlock(first) {
      forall i | 0 <= i < |s| ensures !IsFlow(s[i]) {
        if IsEntered(s[i]) {
          NoFlowBelow(s, i);
        }
      }
    }
    OnTopOfFlow(s, first);
  }

  lemma OnTopOfFlow(s: seq<State>, first: State)
    requires NoBlockInFlow(s) && (IsBlock(first) ==> forall i | 0 <= i < |s| :: !IsFlow(s[i]))
    ensures NoBlockInFlow(s + [first])
  {
    hide IsFlow, IsBlock;
  }

  lemma NodeNests(c: Config, frames: Frames, rest: seq<Event>, canonical: bool, mapping: bool, simpleKey: bool, k: State)
    requires Fits(c) && NestOf(c) == Stream(frames) && frames.On? && rest != [] && LeadsOnTo(c, k)
    ensures
      var d := NodeNext(Expecting(c, mapping, simpleKey, k), rest, canonical);
      && (d.Some? <==> BeginsNode(rest[0]))
      && (d.Some? ==> Fits(d.value) && NestOf(d.value) == Stream(Opened(AfterChild(frames), rest[0])))
  {
    hide Fits, NestOf, LeadsOnTo, IsEmptySequence, IsEmptyMapping, IsFirst, IsBlock, TopOf, WithChild;
    var x := Expecting(c, mapping, simpleKey, k);
    var d := NodeNext(x, rest, canonical);
    assert x.states[..|x.states| - 1] == c.states;
    FirstStates();
    if rest[0].Alias? || rest[0].Scalar? {
      LeafFits(c, frames, k, d.value);
    } else if rest[0].SequenceStart? {
      StartFits(c, frames, k, d.value.state, d.value);
    } else if rest[0].MappingStart? {
      StartFits(c, frames, k, d.value.state, d.value);
    }
  }

  lemma FirstStates()
    ensures IsFirst(FlowSequenceFirstItemState) && IsFirst(BlockSequenceFirstItemState)
    ensures IsFirst(FlowMappingFirstKeyState) && IsFirst(BlockMappingFirstKeyState)
    ensures !IsBlock(FlowSequenceFirstItemState) && !IsBlock(FlowMappingFirstKeyState)
    ensures TopOf(FlowSequenceFirstItemState) == SequenceFrame && TopOf(BlockSequenceFirstItemState) == SequenceFrame
    ensures TopOf(FlowMappingFirstKeyState) == MappingFrame(false) && TopOf(BlockMappingFirstKeyState) == MappingFrame(false)
  {
  }

  lemma FollowingContinues(c: Config, simpleKey: bool)
    requires IsEntered(c.state)
    ensures LeadsOnTo(c, Following(c.state, simpleKey)) && AwaitsNode(On(Ground, TopOf(c.state)))
    ensures IsKeyState(c.state) <==> TopOf(c.state) == MappingFrame(false)
  {
  }

  lemma EnteredNests(c: Config, rest: seq<Event>, canonical: bool)
    requires Fits(c) && rest != [] && IsEntered(c.state) && IsProper(rest[0], canonical)
    ensures
      var d := EnteredNext(c, rest, canonical);
      && (d.Some? <==> Admits(NestOf(c), rest[0]))
      && (d.Some? ==> Fits(d.value) && NestOf(d.value) == Enter(NestOf(c), rest[0]))
  {
    hide Fits, IsSimpleKey, IsProper, LeadsOnTo, FramesOf, Leaves, NodeNext;
    var e := rest[0];
    var simpleKey :=
      IsKeyState(c.state) && !(c.state.FlowMappingKeyState? && canonical) && IsSimpleKey(rest, canonical, c.tagDirectives);
    FollowingContinues(c, simpleKey);
    if EndsCollection(c.state, e) {
      LeavesFits(c, e);
    } else {
      NodeNests(c, NestOf(c).frames, rest, canonical, !TopOf(c.state).SequenceFrame?, simpleKey, Following(c.state, simpleKey));
    }
  }

  lemma OutsideNests(c: Config, rest: seq<Event>, o: Options, indention: bool)
    requires Fits(c) && rest != [] && (IsOutside(c.state) || c.state.DocumentEndState?) && IsProper(rest[0], o.canonical)
    ensures
      var d := Next(c, rest, o, indention);
      && (d.Some? <==> Admits(NestOf(c), rest[0]))
      && (d.Some? ==> Fits(d.value) && NestOf(d.value) == Enter(NestOf(c), rest[0]))
  {
    hide IsInside, Started, Parser.WithDefaults, NoBlockInFlow, Parser.DistinctHandles, IsDirective, Fits, IsProper, EnteredNext,
      NodeNext, Enters, Tags.ValidHandles, TopOf, FramesOf, NestOf;
    FlatNesting(c);
    if rest[0].DocumentStart? {
      ProperDirectives(rest[0], o.canonical);
    }
    NoDirectives();
    var d := Next(c, rest, o, indention);
    if d.Some? {
      FlatFits(d.value);
    }
  }

  lemma ProperDirectives(e: Event, canonical: bool)
    requires e.DocumentStart? && IsProper(e, canonical)
    ensures Parser.DistinctHandles(Parser.WithDefaults(e.tagDirectives)) && Tags.ValidHandles(Parser.WithDefaults(e.tagDirectives))
  {
    WithDefaultsFits(e.tagDirectives);
  }

  lemma NoDirectives()
    ensures Parser.DistinctHandles([]) && Tags.ValidHandles([])
  {
  }

  /** Outside the documents, and at the end of one, all collections are closed and the indentation
      is -1. */
  lemma FlatNesting(c: Config)
    requires Fits(c) && (IsOutside(c.state) || c.state.DocumentEndState?)
    ensures c.states == [] && c.indents == [] && c.flowLevel == 0 && (c.state.StreamStartState? || c.indent == -1)
    ensures !IsInside(c.state) && (IsOutside(c.state) ==> c.tagDirectives == [])
    ensures NestOf(c) == if c.state.StreamStartState? then Outside else if c.state.EndState? then Finished
                         else Stream(if c.state.DocumentEndState? then On(Ground, DocumentFrame(true)) else Ground)
  {
    assert All(c) == [c.state];
    assert EnteredIn([c.state]) == 0 && FlowsIn([c.state]) == 0 by {
      assert [c.state][..0] == [];
    }
  }

  lemma FlatFits(c: Config)
    requires c.states == [] && c.indents == [] && c.flowLevel == 0 && c.indent == -1 && Parser.DistinctHandles(c.tagDirectives)
    requires Tags.ValidHandles(c.tagDirectives) && (IsOutside(c.state) ==> c.tagDirectives == [])
    requires IsOutside(c.state) || c.state.DocumentContentState?
    ensures Fits(c)
    ensures NestOf(c) == if c.state.StreamStartState? then Outside else if c.state.EndState? then Finished
                         else Stream(if c.state.DocumentContentState? then On(Ground, DocumentFrame(false)) else Ground)
  {
    hide LevelsFit, NoBlockInFlow, EnteredIn, FlowsIn, Parser.DistinctHandles, Tags.ValidHandles;
    OneState(c.state);
    FramesOfNone();
    assert All(c) == [c.state] && c.indents + [c.indent] == [-1];
  }

  lemma FramesOfNone()
    ensures FramesOf([]) == Ground
  {
  }

  lemma OneState(k: State)
    ensures NoBlockInFlow([k]) && LevelsFit([-1])
    ensures !IsEntered(k) ==> EnteredIn([k]) == 0 && FlowsIn([k]) == 0
  {
    assert [k][..0] == [];
  }

  /** The emitter accepts an event exactly if it is proper and well nested; its stacks then fit the
      new nesting.  So no stack underflows, the flow level counts the flow collections, and no
      block collection is opened in a flow collection. */
  lemma NextNests(c: Config, rest: seq<Event>, o: Options, indention: bool)
    requires Fits(c) && rest != []
    ensures
      var d := Next(c, rest, o, indention);
      && (d.Some? <==> IsProper(rest[0], o.canonical) && Admits(NestOf(c), rest[0]))
      && (d.Some? ==> Fits(d.value) && NestOf(d.value) == Enter(NestOf(c), rest[0]))
  {
    hide Fits, IsProper, EnteredNext, NodeNext, Enters, Parser.WithDefaults;
    if IsProper(rest[0], o.canonical) {
      if IsOutside(c.state) || c.state.DocumentEndState? {
        OutsideNests(c, rest, o, indention);
      } else if c.state.DocumentContentState? {
        assert LeadsOnTo(c, DocumentEndState);
        ContentNesting(c);
        NodeNests(c, NestOf(c).frames, rest, o.canonical, false, false, DocumentEndState);
      } else {
        if IsFirst(c.state) {
          EntersFits(c, BestIndent(o), IsIndentless(c, indention));
        }
        EnteredNests(Started(c, o, indention), rest, o.canonical);
      }
    }
  }

  lemma ContentNesting(c: Config)
    requires Fits(c) && c.state.DocumentContentState?
    ensures NestOf(c) == Stream(On(Ground, DocumentFrame(false)))
  {
  }

  /** Inside a collection there is something to come back to. */
  lemma EnteredHas(c: Config)
    requires Fits(c) && IsEntered(c.state)
    ensures c.states != [] && c.indents != [] && (IsFlow(c.state) ==> c.flowLevel > 0)
  {
    hide LevelsFit, NoBlockInFlow, EnteredIn, FlowsIn, DirectivesFit, IsFlow;
    AllSnoc(c.states, c.state);
  }
}
