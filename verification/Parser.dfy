/** The parser: a state machine that turns the scanner's tokens into events. */
module Parser {
  import opened Events
  import opened Nesting

  datatype Token =
    | StreamStartToken
    | StreamEndToken
    | VersionDirectiveToken(major: int, minor: int)
    | TagDirectiveToken(directive: TagDirective)
    | DocumentStartToken
    | DocumentEndToken
    | BlockSequenceStartToken
    | BlockMappingStartToken
    | BlockEndToken
    | FlowSequenceStartToken
    | FlowSequenceEndToken
    | FlowMappingStartToken
    | FlowMappingEndToken
    | BlockEntryToken
    | FlowEntryToken
    | KeyToken
    | ValueToken
    | AliasToken(name: string)
    | AnchorToken(name: string)
    | TagToken(handle: string, suffix: string)
    | ScalarToken(value: string, style: ScalarStyle)

  datatype State =
    | StreamStartState
    | ImplicitDocumentStartState
    | DocumentStartState
    | DocumentContentState
    | DocumentEndState
    | BlockNodeState
    | BlockNodeOrIndentlessSequenceState
    | FlowNodeState
    | BlockSequenceFirstEntryState
    | BlockSequenceEntryState
    | IndentlessSequenceEntryState
    | BlockMappingFirstKeyState
    | BlockMappingKeyState
    | BlockMappingValueState
    | FlowSequenceFirstEntryState
    | FlowSequenceEntryState
    | FlowSequenceEntryMappingKeyState
    | FlowSequenceEntryMappingValueState
    | FlowSequenceEntryMappingEndState
    | FlowMappingFirstKeyState
    | FlowMappingKeyState
    | FlowMappingValueState
    | FlowMappingEmptyValueState
    | EndState

  /** What one call of the parser gives: nothing once the stream has ended, an event, or failure. */
  datatype Outcome = NoEvent | Produced(event: Event) | Failed

  // ---- How the state and the return-state stack encode the nesting ----

  predicate IsOutside(k: State) {
    k.StreamStartState? || k.ImplicitDocumentStartState? || k.DocumentStartState? || k.EndState?
  }

  predicate IsFirst(k: State) {
    || k.BlockSequenceFirstEntryState? || k.BlockMappingFirstKeyState?
    || k.FlowSequenceFirstEntryState? || k.FlowMappingFirstKeyState?
  }

  /** The states of a single-pair mapping inside a flow sequence.  They stand for two frames,
      because the sequence's own state is not pushed when such a mapping opens. */
  predicate IsPair(k: State) {
    || k.FlowSequenceEntryMappingKeyState? || k.FlowSequenceEntryMappingValueState?
    || k.FlowSequenceEntryMappingEndState?
  }

  /** The states that are pushed as return states, besides DOCUMENT-END at the bottom. */
  predicate IsContinuation(k: State) {
    || k.BlockSequenceEntryState? || k.IndentlessSequenceEntryState?
    || k.BlockMappingKeyState? || k.BlockMappingValueState?
    || k.FlowSequenceEntryState?
    || k.FlowSequenceEntryMappingValueState? || k.FlowSequenceEntryMappingEndState?
    || k.FlowMappingKeyState? || k.FlowMappingValueState? || k.FlowMappingEmptyValueState?
  }

  /** The states inside a collection. */
  predicate IsInside(k: State) {
    IsFirst(k) || IsContinuation(k) || k.FlowSequenceEntryMappingKeyState?
  }

  /** The innermost frame that a state stands for. */
  function TopOf(k: State): Frame {
    match k
    case BlockSequenceFirstEntryState | BlockSequenceEntryState | IndentlessSequenceEntryState
       | FlowSequenceFirstEntryState | FlowSequenceEntryState => SequenceFrame
    case BlockMappingFirstKeyState | BlockMappingKeyState | FlowMappingFirstKeyState | FlowMappingKeyState
       | FlowSequenceEntryMappingKeyState | FlowSequenceEntryMappingEndState => MappingFrame(false)
    case BlockMappingValueState | FlowMappingValueState | FlowMappingEmptyValueState
       | FlowSequenceEntryMappingValueState => MappingFrame(true)
    case _ => DocumentFrame(k == DocumentEndState)
  }

  function Under(below: Frames, k: State): Frames {
    On(if IsPair(k) then On(below, SequenceFrame) else below, TopOf(k))
  }

  function FramesOf(states: seq<State>): Frames {
    if states == [] then Ground else Under(FramesOf(states[..|states| - 1]), states[|states| - 1])
  }

  /** The marks that a state keeps on the mark stack: one for each collection that was entered
      through its own start token. */
  function MarksOf(k: State): nat {
    if IsInside(k) && !IsFirst(k) && !k.IndentlessSequenceEntryState? then 1 else 0
  }

  function MarksOfAll(states: seq<State>): nat {
    if states == [] then 0 else MarksOfAll(states[..|states| - 1]) + MarksOf(states[|states| - 1])
  }

  predicate IsReturnStack(states: seq<State>) {
    && states != [] && states[0] == DocumentEndState
    && forall i | 1 <= i < |states| :: IsContinuation(states[i])
  }

  predicate StackFor(k: State, states: seq<State>) {
    if IsOutside(k) || k.DocumentEndState? then states == []
    else if k.DocumentContentState? || k.BlockNodeState? then states == [DocumentEndState]
    else IsInside(k) && IsReturnStack(states)
  }

  function NestingOf(k: State, states: seq<State>): Nesting {
    if k.StreamStartState? then Outside
    else if k.EndState? then Finished
    else if k.ImplicitDocumentStartState? || k.DocumentStartState? then Stream(Ground)
    else if k.DocumentContentState? || k.BlockNodeState? then Stream(On(Ground, DocumentFrame(false)))
    else Stream(Under(FramesOf(states), k))
  }

  /** Bounds the events that can be made before the next token is consumed. */
  function Delay(k: State): nat {
    match k
    case ImplicitDocumentStartState => 6
    case FlowSequenceEntryMappingKeyState => 5
    case FlowSequenceEntryMappingValueState => 2
    case DocumentEndState | BlockNodeState | DocumentContentState | IndentlessSequenceEntryState
       | BlockMappingValueState | FlowSequenceEntryMappingEndState
       | FlowMappingValueState | FlowMappingEmptyValueState => 1
    case _ => 0
  }

  /** In a FIRST state the matching start token is at the head of the queue. */
  predicate HeadFits(k: State, tokens: seq<Token>, head: nat) {
    IsFirst(k) ==>
      && head < |tokens|
      && (k.BlockSequenceFirstEntryState? ==> tokens[head].BlockSequenceStartToken?)
      && (k.BlockMappingFirstKeyState? ==> tokens[head].BlockMappingStartToken?)
      && (k.FlowSequenceFirstEntryState? ==> tokens[head].FlowSequenceStartToken?)
      && (k.FlowMappingFirstKeyState? ==> tokens[head].FlowMappingStartToken?)
  }

  /** The part of the parser's state that its control depends on; `marks` is the number of
      marks on the stack. */
  datatype Config = Config(head: nat, state: State, states: seq<State>, marks: nat)

  /** The invariant of the machine: the stacks have the shape the state calls for, so no pop
      can underflow, and a FIRST state has its start token before it. */
  predicate Fits(tokens: seq<Token>, c: Config) {
    && c.head <= |tokens|
    && StackFor(c.state, c.states)
    && c.marks == MarksOfAll(c.states) + MarksOf(c.state)
    && HeadFits(c.state, tokens, c.head)
  }

  function NestOf(c: Config): Nesting {
    NestingOf(c.state, c.states)
  }

  function Rank(c: Config): nat {
    4 * |c.states| + Delay(c.state)
  }

  // ---- What the parser must neither lose nor invent ----

  /** Anchors, aliases and the scalars that are not empty plain ones. */
  datatype Item = AnchorItem(name: string) | AliasItem(name: string) | ScalarItem(value: string, style: ScalarStyle)

  function ScalarItems(value: string, style: ScalarStyle): seq<Item> {
    if value == "" && style == Plain then [] else [ScalarItem(value, style)]
  }

  function AnchorItems(anchor: Option<string>): seq<Item> {
    if anchor.Some? then [AnchorItem(anchor.value)] else []
  }

  function TokenItems(t: Token): seq<Item> {
    match t
    case AnchorToken(name) => [AnchorItem(name)]
    case AliasToken(name) => [AliasItem(name)]
    case ScalarToken(value, style) => ScalarItems(value, style)
    case _ => []
  }

  function EventItems(e: Event): seq<Item> {
    match e
    case Alias(anchor) => if anchor.Some? then [AliasItem(anchor.value)] else []
    case Scalar(anchor, _, value, _, _, style) => AnchorItems(anchor) + ScalarItems(value, style)
    case SequenceStart(anchor, _, _, _) => AnchorItems(anchor)
    case MappingStart(anchor, _, _, _) => AnchorItems(anchor)
    case _ => []
  }

  function ItemsBefore(tokens: seq<Token>, n: nat): seq<Item>
    requires n <= |tokens|
  {
    if n == 0 then [] else ItemsBefore(tokens, n - 1) + TokenItems(tokens[n - 1])
  }

  function ItemsOf(events: seq<Event>): seq<Item> {
    if events == [] then [] else ItemsOf(events[..|events| - 1]) + EventItems(events[|events| - 1])
  }

  /** What one step keeps and does: the machine stays fit, the event is well nested, a token is
      consumed or the rank falls, and no anchor, alias or scalar is lost or invented. */
  predicate Steps(tokens: seq<Token>, c: Config, d: Config, e: Event) {
    && Fits(tokens, d)
    && Admits(NestOf(c), e) && NestOf(d) == Enter(NestOf(c), e)
    && c.head <= d.head && (c.head == d.head ==> Rank(d) < Rank(c))
    && ItemsBefore(tokens, d.head) == ItemsBefore(tokens, c.head) + EventItems(e)
  }

  /** The tokens from `h` to `k` carry no items. */
  predicate NoItems(tokens: seq<Token>, h: nat, k: nat) {
    h <= k <= |tokens| && ItemsBefore(tokens, k) == ItemsBefore(tokens, h)
  }

  // ---- The steps, one lemma for each kind ----

  lemma ReturnFits(tokens: seq<Token>, k: State, rest: seq<State>, h: nat)
    requires (k == DocumentEndState && rest == []) || (IsContinuation(k) && IsReturnStack(rest))
    ensures StackFor(k, rest) && HeadFits(k, tokens, h) && Delay(k) <= 2
    ensures NestingOf(k, rest) == Stream(Under(FramesOf(rest), k))
  {
    hide FramesOf, Under, IsReturnStack;
  }

  lemma PoppedFits(tokens: seq<Token>, states: seq<State>, h: nat)
    requires IsReturnStack(states) && h <= |tokens|
    ensures var d := Config(h, states[|states| - 1], states[..|states| - 1], MarksOfAll(states));
            && Fits(tokens, d) && NestOf(d) == Stream(FramesOf(states))
            && Rank(d) < 4 * |states|
  {
    hide Under, MarksOf, StackFor, HeadFits, NestingOf, Delay, IsContinuation;
    ReturnFits(tokens, states[|states| - 1], states[..|states| - 1], h);
  }

  lemma PushedFits(states: seq<State>, k: State)
    requires IsReturnStack(states) && IsContinuation(k)
    ensures IsReturnStack(states + [k]) && FramesOf(states + [k]) == Under(FramesOf(states), k)
    ensures MarksOfAll(states + [k]) == MarksOfAll(states) + MarksOf(k)
  {
    assert (states + [k])[..|states|] == states;
  }

  /** From state `k` one more child leads to the return state `next`. */
  predicate Continues(k: State, next: State) {
    && IsInside(k) && IsContinuation(next)
    && IsPair(next) == IsPair(k) && TopOf(next) == WithChild(TopOf(k))
    && MarksOf(next) == MarksOf(k) + (if IsFirst(k) then 1 else 0)
  }

  predicate EndsWith(k: State, e: Event) {
    && IsInside(k) && !IsPair(k)
    && ((e == SequenceEnd && TopOf(k) == SequenceFrame) || (e == MappingEnd && TopOf(k) == MappingFrame(false)))
  }

  /** The transitions that the state functions make, in block and in flow context. */
  lemma BlockSequenceTransitions()
    ensures Continues(BlockSequenceFirstEntryState, BlockSequenceEntryState)
    ensures Continues(BlockSequenceEntryState, BlockSequenceEntryState)
    ensures Continues(IndentlessSequenceEntryState, IndentlessSequenceEntryState)
    ensures EndsWith(BlockSequenceFirstEntryState, SequenceEnd) && EndsWith(BlockSequenceEntryState, SequenceEnd)
    ensures EndsWith(IndentlessSequenceEntryState, SequenceEnd)
  {
  }

  lemma BlockMappingTransitions()
    ensures Continues(BlockMappingFirstKeyState, BlockMappingValueState)
    ensures Continues(BlockMappingKeyState, BlockMappingValueState)
    ensures Continues(BlockMappingValueState, BlockMappingKeyState)
    ensures EndsWith(BlockMappingFirstKeyState, MappingEnd) && EndsWith(BlockMappingKeyState, MappingEnd)
  {
  }

  lemma FlowSequenceTransitions()
    ensures Continues(FlowSequenceFirstEntryState, FlowSequenceEntryState)
    ensures Continues(FlowSequenceEntryState, FlowSequenceEntryState)
    ensures Continues(FlowSequenceEntryMappingKeyState, FlowSequenceEntryMappingValueState)
    ensures Continues(FlowSequenceEntryMappingValueState, FlowSequenceEntryMappingEndState)
    ensures EndsWith(FlowSequenceFirstEntryState, SequenceEnd) && EndsWith(FlowSequenceEntryState, SequenceEnd)
  {
  }

  lemma FlowMappingTransitions()
    ensures Continues(FlowMappingFirstKeyState, FlowMappingValueState)
    ensures Continues(FlowMappingFirstKeyState, FlowMappingEmptyValueState)
    ensures Continues(FlowMappingKeyState, FlowMappingValueState)
    ensures Continues(FlowMappingKeyState, FlowMappingEmptyValueState)
    ensures Continues(FlowMappingValueState, FlowMappingKeyState)
    ensures Continues(FlowMappingEmptyValueState, FlowMappingKeyState)
    ensures EndsWith(FlowMappingFirstKeyState, MappingEnd) && EndsWith(FlowMappingKeyState, MappingEnd)
  {
  }

  /** A collection ends and the machine returns to its parent. */
  lemma EndsCollection(tokens: seq<Token>, c: Config, h: nat, e: Event)
    requires Fits(tokens, c) && NoItems(tokens, c.head, h) && EndsWith(c.state, e)
    requires c.head < h || Delay(c.state) == 1
    ensures IsReturnStack(c.states)
    ensures var d := Config(h, c.states[|c.states| - 1], c.states[..|c.states| - 1], MarksOfAll(c.states));
            Fits(tokens, d) && Steps(tokens, c, d, e)
  {
    hide FramesOf, ItemsBefore, IsReturnStack, MarksOfAll;
    InsideFits(tokens, c);
    PoppedFits(tokens, c.states, h);
  }

  lemma EndsInside(k: State, e: Event)
    requires EndsWith(k, e)
    ensures IsInside(k)
  {
  }

  lemma InsideFits(tokens: seq<Token>, c: Config)
    requires Fits(tokens, c) && IsInside(c.state)
    ensures c.head <= |tokens| && IsReturnStack(c.states) && c.marks == MarksOfAll(c.states) + MarksOf(c.state)
    ensures c.state == IndentlessSequenceEntryState || IsFirst(c.state) || 0 < c.marks
    ensures c.states != [] && NestOf(c) == Stream(Under(FramesOf(c.states), c.state))
  {
  }

  /** An entry, key or value is left empty and the machine stays in its collection. */
  lemma LeavesEmpty(tokens: seq<Token>, c: Config, h: nat, k: State, e: Event)
    requires Fits(tokens, c) && NoItems(tokens, c.head, h) && Continues(c.state, k)
    requires c.head < h || Delay(k) < Delay(c.state)
    requires e == Scalar(None, None, "", true, false, Plain)
    ensures IsReturnStack(c.states)
    ensures Steps(tokens, c, Config(h, k, c.states, MarksOfAll(c.states) + MarksOf(k)), e)
  {
    hide FramesOf, ItemsBefore, IsReturnStack, MarksOfAll;
    InsideFits(tokens, c);
  }

  /** What parsing a node promises, whatever it is a child of: the machine comes back to the
      return state on top of `states`, or is inside the collection that the node opens. */
  predicate NodeParsed(tokens: seq<Token>, h: nat, states: seq<State>, indentless: bool, d: Config, e: Event)
    requires h <= |tokens|
  {
    && Fits(tokens, d)
    && BeginsNode(e) && NestOf(d) == Stream(Opened(FramesOf(states), e))
    && h <= d.head && (h == d.head ==> d.states == states && (Delay(d.state) == 0 || indentless))
    && ItemsBefore(tokens, d.head) == ItemsBefore(tokens, h) + EventItems(e)
  }

  /** A child node is parsed after its return state was pushed. */
  lemma ParsesChild(tokens: seq<Token>, c: Config, h: nat, k: State, indentless: bool, d: Config, e: Event)
    requires Fits(tokens, c) && NoItems(tokens, c.head, h) && Continues(c.state, k)
    requires c.head < h || (Delay(c.state) == 5 && !indentless)
    requires NodeParsed(tokens, h, c.states + [k], indentless, d, e)
    ensures Steps(tokens, c, d, e)
  {
    hide Fits, FramesOf, ItemsBefore, IsReturnStack, MarksOfAll, EventItems;
    InsideFits(tokens, c);
    PushedFits(c.states, k);
  }

  /** The root of a document is parsed. */
  lemma ParsesRoot(tokens: seq<Token>, c: Config, d: Config, e: Event)
    requires Fits(tokens, c) && (c.state == DocumentContentState || c.state == BlockNodeState)
    requires NodeParsed(tokens, c.head, c.states, false, d, e)
    ensures Steps(tokens, c, d, e)
  {
    hide ItemsBefore, EventItems;
    assert FramesOf([DocumentEndState]) == Under(Ground, DocumentEndState);
  }

  /** The single-pair mapping of a flow sequence opens inside the sequence's own state. */
  lemma OpensPair(tokens: seq<Token>, c: Config, h: nat, e: Event)
    requires Fits(tokens, c) && (c.state == FlowSequenceEntryState || c.state == FlowSequenceFirstEntryState)
    requires NoItems(tokens, c.head, h) && c.head < h && e == MappingStart(None, None, true, Flow)
    ensures var d := Config(h, FlowSequenceEntryMappingKeyState, c.states, c.marks + (if IsFirst(c.state) then 1 else 0));
            Fits(tokens, d) && Steps(tokens, c, d, e)
  {
    hide FramesOf, ItemsBefore, IsReturnStack, MarksOfAll;
    InsideFits(tokens, c);
  }

  /** That mapping ends without consuming a token. */
  lemma EndsPair(tokens: seq<Token>, c: Config, e: Event)
    requires Fits(tokens, c) && c.state == FlowSequenceEntryMappingEndState && e == MappingEnd
    ensures Steps(tokens, c, Config(c.head, FlowSequenceEntryState, c.states, c.marks), e)
  {
    hide FramesOf, ItemsBefore, IsReturnStack, MarksOfAll;
    InsideFits(tokens, c);
  }

  /** A document begins: with a token consumed, or in the state that allows an implicit one. */
  lemma BeginsDocument(tokens: seq<Token>, c: Config, h: nat, k: State, e: Event)
    requires Fits(tokens, c) && (c.state == ImplicitDocumentStartState || c.state == DocumentStartState)
    requires NoItems(tokens, c.head, h) && e.DocumentStart?
    requires k == DocumentContentState || k == BlockNodeState
    requires c.head < h || c.state == ImplicitDocumentStartState
    ensures Fits(tokens, Config(h, k, [DocumentEndState], c.marks))
    ensures Steps(tokens, c, Config(h, k, [DocumentEndState], c.marks), e)
  {
    hide FramesOf, ItemsBefore;
    assert MarksOfAll([DocumentEndState]) == MarksOfAll([]) + 0;
  }

  lemma EndsDocument(tokens: seq<Token>, c: Config, h: nat, e: Event)
    requires Fits(tokens, c) && c.state == DocumentEndState && NoItems(tokens, c.head, h) && e.DocumentEnd?
    ensures Fits(tokens, Config(h, DocumentStartState, [], c.marks))
    ensures Steps(tokens, c, Config(h, DocumentStartState, [], c.marks), e)
  {
    hide ItemsBefore;
  }

  lemma EndsStream(tokens: seq<Token>, c: Config, h: nat)
    requires Fits(tokens, c) && (c.state == ImplicitDocumentStartState || c.state == DocumentStartState)
    requires NoItems(tokens, c.head, h) && h < |tokens| && tokens[h].StreamEndToken?
    ensures c.states == [] && Fits(tokens, Config(h + 1, EndState, [], c.marks))
    ensures Steps(tokens, c, Config(h + 1, EndState, [], c.marks), StreamEnd)
  {
  }

  /** A document without a root gets an empty one. */
  lemma LeavesRootEmpty(tokens: seq<Token>, c: Config, e: Event)
    requires Fits(tokens, c) && c.state == DocumentContentState
    requires e == Scalar(None, None, "", true, false, Plain)
    ensures Fits(tokens, Config(c.head, DocumentEndState, [], c.marks))
    ensures Steps(tokens, c, Config(c.head, DocumentEndState, [], c.marks), e)
  {
    hide ItemsBefore;
    assert MarksOfAll([DocumentEndState]) == MarksOfAll([]) + 0;
  }

  /** A node without children returns to the state on top of the stack. */
  lemma ReturnsLeaf(tokens: seq<Token>, h: nat, states: seq<State>, indentless: bool, d: Config, e: Event)
    requires h < d.head <= |tokens| && IsReturnStack(states) && (e.Alias? || e.Scalar?)
    requires d == Config(d.head, states[|states| - 1], states[..|states| - 1], MarksOfAll(states))
    requires ItemsBefore(tokens, d.head) == ItemsBefore(tokens, h) + EventItems(e)
    ensures NodeParsed(tokens, h, states, indentless, d, e)
  {
    hide FramesOf, ItemsBefore, IsReturnStack, MarksOfAll, Fits, EventItems;
    PoppedFits(tokens, states, d.head);
  }

  /** The state that a token opens as the content of a node. */
  function CollectionState(token: Token, block: bool, indentlessSequence: bool): Option<State> {
    if indentlessSequence && token.BlockEntryToken? then Some(IndentlessSequenceEntryState)
    else if token.FlowSequenceStartToken? then Some(FlowSequenceFirstEntryState)
    else if token.FlowMappingStartToken? then Some(FlowMappingFirstKeyState)
    else if block && token.BlockSequenceStartToken? then Some(BlockSequenceFirstEntryState)
    else if block && token.BlockMappingStartToken? then Some(BlockMappingFirstKeyState)
    else None
  }

  function CollectionStart(k: State, anchor: Option<string>, tag: Option<string>, implicit: bool): Event {
    if k.FlowSequenceFirstEntryState? then SequenceStart(anchor, tag, implicit, Flow)
    else if k.FlowMappingFirstKeyState? then MappingStart(anchor, tag, implicit, Flow)
    else if k.BlockMappingFirstKeyState? then MappingStart(anchor, tag, implicit, Block)
    else SequenceStart(anchor, tag, implicit, Block)
  }

  /** A node with children opens its collection and leaves its start token in place. */
  lemma OpensCollection(tokens: seq<Token>, h: nat, states: seq<State>, block: bool, indentless: bool,
                        d: Config, anchor: Option<string>, tag: Option<string>, implicit: bool)
    requires h <= d.head < |tokens| && IsReturnStack(states)
    requires CollectionState(tokens[d.head], block, indentless) == Some(d.state)
    requires d.states == states && d.marks == MarksOfAll(states)
    requires ItemsBefore(tokens, d.head) == ItemsBefore(tokens, h) + AnchorItems(anchor)
    ensures Fits(tokens, d)
    ensures NodeParsed(tokens, h, states, indentless, d, CollectionStart(d.state, anchor, tag, implicit))
  {
    hide FramesOf, ItemsBefore, IsReturnStack, MarksOfAll, AnchorItems;
  }

  // ---- Tags ----

  predicate DistinctHandles(directives: seq<TagDirective>) {
    forall i, j | 0 <= i < j < |directives| :: directives[i].handle != directives[j].handle
  }

  predicate HasHandle(directives: seq<TagDirective>, handle: string) {
    exists i | 0 <= i < |directives| :: directives[i].handle == handle
  }

  /** The tag that a TAG token stands for; None when its handle is not declared. */
  function ResolveTag(directives: seq<TagDirective>, handle: string, suffix: string): (tag: Option<string>)
    ensures tag.None? <==> handle != "" && !HasHandle(directives, handle)
  {
    if handle == "" then Some(suffix)
    else if directives == [] then None
    else if directives[0].handle == handle then Some(directives[0].prefix + suffix)
    else
      var tag := ResolveTag(directives[1..], handle, suffix);
      assert directives == [directives[0]] + directives[1..];
      tag
  }

  predicate AnchorAt(tokens: seq<Token>, i: nat) {
    i < |tokens| && tokens[i].AnchorToken?
  }

  predicate TagAt(tokens: seq<Token>, i: nat) {
    i < |tokens| && tokens[i].TagToken?
  }

  /** properties ::= TAG ANCHOR? | ANCHOR TAG? : the anchor, where the TAG token is, and where
      the content of the node begins. */
  datatype Properties = Properties(anchor: Option<string>, tagAt: Option<nat>, next: nat)

  function PropertiesAt(tokens: seq<Token>, i: nat): (p: Properties)
    ensures p.tagAt.Some? ==> TagAt(tokens, p.tagAt.value)
    ensures p.next == i + (if p.anchor.Some? then 1 else 0) + (if p.tagAt.Some? then 1 else 0)
  {
    if AnchorAt(tokens, i) then
      Properties(Some(tokens[i].name),
                 if TagAt(tokens, i + 1) then Some(i + 1) else None,
                 if TagAt(tokens, i + 1) then i + 2 else i + 1)
    else if TagAt(tokens, i) then
      if AnchorAt(tokens, i + 1) then Properties(Some(tokens[i + 1].name), Some(i), i + 2)
      else Properties(None, Some(i), i + 1)
    else Properties(None, None, i)
  }

  /** The %TAG directives among the tokens from `a` to `b`, in order. */
  function DirectivesBetween(tokens: seq<Token>, a: nat, b: nat): seq<TagDirective>
    requires a <= b <= |tokens|
  {
    if a == b then []
    else DirectivesBetween(tokens, a, b - 1) +
         (if tokens[b - 1].TagDirectiveToken? then [tokens[b - 1].directive] else [])
  }

  function VersionList(version: Option<Version>): seq<Version> {
    if version.Some? then [version.value] else []
  }

  /** The versions named by the %YAML directives among those tokens. */
  function VersionsBetween(tokens: seq<Token>, a: nat, b: nat): seq<Version>
    requires a <= b <= |tokens|
  {
    if a == b then []
    else VersionsBetween(tokens, a, b - 1) +
         (if tokens[b - 1].VersionDirectiveToken? then [Version(tokens[b - 1].major, tokens[b - 1].minor)] else [])
  }

  /** The tag that the properties at `at` give a node: None for no TAG token. */
  function TagOf(tokens: seq<Token>, at: nat, directives: seq<TagDirective>): Option<string> {
    var p := PropertiesAt(tokens, at);
    if p.tagAt.None? then None
    else ResolveTag(directives, tokens[p.tagAt.value].handle, tokens[p.tagAt.value].suffix)
  }

  /** The anchor, the tag and the implicit flag of a node event are those its properties give. */
  predicate CarriesProperties(e: Event, tokens: seq<Token>, at: nat, directives: seq<TagDirective>) {
    e.Alias? ||
    WithProperties(e, PropertiesAt(tokens, at).anchor, TagOf(tokens, at, directives))
  }

  predicate WithProperties(e: Event, anchor: Option<string>, tag: Option<string>) {
    && (e.Scalar? || e.SequenceStart? || e.MappingStart?)
    && e.anchor == anchor && e.tag == tag
    && (e.Scalar? || e.implicit == (tag == None || tag == Some("")))
  }

  /** Inside a document the directives have distinct handles and include the two default ones;
      outside a document there are none. */
  predicate DirectivesFit(outside: bool, directives: seq<TagDirective>) {
    && DistinctHandles(directives)
    && (outside ==> directives == [])
    && (!outside ==> HasHandle(directives, "!") && HasHandle(directives, "!!"))
  }

  lemma NoneBetween(tokens: seq<Token>, a: nat)
    requires a <= |tokens|
    ensures DirectivesBetween(tokens, a, a) == [] && VersionsBetween(tokens, a, a) == []
  {
  }

  lemma OneMoreBetween(tokens: seq<Token>, a: nat, b: nat)
    requires a <= b < |tokens|
    ensures tokens[b].VersionDirectiveToken? ==>
      && DirectivesBetween(tokens, a, b + 1) == DirectivesBetween(tokens, a, b)
      && VersionsBetween(tokens, a, b + 1) == VersionsBetween(tokens, a, b) + [Version(tokens[b].major, tokens[b].minor)]
    ensures tokens[b].TagDirectiveToken? ==>
      && DirectivesBetween(tokens, a, b + 1) == DirectivesBetween(tokens, a, b) + [tokens[b].directive]
      && VersionsBetween(tokens, a, b + 1) == VersionsBetween(tokens, a, b)
  {
  }

  lemma NoHandles()
    ensures DistinctHandles([])
  {
  }

  // ---- What the state functions do ----

  /** Where the machine stands: the next token, the state, the return states and the tag
      directives of the document. */
  datatype Machine = Machine(head: nat, state: State, states: seq<State>, directives: seq<TagDirective>)

  const INITIAL := Machine(0, StreamStartState, [], [])

  /** One step: the event and where it leads, or failure. */
  datatype Move = Stuck | Move(event: Event, next: Machine)

  const EMPTY_SCALAR := Scalar(None, None, "", true, false, Plain)

  function Returning(e: Event, m: Machine): Move {
    if m.states == [] then Stuck
    else Move(e, m.(state := m.states[|m.states| - 1], states := m.states[..|m.states| - 1]))
  }

  /** The node at the head; its return state is on top of the stack. */
  function NodeMove(tokens: seq<Token>, m: Machine, block: bool, indentless: bool): Move {
    if m.head >= |tokens| then Stuck
    else if tokens[m.head].AliasToken? then Returning(Alias(Some(tokens[m.head].name)), m.(head := m.head + 1))
    else
      var p, tag := PropertiesAt(tokens, m.head), TagOf(tokens, m.head, m.directives);
      if p.next >= |tokens| || (p.tagAt.Some? && tag.None?) then Stuck
      else ContentMove(tokens, m.(head := p.next), block, indentless, p.anchor, tag)
  }

  function ScalarEvent(anchor: Option<string>, tag: Option<string>, value: string, style: ScalarStyle): Event {
    var plainImplicit := (style == Plain && tag == None) || tag == Some("!");
    Scalar(anchor, tag, value, plainImplicit, !plainImplicit && tag == None, style)
  }

  predicate IsImplied(tag: Option<string>) {
    tag == None || tag == Some("")
  }

  function ContentMove(tokens: seq<Token>, m: Machine, block: bool, indentless: bool,
                       anchor: Option<string>, tag: Option<string>): Move
    requires m.head < |tokens|
  {
    var token := tokens[m.head];
    if token.ScalarToken? then
      Returning(ScalarEvent(anchor, tag, token.value, token.style), m.(head := m.head + 1))
    else
      match CollectionState(token, block, indentless)
      case Some(k) => Move(CollectionStart(k, anchor, tag, IsImplied(tag)), m.(state := k))
      case None =>
        if anchor.Some? || tag.Some? then Returning(Scalar(anchor, tag, "", IsImplied(tag), false, Plain), m)
        else Stuck
  }

  /** A child of the current collection, or an empty scalar in its place; `k` is the state behind it. */
  function ChildMove(tokens: seq<Token>, m: Machine, k: State, block: bool, indentless: bool, isEmpty: bool): Move {
    if isEmpty then Move(EMPTY_SCALAR, m.(state := k))
    else NodeMove(tokens, m.(states := m.states + [k]), block, indentless)
  }

  /** The tokens that cannot begin an entry, key or value, so that it is empty. */
  predicate EndsBlockEntry(token: Token) {
    token.BlockEntryToken? || token.BlockEndToken?
  }

  predicate EndsIndentlessEntry(token: Token) {
    token.BlockEntryToken? || token.KeyToken? || token.ValueToken? || token.BlockEndToken?
  }

  predicate EndsBlockPart(token: Token) {
    token.KeyToken? || token.ValueToken? || token.BlockEndToken?
  }

  predicate EndsFlowSequencePart(token: Token) {
    token.FlowEntryToken? || token.FlowSequenceEndToken?
  }

  predicate EndsFlowMappingPart(token: Token) {
    token.FlowEntryToken? || token.FlowMappingEndToken?
  }

  function BlockEntryMove(tokens: seq<Token>, m: Machine): Move {
    var h := m.head;
    if h >= |tokens| then Stuck
    else if tokens[h].BlockEndToken? then Returning(SequenceEnd, m.(head := h + 1))
    else if !tokens[h].BlockEntryToken? || h + 1 >= |tokens| then Stuck
    else ChildMove(tokens, m.(head := h + 1), BlockSequenceEntryState, true, false, EndsBlockEntry(tokens[h + 1]))
  }

  function IndentlessEntryMove(tokens: seq<Token>, m: Machine): Move {
    var h := m.head;
    if h >= |tokens| then Stuck
    else if !tokens[h].BlockEntryToken? then Returning(SequenceEnd, m)
    else if h + 1 >= |tokens| then Stuck
    else ChildMove(tokens, m.(head := h + 1), IndentlessSequenceEntryState, true, false, EndsIndentlessEntry(tokens[h + 1]))
  }

  function BlockKeyMove(tokens: seq<Token>, m: Machine): Move {
    var h := m.head;
    if h >= |tokens| then Stuck
    else if tokens[h].BlockEndToken? then Returning(MappingEnd, m.(head := h + 1))
    else if !tokens[h].KeyToken? || h + 1 >= |tokens| then Stuck
    else ChildMove(tokens, m.(head := h + 1), BlockMappingValueState, true, true, EndsBlockPart(tokens[h + 1]))
  }

  function BlockValueMove(tokens: seq<Token>, m: Machine): Move {
    var h := m.head;
    if h >= |tokens| then Stuck
    else if !tokens[h].ValueToken? then Move(EMPTY_SCALAR, m.(state := BlockMappingKeyState))
    else if h + 1 >= |tokens| then Stuck
    else ChildMove(tokens, m.(head := h + 1), BlockMappingKeyState, true, true, EndsBlockPart(tokens[h + 1]))
  }

  function FlowEntryMove(tokens: seq<Token>, m: Machine, first: bool): Move {
    var h := m.head;
    if h >= |tokens| then Stuck
    else if tokens[h].FlowSequenceEndToken? then Returning(SequenceEnd, m.(head := h + 1))
    else if first then FlowEntryAt(tokens, m)
    else if !tokens[h].FlowEntryToken? || h + 1 >= |tokens| then Stuck
    else FlowEntryAt(tokens, m.(head := h + 1))
  }

  function FlowEntryAt(tokens: seq<Token>, m: Machine): Move
    requires m.head < |tokens|
  {
    if tokens[m.head].KeyToken? then
      Move(MappingStart(None, None, true, Flow), m.(head := m.head + 1, state := FlowSequenceEntryMappingKeyState))
    else if tokens[m.head].FlowSequenceEndToken? then Returning(SequenceEnd, m.(head := m.head + 1))
    else ChildMove(tokens, m, FlowSequenceEntryState, false, false, false)
  }

  /** An empty key of a single pair takes the token behind it with it. */
  function PairKeyMove(tokens: seq<Token>, m: Machine): Move {
    var h := m.head;
    if h >= |tokens| then Stuck
    else if tokens[h].ValueToken? || EndsFlowSequencePart(tokens[h]) then
      Move(EMPTY_SCALAR, m.(head := h + 1, state := FlowSequenceEntryMappingValueState))
    else ChildMove(tokens, m, FlowSequenceEntryMappingValueState, false, false, false)
  }

  function PairValueMove(tokens: seq<Token>, m: Machine): Move {
    var h := m.head;
    if h >= |tokens| then Stuck
    else if !tokens[h].ValueToken? then Move(EMPTY_SCALAR, m.(state := FlowSequenceEntryMappingEndState))
    else if h + 1 >= |tokens| then Stuck
    else ChildMove(tokens, m.(head := h + 1), FlowSequenceEntryMappingEndState, false, false,
                   EndsFlowSequencePart(tokens[h + 1]))
  }

  function FlowKeyMove(tokens: seq<Token>, m: Machine, first: bool): Move {
    var h := m.head;
    if h >= |tokens| then Stuck
    else if tokens[h].FlowMappingEndToken? then Returning(MappingEnd, m.(head := h + 1))
    else if first then FlowKeyAt(tokens, m)
    else if !tokens[h].FlowEntryToken? || h + 1 >= |tokens| then Stuck
    else FlowKeyAt(tokens, m.(head := h + 1))
  }

  function FlowKeyAt(tokens: seq<Token>, m: Machine): Move
    requires m.head < |tokens|
  {
    var h := m.head;
    if tokens[h].FlowMappingEndToken? then Returning(MappingEnd, m.(head := h + 1))
    else if !tokens[h].KeyToken? then ChildMove(tokens, m, FlowMappingEmptyValueState, false, false, false)
    else if h + 1 >= |tokens| then Stuck
    else ChildMove(tokens, m.(head := h + 1), FlowMappingValueState, false, false,
                   tokens[h + 1].ValueToken? || EndsFlowMappingPart(tokens[h + 1]))
  }

  function FlowValueMove(tokens: seq<Token>, m: Machine, empty: bool): Move {
    var h := m.head;
    if h >= |tokens| then Stuck
    else if empty || !tokens[h].ValueToken? then Move(EMPTY_SCALAR, m.(state := FlowMappingKeyState))
    else if h + 1 >= |tokens| then Stuck
    else ChildMove(tokens, m.(head := h + 1), FlowMappingKeyState, false, false, EndsFlowMappingPart(tokens[h + 1]))
  }

  function WithDirective(ds: seq<TagDirective>, d: TagDirective): seq<TagDirective> {
    if HasHandle(ds, d.handle) then ds else ds + [d]
  }

  function WithDefaults(ds: seq<TagDirective>): seq<TagDirective> {
    WithDirective(WithDirective(ds, TagDirective("!", "!")), TagDirective("!!", "tag:yaml.org,2002:"))
  }

  predicate IsKnown(v: Version) {
    v.major == 1 && (v.minor == 1 || v.minor == 2)
  }

  /** The directives of a document, and the token behind them. */
  datatype Header = NoHeader | Header(next: nat, version: Option<Version>, directives: seq<TagDirective>)

  function HeaderFrom(tokens: seq<Token>, h: nat, version: Option<Version>, ds: seq<TagDirective>): (r: Header)
    ensures r.Header? ==> h <= r.next < |tokens| && !IsDirective(tokens[r.next])
    decreases |tokens| - h
  {
    if h >= |tokens| then NoHeader
    else
      match tokens[h]
      case VersionDirectiveToken(major, minor) =>
        if version.None? && IsKnown(Version(major, minor)) then HeaderFrom(tokens, h + 1, Some(Version(major, minor)), ds)
        else NoHeader
      case TagDirectiveToken(d) =>
        if HasHandle(ds, d.handle) then NoHeader else HeaderFrom(tokens, h + 1, version, ds + [d])
      case _ => Header(h, version, ds)
  }

  lemma HeaderStep(tokens: seq<Token>, h: nat, version: Option<Version>, ds: seq<TagDirective>)
    ensures HeaderFrom(tokens, h, version, ds) ==
      if h >= |tokens| then NoHeader
      else if tokens[h].VersionDirectiveToken? then
        var v := Version(tokens[h].major, tokens[h].minor);
        if version.None? && IsKnown(v) then HeaderFrom(tokens, h + 1, Some(v), ds) else NoHeader
      else if tokens[h].TagDirectiveToken? then
        if HasHandle(ds, tokens[h].directive.handle) then NoHeader
        else HeaderFrom(tokens, h + 1, version, ds + [tokens[h].directive])
      else Header(h, version, ds)
  {
  }

  function SkipEnds(tokens: seq<Token>, h: nat): (r: nat)
    ensures h <= r && (h <= |tokens| ==> r <= |tokens|)
    decreases |tokens| - h
  {
    if h < |tokens| && tokens[h].DocumentEndToken? then SkipEnds(tokens, h + 1) else h
  }

  predicate IsDirective(token: Token) {
    token.VersionDirectiveToken? || token.TagDirectiveToken?
  }

  function DocumentStartMove(tokens: seq<Token>, m: Machine, implicit: bool): Move {
    var h := if implicit then m.head else SkipEnds(tokens, m.head);
    if h >= |tokens| then Stuck
    else if tokens[h].StreamEndToken? then Move(StreamEnd, m.(head := h + 1, state := EndState))
    else
      BeginMove(tokens, m.(head := h), implicit && !IsDirective(tokens[h]) && !tokens[h].DocumentStartToken?)
  }

  function BeginMove(tokens: seq<Token>, m: Machine, bare: bool): Move {
    match HeaderFrom(tokens, m.head, None, [])
    case NoHeader => Stuck
    case Header(next, version, ds) =>
      var inside := m.(head := next, states := [DocumentEndState], directives := WithDefaults(ds));
      if bare then Move(DocumentStart(None, [], true), inside.(state := BlockNodeState))
      else if next >= |tokens| || !tokens[next].DocumentStartToken? then Stuck
      else Move(DocumentStart(version, ds, false), inside.(head := next + 1, state := DocumentContentState))
  }

  predicate EndsDocumentContent(token: Token) {
    IsDirective(token) || token.DocumentStartToken? || token.DocumentEndToken? || token.StreamEndToken?
  }

  function ContentStartMove(tokens: seq<Token>, m: Machine): Move {
    if m.head >= |tokens| then Stuck
    else if EndsDocumentContent(tokens[m.head]) then Returning(EMPTY_SCALAR, m)
    else NodeMove(tokens, m, true, false)
  }

  function DocumentEndMove(tokens: seq<Token>, m: Machine): Move {
    if m.head >= |tokens| then Stuck
    else
      var explicit := tokens[m.head].DocumentEndToken?;
      Move(DocumentEnd(!explicit),
           m.(head := if explicit then m.head + 1 else m.head, state := DocumentStartState, directives := []))
  }

  function MoveOf(tokens: seq<Token>, m: Machine): Move {
    var inner := m.(head := m.head + 1);
    match m.state
    case StreamStartState =>
      if m.head < |tokens| && tokens[m.head].StreamStartToken?
      then Move(StreamStart, inner.(state := ImplicitDocumentStartState)) else Stuck
    case ImplicitDocumentStartState => DocumentStartMove(tokens, m, true)
    case DocumentStartState => DocumentStartMove(tokens, m, false)
    case DocumentContentState => ContentStartMove(tokens, m)
    case DocumentEndState => DocumentEndMove(tokens, m)
    case BlockNodeState => NodeMove(tokens, m, true, false)
    case BlockSequenceFirstEntryState => BlockEntryMove(tokens, inner)
    case BlockSequenceEntryState => BlockEntryMove(tokens, m)
    case IndentlessSequenceEntryState => IndentlessEntryMove(tokens, m)
    case BlockMappingFirstKeyState => BlockKeyMove(tokens, inner)
    case BlockMappingKeyState => BlockKeyMove(tokens, m)
    case BlockMappingValueState => BlockValueMove(tokens, m)
    case FlowSequenceFirstEntryState => FlowEntryMove(tokens, inner, true)
    case FlowSequenceEntryState => FlowEntryMove(tokens, m, false)
    case FlowSequenceEntryMappingKeyState => PairKeyMove(tokens, m)
    case FlowSequenceEntryMappingValueState => PairValueMove(tokens, m)
    case FlowSequenceEntryMappingEndState =>
      if m.head < |tokens| then Move(MappingEnd, m.(state := FlowSequenceEntryState)) else Stuck
    case FlowMappingFirstKeyState => FlowKeyMove(tokens, inner, true)
    case FlowMappingKeyState => FlowKeyMove(tokens, m, false)
    case FlowMappingValueState => FlowValueMove(tokens, m, false)
    case FlowMappingEmptyValueState => FlowValueMove(tokens, m, true)
    case _ => Stuck
  }

  /** The step of a state that is entered with or without passing a start token. */
  function Inner(m: Machine): Machine {
    if IsFirst(m.state) then m.(head := m.head + 1) else m
  }

  lemma BlockMoves(tokens: seq<Token>, m: Machine)
    ensures m.state.BlockSequenceFirstEntryState? || m.state.BlockSequenceEntryState? ==>
      MoveOf(tokens, m) == BlockEntryMove(tokens, Inner(m))
    ensures m.state.BlockMappingFirstKeyState? || m.state.BlockMappingKeyState? ==>
      MoveOf(tokens, m) == BlockKeyMove(tokens, Inner(m))
    ensures m.state.BlockMappingValueState? ==> MoveOf(tokens, m) == BlockValueMove(tokens, m)
    ensures m.state.IndentlessSequenceEntryState? ==> MoveOf(tokens, m) == IndentlessEntryMove(tokens, m)
  {
    hide BlockEntryMove, BlockKeyMove, BlockValueMove, IndentlessEntryMove;
  }

  lemma FlowMoves(tokens: seq<Token>, m: Machine)
    ensures m.state.FlowSequenceFirstEntryState? || m.state.FlowSequenceEntryState? ==>
      MoveOf(tokens, m) == FlowEntryMove(tokens, Inner(m), IsFirst(m.state))
    ensures m.state.FlowMappingFirstKeyState? || m.state.FlowMappingKeyState? ==>
      MoveOf(tokens, m) == FlowKeyMove(tokens, Inner(m), IsFirst(m.state))
    ensures m.state.FlowMappingValueState? || m.state.FlowMappingEmptyValueState? ==>
      MoveOf(tokens, m) == FlowValueMove(tokens, m, m.state.FlowMappingEmptyValueState?)
    ensures m.state.FlowSequenceEntryMappingKeyState? ==> MoveOf(tokens, m) == PairKeyMove(tokens, m)
    ensures m.state.FlowSequenceEntryMappingValueState? ==> MoveOf(tokens, m) == PairValueMove(tokens, m)
  {
    hide FlowEntryMove, FlowKeyMove, FlowValueMove, PairKeyMove, PairValueMove;
  }

  lemma ContentFits(tokens: seq<Token>, c: Config, m: Machine)
    requires Fits(tokens, c) && c.state == DocumentContentState && m.state == DocumentContentState
    ensures c.states == [DocumentEndState] && IsReturnStack(c.states) && c.head <= |tokens|
    ensures MoveOf(tokens, m) == ContentStartMove(tokens, m)
  {
    hide NodeMove, ContentStartMove;
  }

  class Parser {
    /** What the scanner delivers before it ends or fails; asking for more is a failure. */
    const tokens: seq<Token>
    var head: nat
    var state: State
    var states: seq<State>
    var marks: seq<nat>
    var tagDirectives: seq<TagDirective>
    var streamEndProduced: bool
    var error: bool

    function Now(): Config
      reads this
    {
      Config(head, state, states, |marks|)
    }

    function Here(): Machine
      reads this
    {
      Machine(head, state, states, tagDirectives)
    }

    /** What a state function gives is the step that the tokens call for. */
    predicate Follows(r: Outcome, move: Move)
      reads this
    {
      if move.Stuck? then r.Failed? else r == Produced(move.event) && Here() == move.next
    }

    ghost predicate Valid()
      reads this
    {
      && Fits(tokens, Now())
      && (streamEndProduced ==> state == EndState)
      && DirectivesFit(IsOutside(state), tagDirectives)
    }

    constructor (tokens: seq<Token>)
      ensures Valid() && this.tokens == tokens && Here() == INITIAL && !error
    {
      this.tokens := tokens;
      head, state, states, marks, tagDirectives := 0, StreamStartState, [], [], [];
      streamEndProduced, error := false, false;
    }

    predicate Looking()
      reads this
    {
      head < |tokens|
    }

    /** Consumes a token. */
    method Take()
      requires head < |tokens|
      modifies this`head, this`streamEndProduced
      ensures head == old(head) + 1
      ensures streamEndProduced == tokens[old(head)].StreamEndToken?
      ensures ItemsBefore(tokens, head) == ItemsBefore(tokens, old(head)) + TokenItems(tokens[old(head)])
    {
      streamEndProduced := tokens[head].StreamEndToken?;
      head := head + 1;
    }

    /** Consumes a token that carries no item. */
    method Skip()
      requires head < |tokens| && TokenItems(tokens[head]) == []
      modifies this`head, this`streamEndProduced
      ensures head == old(head) + 1
      ensures streamEndProduced == tokens[old(head)].StreamEndToken?
      ensures NoItems(tokens, old(head), head)
    {
      Take();
    }

    method Pop()
      requires IsReturnStack(states)
      modifies this`state, this`states
      ensures state == old(states)[|old(states)| - 1] && states == old(states)[..|old(states)| - 1]
      ensures !IsOutside(state)
    {
      state, states := states[|states| - 1], states[..|states| - 1];
    }

    method PopMark()
      requires marks != []
      modifies this`marks
      ensures marks == old(marks)[..|old(marks)| - 1]
    {
      marks := marks[..|marks| - 1];
    }

    method Fail() returns (r: Outcome)
      modifies this`error
      ensures r == Failed && error
    {
      error := true;
      r := Failed;
    }

    /** The contract of every state function. */
    twostate predicate Stepped(r: Outcome)
      requires old(Valid())
      reads this
    {
      && !r.NoEvent?
      && (r.Failed? <==> error)
      && (r.Produced? ==> Valid() && Steps(tokens, old(Now()), Now(), r.event))
      && Follows(r, MoveOf(tokens, old(Here())))
    }

    method Parse() returns (r: Outcome)
      requires Valid() && !error
      modifies this
      ensures old(state) == EndState ==> r == NoEvent && Valid() && !error
      ensures old(state) != EndState ==> Stepped(r)
    {
      if streamEndProduced || error || state == EndState {
        return NoEvent;
      }
      match state {
        case StreamStartState => r := ParseStreamStart();
        case ImplicitDocumentStartState => r := ParseDocumentStart(true);
        case DocumentStartState => r := ParseDocumentStart(false);
        case DocumentContentState => r := ParseDocumentContent();
        case DocumentEndState => r := ParseDocumentEnd();
        case BlockNodeState => r := ParseRoot();
        case BlockSequenceFirstEntryState => r := ParseBlockSequenceEntry(true);
        case BlockSequenceEntryState => r := ParseBlockSequenceEntry(false);
        case IndentlessSequenceEntryState => r := ParseIndentlessSequenceEntry();
        case BlockMappingFirstKeyState => r := ParseBlockMappingKey(true);
        case BlockMappingKeyState => r := ParseBlockMappingKey(false);
        case BlockMappingValueState => r := ParseBlockMappingValue();
        case FlowSequenceFirstEntryState => r := ParseFlowSequenceEntry(true);
        case FlowSequenceEntryState => r := ParseFlowSequenceEntry(false);
        case FlowSequenceEntryMappingKeyState => r := ParseFlowSequenceEntryMappingKey();
        case FlowSequenceEntryMappingValueState => r := ParseFlowSequenceEntryMappingValue();
        case FlowSequenceEntryMappingEndState => r := ParseFlowSequenceEntryMappingEnd();
        case FlowMappingFirstKeyState => r := ParseFlowMappingKey(true);
        case FlowMappingKeyState => r := ParseFlowMappingKey(false);
        case FlowMappingValueState => r := ParseFlowMappingValue(false);
        case FlowMappingEmptyValueState => r := ParseFlowMappingValue(true);
      }
    }

    method ParseStreamStart() returns (r: Outcome)
      requires Valid() && !error && state == StreamStartState
      modifies this
      ensures Stepped(r)
    {
      if !Looking() || !tokens[head].StreamStartToken? {
        r := Fail();
        return;
      }
      state := ImplicitDocumentStartState;
      Skip();
      r := Produced(StreamStart);
    }

    method ParseDocumentStart(implicit: bool) returns (r: Outcome)
      requires Valid() && !error
      requires state == if implicit then ImplicitDocumentStartState else DocumentStartState
      modifies this
      ensures Stepped(r)
    {
      hide Steps, MarksOfAll, MarksOf, ItemsBefore;
      ghost var c := Now();
      if !implicit {
        while Looking() && tokens[head].DocumentEndToken?
          modifies this`head, this`streamEndProduced
          invariant NoItems(tokens, c.head, head) && !streamEndProduced
          invariant SkipEnds(tokens, c.head) == SkipEnds(tokens, head)
          decreases |tokens| - head
        {
          Skip();
        }
      }
      if !Looking() {
        r := Fail();
        return;
      }
      var token := tokens[head];
      if token.StreamEndToken? {
        EndsStream(tokens, c, head);
        state := EndState;
        Skip();
        r := Produced(StreamEnd);
      } else {
        r := BeginDocument(implicit && !token.VersionDirectiveToken? && !token.TagDirectiveToken?
                           && !token.DocumentStartToken?, c);
      }
    }

    /** Begins a document: a bare one, or one with its directives and DOCUMENT-START. */
    method BeginDocument(bare: bool, ghost c: Config) returns (r: Outcome)
      requires Fits(tokens, c) && (c.state == ImplicitDocumentStartState || c.state == DocumentStartState)
      requires NoItems(tokens, c.head, head) && head < |tokens|
      requires states == [] && |marks| == c.marks && tagDirectives == [] && !error && !streamEndProduced
      requires bare ==> c.state == ImplicitDocumentStartState
      modifies this
      ensures !r.NoEvent? && (r.Failed? <==> error)
      ensures r.Produced? ==> Valid() && Steps(tokens, c, Now(), r.event)
      ensures Follows(r, BeginMove(tokens, old(Here()), bare))
    {
      hide Steps, StackFor, MarksOfAll, MarksOf, ItemsBefore, DirectivesFit, HeaderFrom, WithDefaults, DirectivesBetween, VersionsBetween;
      var done, version, directives := ProcessDirectives();
      if !done {
        return Failed;
      }
      states := [DocumentEndState];
      if bare {
        state := BlockNodeState;
        r := Produced(DocumentStart(None, [], true));
      } else {
        if !tokens[head].DocumentStartToken? {
          r := Fail();
          return;
        }
        state := DocumentContentState;
        Skip();
        r := Produced(DocumentStart(version, directives, false));
      }
      BeginsDocument(tokens, c, head, state, r.event);
    }

    method ParseDocumentContent() returns (r: Outcome)
      requires Valid() && !error && state == DocumentContentState
      modifies this
      ensures Stepped(r)
    {
      hide Fits, Steps, ItemsBefore, DirectivesFit, MoveOf, NodeMove, NestOf;
      ContentFits(tokens, Now(), Here());
      if !Looking() {
        r := Fail();
        return;
      }
      var token := tokens[head];
      if token.VersionDirectiveToken? || token.TagDirectiveToken? || token.DocumentStartToken?
         || token.DocumentEndToken? || token.StreamEndToken? {
        ghost var c := Now();
        Pop();
        r := Produced(Scalar(None, None, "", true, false, Plain));
        LeavesRootEmpty(tokens, c, r.event);
      } else {
        r := ParseRoot();
      }
    }

    method ParseRoot() returns (r: Outcome)
      requires Valid() && !error && (state == DocumentContentState || state == BlockNodeState)
      requires state == DocumentContentState ==> head < |tokens| && !EndsDocumentContent(tokens[head])
      modifies this
      ensures Stepped(r)
    {
      ghost var c := Now();
      r := ParseNode(true, false);
      if r.Produced? {
        ParsesRoot(tokens, c, Now(), r.event);
      }
    }

    method ParseDocumentEnd() returns (r: Outcome)
      requires Valid() && !error && state == DocumentEndState
      modifies this
      ensures Stepped(r)
    {
      hide Steps, ItemsBefore;
      if !Looking() {
        r := Fail();
        return;
      }
      ghost var c := Now();
      var implicit := true;
      if tokens[head].DocumentEndToken? {
        Skip();
        implicit := false;
      }
      while tagDirectives != []
        modifies this`tagDirectives
        invariant DistinctHandles(tagDirectives)
      {
        tagDirectives := tagDirectives[..|tagDirectives| - 1];
      }
      state := DocumentStartState;
      r := Produced(DocumentEnd(implicit));
      EndsDocument(tokens, c, head, r.event);
    }

    /** Parses the anchor and the tag that may precede a node's content. */
    method ParseProperties() returns (ok: bool, anchor: Option<string>, tag: Option<string>)
      requires head < |tokens| && !error && !streamEndProduced
      modifies this`head, this`streamEndProduced, this`error
      ensures ok != error
      ensures
        var p := PropertiesAt(tokens, old(head));
        ok <==> p.next < |tokens| && (p.tagAt.Some? ==> TagOf(tokens, old(head), tagDirectives).Some?)
      ensures ok ==>
                && head < |tokens| && !streamEndProduced
                && head == PropertiesAt(tokens, old(head)).next
                && anchor == PropertiesAt(tokens, old(head)).anchor
                && tag == TagOf(tokens, old(head), tagDirectives)
                && (head == old(head) <==> anchor.None? && tag.None?)
                && ItemsBefore(tokens, head) == ItemsBefore(tokens, old(head)) + AnchorItems(anchor)
    {
      hide ResolveTag, ItemsBefore;
      ok, anchor, tag := true, None, None;
      var tagAt: Option<nat> := None;
      if tokens[head].AnchorToken? {
        anchor := Some(tokens[head].name);
        Take();
        if head < |tokens| && tokens[head].TagToken? {
          tagAt := Some(head);
          Take();
        }
      } else if tokens[head].TagToken? {
        tagAt := Some(head);
        Take();
        if head < |tokens| && tokens[head].AnchorToken? {
          anchor := Some(tokens[head].name);
          Take();
        }
      }
      if tagAt.Some? {
        tag := ResolveTag(tagDirectives, tokens[tagAt.value].handle, tokens[tagAt.value].suffix);
      }
      if head == |tokens| || (tagAt.Some? && tag.None?) {
        ok, error := false, true;
      }
    }

    /** Parses one node; the return state that it comes back to is already on the stack. */
    method ParseNode(block: bool, indentlessSequence: bool) returns (r: Outcome)
      requires head <= |tokens| && !error && !streamEndProduced
      requires IsReturnStack(states) && |marks| == MarksOfAll(states) && DirectivesFit(false, tagDirectives)
      modifies this
      ensures !r.NoEvent? && (r.Failed? <==> error)
      ensures r.Produced? ==> Valid() && NodeParsed(tokens, old(head), old(states), indentlessSequence, Now(), r.event)
      ensures r.Produced? ==> CarriesProperties(r.event, tokens, old(head), old(tagDirectives))
      ensures Follows(r, NodeMove(tokens, old(Here()), block, indentlessSequence))
    {
      ghost var h := head;
      if !Looking() {
        r := Fail();
        return;
      }
      if tokens[head].AliasToken? {
        var name := tokens[head].name;
        Take();
        r := ReturnLeaf(indentlessSequence, h, Alias(Some(name)));
        return;
      }
      var ok, anchor, tag := ParseProperties();
      if !ok {
        return Failed;
      }
      r := ParseContent(block, indentlessSequence, anchor, tag, h);
    }

    /** Produces a node without children and returns to its parent. */
    method ReturnLeaf(ghost indentless: bool, ghost h: nat, e: Event) returns (r: Outcome)
      requires h < head <= |tokens| && !error && !streamEndProduced && (e.Alias? || e.Scalar?)
      requires IsReturnStack(states) && |marks| == MarksOfAll(states) && DirectivesFit(false, tagDirectives)
      requires ItemsBefore(tokens, head) == ItemsBefore(tokens, h) + EventItems(e)
      modifies this`state, this`states
      ensures r == Produced(e) && Valid() && NodeParsed(tokens, h, old(states), indentless, Now(), e)
      ensures Follows(r, Returning(e, old(Here())))
    {
      hide DirectivesFit, NestOf, ItemsBefore, EventItems;
      ghost var stack := states;
      Pop();
      r := Produced(e);
      ReturnsLeaf(tokens, h, stack, indentless, Now(), e);
    }

    method ParseContent(block: bool, indentlessSequence: bool, anchor: Option<string>, tag: Option<string>, ghost h: nat)
      returns (r: Outcome)
      requires h <= head < |tokens| && !error && !streamEndProduced
      requires IsReturnStack(states) && |marks| == MarksOfAll(states) && DirectivesFit(false, tagDirectives)
      requires ItemsBefore(tokens, head) == ItemsBefore(tokens, h) + AnchorItems(anchor)
      requires h == head <==> anchor.None? && tag.None?
      modifies this
      ensures !r.NoEvent? && (r.Failed? <==> error)
      ensures r.Produced? ==> Valid() && NodeParsed(tokens, h, old(states), indentlessSequence, Now(), r.event)
      ensures r.Produced? ==> WithProperties(r.event, anchor, tag)
      ensures Follows(r, ContentMove(tokens, old(Here()), block, indentlessSequence, anchor, tag))
    {
      hide NodeParsed, DirectivesFit, MarksOfAll, StackFor, HeadFits, ItemsBefore, FramesOf, Under, NestingOf, MarksOf, MoveOf, Fits,
        IsReturnStack, Returning;
      var token := tokens[head];
      if token.ScalarToken? {
        r := ReturnScalar(indentlessSequence, anchor, tag, h);
        return;
      }
      var next := CollectionState(token, block, indentlessSequence);
      if next.Some? {
        state := next.value;
        r := Produced(CollectionStart(next.value, anchor, tag, tag == None || tag == Some("")));
        OpensCollection(tokens, h, states, block, indentlessSequence, Now(), anchor, tag, tag == None || tag == Some(""));
      } else if anchor.Some? || tag.Some? {
        r := ReturnLeaf(indentlessSequence, h, Scalar(anchor, tag, "", tag == None || tag == Some(""), false, Plain));
      } else {
        r := Fail();
      }
    }

    method ReturnScalar(ghost indentlessSequence: bool, anchor: Option<string>, tag: Option<string>, ghost h: nat) returns (r: Outcome)
      requires h <= head < |tokens| && tokens[head].ScalarToken? && !error && !streamEndProduced
      requires IsReturnStack(states) && |marks| == MarksOfAll(states) && DirectivesFit(false, tagDirectives)
      requires ItemsBefore(tokens, head) == ItemsBefore(tokens, h) + AnchorItems(anchor)
      modifies this`head, this`streamEndProduced, this`state, this`states
      ensures r.Produced? && Valid() && NodeParsed(tokens, h, old(states), indentlessSequence, Now(), r.event)
      ensures WithProperties(r.event, anchor, tag)
      ensures
        var token := tokens[old(head)];
        Follows(r, Returning(ScalarEvent(anchor, tag, token.value, token.style), old(Here()).(head := old(head) + 1)))
    {
      hide NodeParsed, DirectivesFit, MarksOfAll, StackFor, HeadFits, ItemsBefore, FramesOf, Under, NestingOf, MarksOf, MoveOf, Fits,
        IsReturnStack, Returning;
      var token := tokens[head];
      var plainImplicit := (token.style == Plain && tag == None) || tag == Some("!");
      var quotedImplicit := !plainImplicit && tag == None;
      Take();
      r := ReturnLeaf(indentlessSequence, h, Scalar(anchor, tag, token.value, plainImplicit, quotedImplicit, token.style));
    }

    /** Passes the start token of a collection, leaving a mark for it. */
    method PassStart()
      requires Valid() && !error && IsFirst(state)
      modifies this`marks, this`head, this`streamEndProduced
      ensures |marks| == |old(marks)| + 1 && head == old(head) + 1 && !streamEndProduced
      ensures NoItems(tokens, old(head), head)
    {
      marks := marks + [head];
      Skip();
    }

    /** Pushes the return state `k` and parses a child of the collection that `c` is in. */
    method ParseChild(block: bool, indentlessSequence: bool, k: State, ghost c: Config) returns (r: Outcome)
      requires Fits(tokens, c) && c.states == states && NoItems(tokens, c.head, head)
      requires Continues(c.state, k) && |marks| == c.marks + (if IsFirst(c.state) then 1 else 0)
      requires c.head < head || (Delay(c.state) == 5 && !indentlessSequence)
      requires !error && !streamEndProduced && DirectivesFit(false, tagDirectives)
      modifies this
      ensures !r.NoEvent? && (r.Failed? <==> error)
      ensures r.Produced? ==> Valid() && Steps(tokens, c, Now(), r.event)
      ensures Follows(r, ChildMove(tokens, old(Here()), k, block, indentlessSequence, false))
    {
      hide Fits, Steps, IsReturnStack, FramesOf, NodeParsed, DirectivesFit, MarksOfAll;
      ghost var h := head;
      InsideFits(tokens, c);
      PushedFits(states, k);
      states := states + [k];
      r := ParseNode(block, indentlessSequence);
      if r.Produced? {
        ParsesChild(tokens, c, h, k, indentlessSequence, Now(), r.event);
      }
    }

    /** Leaves an entry, key or value empty. */
    method LeaveEmpty(k: State, ghost c: Config) returns (r: Outcome)
      requires Fits(tokens, c) && c.states == states && NoItems(tokens, c.head, head)
      requires Continues(c.state, k) && |marks| == c.marks + (if IsFirst(c.state) then 1 else 0)
      requires c.head < head || Delay(k) < Delay(c.state)
      requires !error && !streamEndProduced && DirectivesFit(false, tagDirectives)
      modifies this`state
      ensures r.Produced? && Valid() && Steps(tokens, c, Now(), r.event)
      ensures r.event == EMPTY_SCALAR && state == k
    {
      hide Steps, ItemsBefore, DirectivesFit, MarksOfAll, IsReturnStack;
      InsideFits(tokens, c);
      state := k;
      r := Produced(Scalar(None, None, "", true, false, Plain));
      LeavesEmpty(tokens, c, head, k, r.event);
    }

    /** Consumes the end token of a collection and returns to its parent. */
    method EndCollection(e: Event, ghost c: Config) returns (r: Outcome)
      requires Fits(tokens, c) && c.states == states && NoItems(tokens, c.head, head)
      requires head < |tokens| && TokenItems(tokens[head]) == [] && !tokens[head].StreamEndToken?
      requires EndsWith(c.state, e) && c.state != IndentlessSequenceEntryState
      requires |marks| == c.marks + (if IsFirst(c.state) then 1 else 0)
      requires !error && DirectivesFit(false, tagDirectives)
      modifies this
      ensures r.Produced? && !error && Valid() && Steps(tokens, c, Now(), r.event)
      ensures Follows(r, Returning(e, old(Here()).(head := old(head) + 1)))
    {
      hide Fits, Steps, NestOf, ItemsBefore, DirectivesFit, MarksOfAll, StackFor, EndsWith, MoveOf;
      EndsInside(c.state, e);
      InsideFits(tokens, c);
      Pop();
      PopMark();
      Skip();
      r := Produced(e);
      EndsCollection(tokens, c, head, e);
    }

    method ParseBlockSequenceEntry(first: bool) returns (r: Outcome)
      requires Valid() && !error
      requires state == if first then BlockSequenceFirstEntryState else BlockSequenceEntryState
      modifies this
      ensures Stepped(r)
    {
      hide Fits, Steps, ItemsBefore, DirectivesFit, MoveOf, BlockEntryMove, IsReturnStack, MarksOfAll, MarksOf, FramesOf, Under, NestOf, TopOf;
      BlockMoves(tokens, Here());
      ghost var c := Now();
      InsideFits(tokens, c);
      if first {
        PassStart();
      }
      r := ParseBlockEntry(c);
    }

    method ParseBlockEntry(ghost c: Config) returns (r: Outcome)
      requires Fits(tokens, c) && (c.state == BlockSequenceFirstEntryState || c.state == BlockSequenceEntryState)
      requires c.states == states && NoItems(tokens, c.head, head) && (c.head < head || !IsFirst(c.state))
      requires |marks| == c.marks + (if IsFirst(c.state) then 1 else 0)
      requires !error && !streamEndProduced && DirectivesFit(false, tagDirectives)
      modifies this
      ensures !r.NoEvent? && (r.Failed? <==> error)
      ensures r.Produced? ==> Valid() && Steps(tokens, c, Now(), r.event)
      ensures Follows(r, BlockEntryMove(tokens, old(Here())))
    {
      hide Fits, Steps, ItemsBefore, DirectivesFit, Continues, EndsWith, MarksOf, MoveOf, NodeMove, IsReturnStack, MarksOfAll, FramesOf, Under, EventItems;
      BlockSequenceTransitions();
      InsideFits(tokens, c);
      if !Looking() {
        r := Fail();
      } else if tokens[head].BlockEntryToken? {
        Skip();
        if !Looking() {
          r := Fail();
        } else if !tokens[head].BlockEntryToken? && !tokens[head].BlockEndToken? {
          r := ParseChild(true, false, BlockSequenceEntryState, c);
        } else {
          r := LeaveEmpty(BlockSequenceEntryState, c);
        }
      } else if tokens[head].BlockEndToken? {
        r := EndCollection(SequenceEnd, c);
      } else {
        PopMark();
        r := Fail();
      }
    }

    method ParseIndentlessSequenceEntry() returns (r: Outcome)
      requires Valid() && !error && state == IndentlessSequenceEntryState
      modifies this
      ensures Stepped(r)
    {
      hide Fits, Steps, ItemsBefore, DirectivesFit, Continues, EndsWith, MoveOf, NodeMove, IsReturnStack, MarksOfAll, FramesOf, Under, EventItems;
      BlockMoves(tokens, Here());
      BlockSequenceTransitions();
      ghost var c := Now();
      InsideFits(tokens, c);
      if !Looking() {
        r := Fail();
      } else if tokens[head].BlockEntryToken? {
        Skip();
        if !Looking() {
          r := Fail();
        } else if !tokens[head].BlockEntryToken? && !tokens[head].KeyToken?
                  && !tokens[head].ValueToken? && !tokens[head].BlockEndToken? {
          r := ParseChild(true, false, IndentlessSequenceEntryState, c);
        } else {
          r := LeaveEmpty(IndentlessSequenceEntryState, c);
        }
      } else {
        Pop();
        r := Produced(SequenceEnd);
        EndsCollection(tokens, c, head, r.event);
      }
    }

    method ParseBlockMappingKey(first: bool) returns (r: Outcome)
      requires Valid() && !error
      requires state == if first then BlockMappingFirstKeyState else BlockMappingKeyState
      modifies this
      ensures Stepped(r)
    {
      hide Fits, Steps, ItemsBefore, DirectivesFit, MoveOf, BlockKeyMove, IsReturnStack, MarksOfAll, MarksOf, FramesOf, Under, NestOf, TopOf;
      BlockMoves(tokens, Here());
      ghost var c := Now();
      InsideFits(tokens, c);
      if first {
        PassStart();
      }
      r := ParseBlockKey(c);
    }

    method ParseBlockKey(ghost c: Config) returns (r: Outcome)
      requires Fits(tokens, c) && (c.state == BlockMappingFirstKeyState || c.state == BlockMappingKeyState)
      requires c.states == states && NoItems(tokens, c.head, head) && (c.head < head || !IsFirst(c.state))
      requires |marks| == c.marks + (if IsFirst(c.state) then 1 else 0)
      requires !error && !streamEndProduced && DirectivesFit(false, tagDirectives)
      modifies this
      ensures !r.NoEvent? && (r.Failed? <==> error)
      ensures r.Produced? ==> Valid() && Steps(tokens, c, Now(), r.event)
      ensures Follows(r, BlockKeyMove(tokens, old(Here())))
    {
      hide Fits, Steps, ItemsBefore, DirectivesFit, Continues, EndsWith, MarksOf, MoveOf, NodeMove, IsReturnStack, MarksOfAll, FramesOf, Under, EventItems;
      BlockMappingTransitions();
      InsideFits(tokens, c);
      if !Looking() {
        r := Fail();
      } else if tokens[head].KeyToken? {
        Skip();
        if !Looking() {
          r := Fail();
        } else if !tokens[head].KeyToken? && !tokens[head].ValueToken? && !tokens[head].BlockEndToken? {
          r := ParseChild(true, true, BlockMappingValueState, c);
        } else {
          r := LeaveEmpty(BlockMappingValueState, c);
        }
      } else if tokens[head].BlockEndToken? {
        r := EndCollection(MappingEnd, c);
      } else {
        // A VALUE without a KEY is an error here.
        PopMark();
        r := Fail();
      }
    }

    method ParseBlockMappingValue() returns (r: Outcome)
      requires Valid() && !error && state == BlockMappingValueState
      modifies this
      ensures Stepped(r)
    {
      hide Fits, Steps, ItemsBefore, DirectivesFit, Continues, EndsWith, MarksOf, MoveOf, NodeMove, IsReturnStack, MarksOfAll, FramesOf, Under, EventItems;
      BlockMoves(tokens, Here());
      BlockMappingTransitions();
      ghost var c := Now();
      InsideFits(tokens, c);
      if !Looking() {
        r := Fail();
        return;
      }
      if tokens[head].ValueToken? {
        Skip();
        if !Looking() {
          r := Fail();
          return;
        }
        if !tokens[head].KeyToken? && !tokens[head].ValueToken? && !tokens[head].BlockEndToken? {
          r := ParseChild(true, true, BlockMappingKeyState, c);
          return;
        }
      }
      r := LeaveEmpty(BlockMappingKeyState, c);
    }

    method ParseFlowSequenceEntry(first: bool) returns (r: Outcome)
      requires Valid() && !error
      requires state == if first then FlowSequenceFirstEntryState else FlowSequenceEntryState
      modifies this
      ensures Stepped(r)
    {
      hide Fits, Steps, ItemsBefore, DirectivesFit, MoveOf, FlowEntryMove, IsReturnStack, MarksOfAll, MarksOf, FramesOf, Under, NestOf, TopOf;
      FlowMoves(tokens, Here());
      ghost var c := Now();
      InsideFits(tokens, c);
      if first {
        PassStart();
      }
      r := ParseFlowSequencePart(first, c);
    }

    method ParseFlowSequencePart(first: bool, ghost c: Config) returns (r: Outcome)
      requires Fits(tokens, c) && (c.state == FlowSequenceFirstEntryState || c.state == FlowSequenceEntryState)
      requires c.states == states && NoItems(tokens, c.head, head) && (c.head < head || !IsFirst(c.state))
      requires |marks| == c.marks + (if IsFirst(c.state) then 1 else 0)
      requires !error && !streamEndProduced && DirectivesFit(false, tagDirectives)
      requires first == IsFirst(c.state)
      modifies this
      ensures !r.NoEvent? && (r.Failed? <==> error)
      ensures r.Produced? ==> Valid() && Steps(tokens, c, Now(), r.event)
      ensures Follows(r, FlowEntryMove(tokens, old(Here()), first))
    {
      hide Fits, Steps, ItemsBefore, DirectivesFit, Continues, EndsWith, MarksOf, MoveOf, NodeMove, IsReturnStack, MarksOfAll, FramesOf, Under, EventItems;
      FlowSequenceTransitions();
      InsideFits(tokens, c);
      if !Looking() {
        r := Fail();
        return;
      }
      if !tokens[head].FlowSequenceEndToken? {
        if !first {
          if !tokens[head].FlowEntryToken? {
            PopMark();
            r := Fail();
            return;
          }
          Skip();
          if !Looking() {
            r := Fail();
            return;
          }
        }
        if !tokens[head].FlowSequenceEndToken? {
          r := ParseFlowEntry(c);
          return;
        }
      }
      r := EndCollection(SequenceEnd, c);
    }

    method ParseFlowEntry(ghost c: Config) returns (r: Outcome)
      requires Fits(tokens, c) && (c.state == FlowSequenceFirstEntryState || c.state == FlowSequenceEntryState)
      requires c.states == states && NoItems(tokens, c.head, head) && c.head < head < |tokens|
      requires |marks| == c.marks + (if IsFirst(c.state) then 1 else 0)
      requires !error && !streamEndProduced && DirectivesFit(false, tagDirectives)
      requires !tokens[head].FlowSequenceEndToken?
      modifies this
      ensures !r.NoEvent? && (r.Failed? <==> error)
      ensures r.Produced? ==> Valid() && Steps(tokens, c, Now(), r.event)
      ensures Follows(r, FlowEntryAt(tokens, old(Here())))
    {
      hide Fits, Steps, ItemsBefore, DirectivesFit, Continues, EndsWith, MarksOf, NodeMove, IsReturnStack, MarksOfAll, FramesOf, Under, EventItems;
      FlowSequenceTransitions();
      InsideFits(tokens, c);
      if tokens[head].KeyToken? {
        state := FlowSequenceEntryMappingKeyState;
        Skip();
        r := Produced(MappingStart(None, None, true, Flow));
        OpensPair(tokens, c, head, r.event);
      } else {
        r := ParseChild(false, false, FlowSequenceEntryState, c);
      }
    }

    method ParseFlowSequenceEntryMappingKey() returns (r: Outcome)
      requires Valid() && !error && state == FlowSequenceEntryMappingKeyState
      modifies this
      ensures Stepped(r)
    {
      hide Fits, Steps, ItemsBefore, DirectivesFit, Continues, EndsWith, MarksOf, MoveOf, NodeMove, IsReturnStack, MarksOfAll, FramesOf, Under, EventItems;
      FlowMoves(tokens, Here());
      FlowSequenceTransitions();
      ghost var c := Now();
      InsideFits(tokens, c);
      if !Looking() {
        r := Fail();
      } else if !tokens[head].ValueToken? && !tokens[head].FlowEntryToken? && !tokens[head].FlowSequenceEndToken? {
        r := ParseChild(false, false, FlowSequenceEntryMappingValueState, c);
      } else {
        // The token is consumed whichever of the three it is.
        Skip();
        r := LeaveEmpty(FlowSequenceEntryMappingValueState, c);
      }
    }

    method ParseFlowSequenceEntryMappingValue() returns (r: Outcome)
      requires Valid() && !error && state == FlowSequenceEntryMappingValueState
      modifies this
      ensures Stepped(r)
    {
      hide Fits, Steps, ItemsBefore, DirectivesFit, Continues, EndsWith, MarksOf, MoveOf, NodeMove, IsReturnStack, MarksOfAll, FramesOf, Under, EventItems;
      FlowMoves(tokens, Here());
      FlowSequenceTransitions();
      ghost var c := Now();
      InsideFits(tokens, c);
      if !Looking() {
        r := Fail();
        return;
      }
      if tokens[head].ValueToken? {
        Skip();
        if !Looking() {
          r := Fail();
          return;
        }
        if !tokens[head].FlowEntryToken? && !tokens[head].FlowSequenceEndToken? {
          r := ParseChild(false, false, FlowSequenceEntryMappingEndState, c);
          return;
        }
      }
      r := LeaveEmpty(FlowSequenceEntryMappingEndState, c);
    }

    method ParseFlowSequenceEntryMappingEnd() returns (r: Outcome)
      requires Valid() && !error && state == FlowSequenceEntryMappingEndState
      modifies this
      ensures Stepped(r)
    {
      if !Looking() {
        r := Fail();
        return;
      }
      EndsPair(tokens, Now(), MappingEnd);
      state := FlowSequenceEntryState;
      r := Produced(MappingEnd);
    }

    method ParseFlowMappingKey(first: bool) returns (r: Outcome)
      requires Valid() && !error
      requires state == if first then FlowMappingFirstKeyState else FlowMappingKeyState
      modifies this
      ensures Stepped(r)
    {
      hide Fits, Steps, ItemsBefore, DirectivesFit, MoveOf, FlowKeyMove, IsReturnStack, MarksOfAll, MarksOf, FramesOf, Under, NestOf, TopOf;
      FlowMoves(tokens, Here());
      ghost var c := Now();
      InsideFits(tokens, c);
      if first {
        PassStart();
      }
      r := ParseFlowMappingPart(first, c);
    }

    method ParseFlowMappingPart(first: bool, ghost c: Config) returns (r: Outcome)
      requires Fits(tokens, c) && (c.state == FlowMappingFirstKeyState || c.state == FlowMappingKeyState)
      requires c.states == states && NoItems(tokens, c.head, head) && (c.head < head || !IsFirst(c.state))
      requires |marks| == c.marks + (if IsFirst(c.state) then 1 else 0)
      requires !error && !streamEndProduced && DirectivesFit(false, tagDirectives)
      requires first == IsFirst(c.state)
      modifies this
      ensures !r.NoEvent? && (r.Failed? <==> error)
      ensures r.Produced? ==> Valid() && Steps(tokens, c, Now(), r.event)
      ensures Follows(r, FlowKeyMove(tokens, old(Here()), first))
    {
      hide Fits, Steps, ItemsBefore, DirectivesFit, Continues, EndsWith, MarksOf, MoveOf, NodeMove, IsReturnStack, MarksOfAll, FramesOf, Under, EventItems;
      FlowMappingTransitions();
      InsideFits(tokens, c);
      if !Looking() {
        r := Fail();
        return;
      }
      if !tokens[head].FlowMappingEndToken? {
        if !first {
          if !tokens[head].FlowEntryToken? {
            PopMark();
            r := Fail();
            return;
          }
          Skip();
          if !Looking() {
            r := Fail();
            return;
          }
        }
        if !tokens[head].FlowMappingEndToken? {
          r := ParseFlowMappingEntry(c);
          return;
        }
      }
      r := EndCollection(MappingEnd, c);
    }

    method ParseFlowMappingEntry(ghost c: Config) returns (r: Outcome)
      requires Fits(tokens, c) && (c.state == FlowMappingFirstKeyState || c.state == FlowMappingKeyState)
      requires c.states == states && NoItems(tokens, c.head, head) && c.head < head < |tokens|
      requires |marks| == c.marks + (if IsFirst(c.state) then 1 else 0)
      requires !error && !streamEndProduced && DirectivesFit(false, tagDirectives)
      requires !tokens[head].FlowMappingEndToken?
      modifies this
      ensures !r.NoEvent? && (r.Failed? <==> error)
      ensures r.Produced? ==> Valid() && Steps(tokens, c, Now(), r.event)
      ensures Follows(r, FlowKeyAt(tokens, old(Here())))
    {
      hide Fits, Steps, ItemsBefore, DirectivesFit, Continues, EndsWith, MarksOf, MoveOf, NodeMove, IsReturnStack, MarksOfAll, FramesOf, Under, EventItems;
      FlowMappingTransitions();
      InsideFits(tokens, c);
      if tokens[head].KeyToken? {
        Skip();
        if !Looking() {
          r := Fail();
        } else if !tokens[head].ValueToken? && !tokens[head].FlowEntryToken? && !tokens[head].FlowMappingEndToken? {
          r := ParseChild(false, false, FlowMappingValueState, c);
        } else {
          r := LeaveEmpty(FlowMappingValueState, c);
        }
      } else {
        r := ParseChild(false, false, FlowMappingEmptyValueState, c);
      }
    }

    method ParseFlowMappingValue(empty: bool) returns (r: Outcome)
      requires Valid() && !error
      requires state == if empty then FlowMappingEmptyValueState else FlowMappingValueState
      modifies this
      ensures Stepped(r)
    {
      hide Fits, Steps, ItemsBefore, DirectivesFit, Continues, EndsWith, MarksOf, MoveOf, NodeMove, IsReturnStack, MarksOfAll, FramesOf, Under, EventItems;
      FlowMoves(tokens, Here());
      FlowMappingTransitions();
      ghost var c := Now();
      InsideFits(tokens, c);
      if !Looking() {
        r := Fail();
        return;
      }
      if !empty && tokens[head].ValueToken? {
        Skip();
        if !Looking() {
          r := Fail();
          return;
        }
        if !tokens[head].FlowEntryToken? && !tokens[head].FlowMappingEndToken? {
          r := ParseChild(false, false, FlowMappingKeyState, c);
          return;
        }
      }
      r := LeaveEmpty(FlowMappingKeyState, c);
    }

    /** Consumes the directives of a document and installs its tag directives. */
    method ProcessDirectives() returns (ok: bool, version: Option<Version>, directives: seq<TagDirective>)
      requires head < |tokens| && tagDirectives == [] && !error && !streamEndProduced
      modifies this`head, this`streamEndProduced, this`tagDirectives, this`error
      ensures ok != error
      ensures ok ==>
                && NoItems(tokens, old(head), head) && head < |tokens| && !streamEndProduced
                && !tokens[head].VersionDirectiveToken? && !tokens[head].TagDirectiveToken?
                && directives == DirectivesBetween(tokens, old(head), head)
                && VersionsBetween(tokens, old(head), head) == VersionList(version)
                && directives <= tagDirectives && DirectivesFit(false, tagDirectives)
                && tagDirectives == WithDefaults(directives)
      ensures HeaderFrom(tokens, old(head), None, []) == if ok then Header(head, version, directives) else NoHeader
    {
      hide ItemsBefore, HasHandle, DistinctHandles, HeaderFrom, DirectivesBetween, VersionsBetween;
      ok, version := ReadDirectives();
      directives := tagDirectives;
      if !ok || head == |tokens| {
        ok, error := false, true;
        return;
      }
      ok := AppendTagDirective(TagDirective("!", "!"), true);
      ok := AppendTagDirective(TagDirective("!!", "tag:yaml.org,2002:"), true);
    }

    method ReadDirectives() returns (ok: bool, version: Option<Version>)
      requires head < |tokens| && tagDirectives == [] && !error && !streamEndProduced
      modifies this`head, this`streamEndProduced, this`tagDirectives, this`error
      ensures ok != error
      ensures ok ==>
                && NoItems(tokens, old(head), head) && !streamEndProduced
                && (head < |tokens| ==> !tokens[head].VersionDirectiveToken? && !tokens[head].TagDirectiveToken?)
                && tagDirectives == DirectivesBetween(tokens, old(head), head)
                && VersionsBetween(tokens, old(head), head) == VersionList(version)
                && DistinctHandles(tagDirectives)
      ensures HeaderFrom(tokens, old(head), None, []) ==
              if ok && head < |tokens| then Header(head, version, tagDirectives) else NoHeader
    {
      hide ItemsBefore, HasHandle, DistinctHandles, DirectivesBetween, VersionsBetween, HeaderFrom;
      ok, version := true, None;
      NoHandles();
      NoneBetween(tokens, head);
      while head < |tokens| && (tokens[head].VersionDirectiveToken? || tokens[head].TagDirectiveToken?)
        invariant NoItems(tokens, old(head), head) && !streamEndProduced && !error && ok
        invariant tagDirectives == DirectivesBetween(tokens, old(head), head)
        invariant VersionsBetween(tokens, old(head), head) == VersionList(version)
        invariant DistinctHandles(tagDirectives)
        invariant HeaderFrom(tokens, old(head), None, []) == HeaderFrom(tokens, head, version, tagDirectives)
        decreases |tokens| - head
      {
        OneMoreBetween(tokens, old(head), head);
        ok, version := ReadDirective(version);
        if !ok {
          return;
        }
      }
      HeaderStep(tokens, head, version, tagDirectives);
    }

    /** Consumes one directive. */
    method ReadDirective(version: Option<Version>) returns (ok: bool, version': Option<Version>)
      requires head < |tokens| && IsDirective(tokens[head]) && !error && !streamEndProduced && DistinctHandles(tagDirectives)
      modifies this`head, this`streamEndProduced, this`tagDirectives, this`error
      ensures ok != error
      ensures ok ==>
                && head == old(head) + 1 && NoItems(tokens, old(head), head) && !streamEndProduced && DistinctHandles(tagDirectives)
                && (tokens[old(head)].TagDirectiveToken? ==>
                      version' == version && tagDirectives == old(tagDirectives) + [tokens[old(head)].directive])
                && (tokens[old(head)].VersionDirectiveToken? ==>
                      && version.None? && version' == Some(Version(tokens[old(head)].major, tokens[old(head)].minor))
                      && tagDirectives == old(tagDirectives))
      ensures HeaderFrom(tokens, old(head), version, old(tagDirectives)) ==
              if ok then HeaderFrom(tokens, head, version', tagDirectives) else NoHeader
    {
      hide ItemsBefore, HasHandle, DistinctHandles, HeaderFrom;
      HeaderStep(tokens, head, version, tagDirectives);
      ok, version' := true, version;
      if tokens[head].VersionDirectiveToken? {
        if version.Some? || tokens[head].major != 1 || (tokens[head].minor != 1 && tokens[head].minor != 2) {
          ok, error := false, true;
          return;
        }
        version' := Some(Version(tokens[head].major, tokens[head].minor));
      } else {
        ok := AppendTagDirective(tokens[head].directive, false);
        if !ok {
          return;
        }
      }
      Skip();
    }

    method AppendTagDirective(value: TagDirective, allowDuplicates: bool) returns (ok: bool)
      requires DistinctHandles(tagDirectives) && !error
      modifies this`tagDirectives, this`error
      ensures ok != error
      ensures ok <==> allowDuplicates || !HasHandle(old(tagDirectives), value.handle)
      ensures tagDirectives == if HasHandle(old(tagDirectives), value.handle) then old(tagDirectives)
                               else old(tagDirectives) + [value]
      ensures DistinctHandles(tagDirectives) && HasHandle(tagDirectives, value.handle)
      ensures forall handle | HasHandle(old(tagDirectives), handle) :: HasHandle(tagDirectives, handle)
    {
      for i := 0 to |tagDirectives|
        invariant forall j | 0 <= j < i :: tagDirectives[j].handle != value.handle
        invariant tagDirectives == old(tagDirectives) && !error
      {
        if tagDirectives[i].handle == value.handle {
          ok := allowDuplicates;
          error := !allowDuplicates;
          return;
        }
      }
      tagDirectives := tagDirectives + [value];
      assert tagDirectives[|tagDirectives| - 1].handle == value.handle;
      assert forall j | 0 <= j < |old(tagDirectives)| :: tagDirectives[j] == old(tagDirectives)[j];
      ok := true;
    }
  }
}
