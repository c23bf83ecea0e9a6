/** The productions that the parser follows, read by recursive descent, and the proof that the
    state machine with its explicit stack reads exactly what they read. */
module Grammar {
  import opened Events
  import opened Nesting
  import opened Parser

  /** What a production makes of some tokens: its events and the token behind it, or the events
      that come before the tokens break the rules or end. */
  datatype Reading = Read(events: seq<Event>, next: nat) | Broken(events: seq<Event>)

  function Then(es: seq<Event>, r: Reading): Reading {
    r.(events := es + r.events)
  }

  predicate Within(tokens: seq<Token>, h: nat, r: Reading) {
    r.Read? ==> h <= r.next <= |tokens|
  }

  // ---- Nodes ----

  /** node ::= ALIAS | properties content? | content */
  function Node(tokens: seq<Token>, h: nat, block: bool, indentless: bool, ds: seq<TagDirective>): (r: Reading)
    requires h <= |tokens|
    ensures Within(tokens, h, r)
    decreases |tokens| - h, 4
  {
    if h == |tokens| then Broken([])
    else if tokens[h].AliasToken? then Read([Alias(Some(tokens[h].name))], h + 1)
    else
      var p, tag := PropertiesAt(tokens, h), TagOf(tokens, h, ds);
      if p.next >= |tokens| || (p.tagAt.Some? && tag.None?) then Broken([])
      else Content(tokens, p.next, block, indentless, p.anchor, tag, ds)
  }

  /** content ::= SCALAR | a collection; it may be missing after properties */
  function Content(tokens: seq<Token>, h: nat, block: bool, indentless: bool,
                   anchor: Option<string>, tag: Option<string>, ds: seq<TagDirective>): (r: Reading)
    requires h < |tokens|
    ensures Within(tokens, h, r)
    decreases |tokens| - h, 3
  {
    if tokens[h].ScalarToken? then Read([ScalarEvent(anchor, tag, tokens[h].value, tokens[h].style)], h + 1)
    else
      match CollectionState(tokens[h], block, indentless)
      case Some(k) => Then([CollectionStart(k, anchor, tag, IsImplied(tag))], Children(tokens, h, k, ds))
      case None =>
        if anchor.Some? || tag.Some? then Read([Scalar(anchor, tag, "", IsImplied(tag), false, Plain)], h)
        else Broken([])
  }

  function Children(tokens: seq<Token>, h: nat, k: State, ds: seq<TagDirective>): (r: Reading)
    requires h < |tokens|
    ensures Within(tokens, h, r)
    decreases |tokens| - h, 2
  {
    match k
    case BlockSequenceFirstEntryState => BlockEntries(tokens, h + 1, ds)
    case BlockMappingFirstKeyState => BlockPairs(tokens, h + 1, ds)
    case FlowSequenceFirstEntryState => FlowEntries(tokens, h + 1, true, ds)
    case FlowMappingFirstKeyState => FlowPairs(tokens, h + 1, true, ds)
    case _ => IndentlessEntries(tokens, h, ds)
  }

  /** A node, or an empty scalar in its place. */
  function Part(tokens: seq<Token>, h: nat, block: bool, indentless: bool, isEmpty: bool, ds: seq<TagDirective>): (r: Reading)
    requires h <= |tokens|
    ensures Within(tokens, h, r)
    decreases |tokens| - h, 5
  {
    if isEmpty then Read([EMPTY_SCALAR], h) else Node(tokens, h, block, indentless, ds)
  }

  // ---- Block collections ----

  /** (BLOCK-ENTRY block_node?)* BLOCK-END */
  function BlockEntries(tokens: seq<Token>, h: nat, ds: seq<TagDirective>): (r: Reading)
    requires h <= |tokens|
    ensures Within(tokens, h, r)
    decreases |tokens| - h, 0
  {
    if h == |tokens| then Broken([])
    else if tokens[h].BlockEndToken? then Read([SequenceEnd], h + 1)
    else if !tokens[h].BlockEntryToken? || h + 1 == |tokens| then Broken([])
    else
      match Part(tokens, h + 1, true, false, EndsBlockEntry(tokens[h + 1]), ds)
      case Read(es, next) => Then(es, BlockEntries(tokens, next, ds))
      case Broken(es) => Broken(es)
  }

  /** (BLOCK-ENTRY block_node?)* in the value of a block mapping */
  function IndentlessEntries(tokens: seq<Token>, h: nat, ds: seq<TagDirective>): (r: Reading)
    requires h <= |tokens|
    ensures Within(tokens, h, r)
    decreases |tokens| - h, 0
  {
    if h == |tokens| then Broken([])
    else if !tokens[h].BlockEntryToken? then Read([SequenceEnd], h)
    else if h + 1 == |tokens| then Broken([])
    else
      match Part(tokens, h + 1, true, false, EndsIndentlessEntry(tokens[h + 1]), ds)
      case Read(es, next) => Then(es, IndentlessEntries(tokens, next, ds))
      case Broken(es) => Broken(es)
  }

  /** (KEY node? (VALUE node?)?)* BLOCK-END */
  function BlockPairs(tokens: seq<Token>, h: nat, ds: seq<TagDirective>): (r: Reading)
    requires h <= |tokens|
    ensures Within(tokens, h, r)
    decreases |tokens| - h, 0
  {
    if h == |tokens| then Broken([])
    else if tokens[h].BlockEndToken? then Read([MappingEnd], h + 1)
    else if !tokens[h].KeyToken? || h + 1 == |tokens| then Broken([])
    else
      match Part(tokens, h + 1, true, true, EndsBlockPart(tokens[h + 1]), ds)
      case Read(es, next) => Then(es, BlockValue(tokens, next, ds))
      case Broken(es) => Broken(es)
  }

  function BlockValue(tokens: seq<Token>, h: nat, ds: seq<TagDirective>): (r: Reading)
    requires h <= |tokens|
    ensures Within(tokens, h, r)
    decreases |tokens| - h, 1
  {
    if h == |tokens| then Broken([])
    else if !tokens[h].ValueToken? then Then([EMPTY_SCALAR], BlockPairs(tokens, h, ds))
    else if h + 1 == |tokens| then Broken([])
    else
      match Part(tokens, h + 1, true, true, EndsBlockPart(tokens[h + 1]), ds)
      case Read(es, next) => Then(es, BlockPairs(tokens, next, ds))
      case Broken(es) => Broken(es)
  }

  // ---- Flow collections ----

  /** (entry (FLOW-ENTRY entry)* FLOW-ENTRY?)? FLOW-SEQUENCE-END */
  function FlowEntries(tokens: seq<Token>, h: nat, first: bool, ds: seq<TagDirective>): (r: Reading)
    requires h <= |tokens|
    ensures Within(tokens, h, r)
    decreases |tokens| - h, if first then 7 else 0
  {
    if h == |tokens| then Broken([])
    else if tokens[h].FlowSequenceEndToken? then Read([SequenceEnd], h + 1)
    else if first then FlowEntry(tokens, h, ds)
    else if !tokens[h].FlowEntryToken? || h + 1 == |tokens| then Broken([])
    else FlowEntry(tokens, h + 1, ds)
  }

  /** entry ::= flow_node | KEY flow_node? (VALUE flow_node?)? */
  function FlowEntry(tokens: seq<Token>, h: nat, ds: seq<TagDirective>): (r: Reading)
    requires h < |tokens|
    ensures Within(tokens, h, r)
    decreases |tokens| - h, 6
  {
    if tokens[h].KeyToken? then Then([MappingStart(None, None, true, Flow)], Pair(tokens, h + 1, ds))
    else if tokens[h].FlowSequenceEndToken? then Read([SequenceEnd], h + 1)
    else
      match Node(tokens, h, false, false, ds)
      case Read(es, next) => Then(es, FlowEntries(tokens, next, false, ds))
      case Broken(es) => Broken(es)
  }

  /** A single pair in a flow sequence; an empty key takes the token behind it with it. */
  function Pair(tokens: seq<Token>, h: nat, ds: seq<TagDirective>): (r: Reading)
    requires h <= |tokens|
    ensures Within(tokens, h, r)
    decreases |tokens| - h, 6
  {
    if h == |tokens| then Broken([])
    else if tokens[h].ValueToken? || EndsFlowSequencePart(tokens[h]) then
      Then([EMPTY_SCALAR], PairValue(tokens, h + 1, ds))
    else
      match Node(tokens, h, false, false, ds)
      case Read(es, next) => Then(es, PairValue(tokens, next, ds))
      case Broken(es) => Broken(es)
  }

  function PairValue(tokens: seq<Token>, h: nat, ds: seq<TagDirective>): (r: Reading)
    requires h <= |tokens|
    ensures Within(tokens, h, r)
    decreases |tokens| - h, 2
  {
    if h == |tokens| then Broken([])
    else if !tokens[h].ValueToken? then Then([EMPTY_SCALAR], PairEnd(tokens, h, ds))
    else if h + 1 == |tokens| then Broken([])
    else
      match Part(tokens, h + 1, false, false, EndsFlowSequencePart(tokens[h + 1]), ds)
      case Read(es, next) => Then(es, PairEnd(tokens, next, ds))
      case Broken(es) => Broken(es)
  }

  function PairEnd(tokens: seq<Token>, h: nat, ds: seq<TagDirective>): (r: Reading)
    requires h <= |tokens|
    ensures Within(tokens, h, r)
    decreases |tokens| - h, 1
  {
    if h == |tokens| then Broken([]) else Then([MappingEnd], FlowEntries(tokens, h, false, ds))
  }

  /** (pair (FLOW-ENTRY pair)* FLOW-ENTRY?)? FLOW-MAPPING-END */
  function FlowPairs(tokens: seq<Token>, h: nat, first: bool, ds: seq<TagDirective>): (r: Reading)
    requires h <= |tokens|
    ensures Within(tokens, h, r)
    decreases |tokens| - h, if first then 7 else 0
  {
    if h == |tokens| then Broken([])
    else if tokens[h].FlowMappingEndToken? then Read([MappingEnd], h + 1)
    else if first then FlowPair(tokens, h, ds)
    else if !tokens[h].FlowEntryToken? || h + 1 == |tokens| then Broken([])
    else FlowPair(tokens, h + 1, ds)
  }

  /** pair ::= flow_node | KEY flow_node? (VALUE flow_node?)? */
  function FlowPair(tokens: seq<Token>, h: nat, ds: seq<TagDirective>): (r: Reading)
    requires h < |tokens|
    ensures Within(tokens, h, r)
    decreases |tokens| - h, 6
  {
    if tokens[h].FlowMappingEndToken? then Read([MappingEnd], h + 1)
    else if !tokens[h].KeyToken? then
      match Node(tokens, h, false, false, ds)
      case Read(es, next) => Then(es, FlowValue(tokens, next, true, ds))
      case Broken(es) => Broken(es)
    else if h + 1 == |tokens| then Broken([])
    else
      match Part(tokens, h + 1, false, false, tokens[h + 1].ValueToken? || EndsFlowMappingPart(tokens[h + 1]), ds)
      case Read(es, next) => Then(es, FlowValue(tokens, next, false, ds))
      case Broken(es) => Broken(es)
  }

  function FlowValue(tokens: seq<Token>, h: nat, empty: bool, ds: seq<TagDirective>): (r: Reading)
    requires h <= |tokens|
    ensures Within(tokens, h, r)
    decreases |tokens| - h, 1
  {
    if h == |tokens| then Broken([])
    else if empty || !tokens[h].ValueToken? then Then([EMPTY_SCALAR], FlowPairs(tokens, h, false, ds))
    else if h + 1 == |tokens| then Broken([])
    else
      match Part(tokens, h + 1, false, false, EndsFlowMappingPart(tokens[h + 1]), ds)
      case Read(es, next) => Then(es, FlowPairs(tokens, next, false, ds))
      case Broken(es) => Broken(es)
  }

  // ---- Documents ----

  /** stream ::= STREAM-START implicit_document? explicit_document* STREAM-END */
  function StreamOf(tokens: seq<Token>): (r: Reading)
    ensures Within(tokens, 0, r)
  {
    if tokens == [] || !tokens[0].StreamStartToken? then Broken([])
    else Then([StreamStart], Documents(tokens, 1, true))
  }

  function Documents(tokens: seq<Token>, h: nat, implicit: bool): (r: Reading)
    requires h <= |tokens|
    ensures Within(tokens, h, r)
    decreases |tokens| - h, if implicit then 8 else 0
  {
    var h' := if implicit then h else SkipEnds(tokens, h);
    if h' == |tokens| then Broken([])
    else if tokens[h'].StreamEndToken? then Read([StreamEnd], h' + 1)
    else
      match HeaderFrom(tokens, h', None, [])
      case NoHeader => Broken([])
      case Header(next, version, ds) =>
        if implicit && !IsDirective(tokens[h']) && !tokens[h'].DocumentStartToken? then
          Then([DocumentStart(None, [], true)], Document(tokens, next, false, WithDefaults(ds)))
        else if !tokens[next].DocumentStartToken? then Broken([])
        else Then([DocumentStart(version, ds, false)], Document(tokens, next + 1, true, WithDefaults(ds)))
  }

  /** The root, the end of its document, and the documents behind. */
  function Document(tokens: seq<Token>, h: nat, mayBeEmpty: bool, ds: seq<TagDirective>): (r: Reading)
    requires h <= |tokens|
    ensures Within(tokens, h, r)
    decreases |tokens| - h, 7
  {
    if h == |tokens| then Broken([])
    else
      match Part(tokens, h, true, false, mayBeEmpty && EndsDocumentContent(tokens[h]), ds)
      case Broken(es) => Broken(es)
      case Read(es, next) =>
        if next == |tokens| then Broken(es)
        else
          var explicit := tokens[next].DocumentEndToken?;
          Then(es + [DocumentEnd(!explicit)], Documents(tokens, if explicit then next + 1 else next, false))
  }

  // ---- The machine reads what the productions read ----

  /** Where the machine is once it has made just these events. */
  function After(tokens: seq<Token>, m: Machine, es: seq<Event>): Option<Machine>
    decreases |es|
  {
    if es == [] then Some(m)
    else
      match MoveOf(tokens, m)
      case Stuck => None
      case Move(e, next) => if e == es[0] then After(tokens, next, es[1..]) else None
  }

  lemma {:induction false} AfterAppend(tokens: seq<Token>, m: Machine, es: seq<Event>, fs: seq<Event>)
    ensures After(tokens, m, es + fs) ==
      match After(tokens, m, es) case None => None case Some(n) => After(tokens, n, fs)
    decreases |es|
  {
    hide MoveOf;
    if es == [] {
      assert es + fs == fs;
    } else {
      var move := MoveOf(tokens, m);
      assert (es + fs)[1..] == es[1..] + fs;
      if move.Move? && move.event == es[0] {
        AfterAppend(tokens, move.next, es[1..], fs);
      }
    }
  }

  /** From `m` the machine makes the events of a reading, and then stands at `n` behind its
      tokens, or is stuck. */
  predicate Reads(tokens: seq<Token>, m: Machine, r: Reading, n: Machine) {
    match After(tokens, m, r.events)
    case None => false
    case Some(a) => if r.Read? then a == n.(head := r.next) else !a.state.EndState? && MoveOf(tokens, a).Stuck?
  }

  /** The same with the first step taken. */
  predicate Moves(tokens: seq<Token>, move: Move, r: Reading, n: Machine) {
    match move
    case Stuck => r == Broken([])
    case Move(e, m) => r.events != [] && r.events[0] == e && Reads(tokens, m, r.(events := r.events[1..]), n)
  }

  lemma MovesReads(tokens: seq<Token>, m: Machine, r: Reading, n: Machine)
    requires !m.state.EndState? && Moves(tokens, MoveOf(tokens, m), r, n)
    ensures Reads(tokens, m, r, n)
  {
    hide MoveOf;
  }

  /** One reading follows another. */
  lemma ReadsOn(tokens: seq<Token>, m: Machine, c: Reading, mid: Machine, rest: Reading, n: Machine)
    requires Reads(tokens, m, c, mid) && (c.Read? ==> Reads(tokens, mid.(head := c.next), rest, n))
    ensures Reads(tokens, m, if c.Read? then Then(c.events, rest) else c, n)
  {
    hide MoveOf;
    AfterAppend(tokens, m, c.events, rest.events);
  }

  lemma MovesOn(tokens: seq<Token>, move: Move, c: Reading, mid: Machine, rest: Reading, n: Machine)
    requires Moves(tokens, move, c, mid) && (c.Read? ==> Reads(tokens, mid.(head := c.next), rest, n))
    ensures Moves(tokens, move, if c.Read? then Then(c.events, rest) else c, n)
  {
    hide Reads;
    if move.Move? {
      var c' := c.(events := c.events[1..]);
      ReadsOn(tokens, move.next, c', mid, rest, n);
      assert (c.events + rest.events)[1..] == c'.events + rest.events;
    }
  }

  /** One event, and then a reading. */
  lemma MovesFirst(tokens: seq<Token>, e: Event, m: Machine, rest: Reading, n: Machine)
    requires Reads(tokens, m, rest, n)
    ensures Moves(tokens, Move(e, m), Then([e], rest), n)
  {
    hide Reads;
    assert ([e] + rest.events)[1..] == rest.events;
  }

  lemma MovesOnce(tokens: seq<Token>, e: Event, m: Machine, n: Machine)
    requires m == n.(head := m.head)
    ensures Moves(tokens, Move(e, m), Read([e], m.head), n)
  {
  }

  /** Back in the collection around the current one. */
  function Up(m: Machine): Machine
    requires m.states != []
  {
    Machine(0, m.states[|m.states| - 1], m.states[..|m.states| - 1], m.directives)
  }

  lemma StuckIsBroken(tokens: seq<Token>, n: Machine)
    ensures Moves(tokens, Stuck, Broken([]), n)
  {
  }

  /** What the rest of the current collection reads as, from each state inside it. */
  function RestOf(tokens: seq<Token>, m: Machine): Reading
    requires m.head <= |tokens| && IsInside(m.state) && (IsFirst(m.state) ==> m.head < |tokens|)
  {
    var h, ds := m.head, m.directives;
    match m.state
    case BlockSequenceEntryState => BlockEntries(tokens, h, ds)
    case IndentlessSequenceEntryState => IndentlessEntries(tokens, h, ds)
    case BlockMappingKeyState => BlockPairs(tokens, h, ds)
    case BlockMappingValueState => BlockValue(tokens, h, ds)
    case FlowSequenceEntryState => FlowEntries(tokens, h, false, ds)
    case FlowSequenceEntryMappingKeyState => Pair(tokens, h, ds)
    case FlowSequenceEntryMappingValueState => PairValue(tokens, h, ds)
    case FlowSequenceEntryMappingEndState => PairEnd(tokens, h, ds)
    case FlowMappingKeyState => FlowPairs(tokens, h, false, ds)
    case FlowMappingValueState => FlowValue(tokens, h, false, ds)
    case FlowMappingEmptyValueState => FlowValue(tokens, h, true, ds)
    case _ => Children(tokens, h, m.state, ds)
  }

  function Chained(tokens: seq<Token>, m: Machine, k: State, part: Reading): Reading
    requires Within(tokens, m.head, part) && IsContinuation(k)
  {
    if part.Read? then Then(part.events, RestOf(tokens, Machine(part.next, k, m.states, m.directives))) else part
  }

  function RankOf(k: State): nat {
    match k
    case FlowSequenceEntryMappingKeyState => 9
    case FlowSequenceEntryMappingValueState => 6
    case BlockMappingValueState | FlowMappingValueState | FlowMappingEmptyValueState => 4
    case FlowSequenceEntryMappingEndState => 3
    case BlockSequenceEntryState | IndentlessSequenceEntryState | BlockMappingKeyState
       | FlowSequenceEntryState | FlowMappingKeyState => 1
    case _ => 4
  }

  lemma {:induction false} NodeReads(tokens: seq<Token>, m: Machine, block: bool, indentless: bool)
    requires m.head <= |tokens| && m.states != []
    ensures Moves(tokens, NodeMove(tokens, m, block, indentless), Node(tokens, m.head, block, indentless, m.directives), Up(m))
    decreases |tokens| - m.head, 5
  {
    hide Moves, Children, CollectionStart, MoveOf, TagOf, ScalarEvent, IsImplied, BlockEntries, IndentlessEntries;
    var move := NodeMove(tokens, m, block, indentless);
    if move.Stuck? {
      StuckIsBroken(tokens, Up(m));
    } else if move.next.states == m.states {
      RestReads(tokens, move.next);
      ChildrenIs(tokens, move.next);
      MovesFirst(tokens, move.event, move.next, RestOf(tokens, move.next), Up(m));
    } else {
      MovesOnce(tokens, move.event, move.next, Up(m));
    }
  }

  lemma ChildrenIs(tokens: seq<Token>, m: Machine)
    requires m.head < |tokens| && (IsFirst(m.state) || m.state.IndentlessSequenceEntryState?)
    ensures RestOf(tokens, m) == Children(tokens, m.head, m.state, m.directives)
  {
    hide IndentlessEntries;
  }

  lemma {:induction false} PartReads(tokens: seq<Token>, m: Machine, k: State, block: bool, indentless: bool, isEmpty: bool)
    requires m.head <= |tokens|
    ensures Moves(tokens, ChildMove(tokens, m, k, block, indentless, isEmpty),
                  Part(tokens, m.head, block, indentless, isEmpty, m.directives), Machine(0, k, m.states, m.directives))
    decreases |tokens| - m.head, 6
  {
    hide Moves, MoveOf, NodeMove, Node;
    if isEmpty {
      MovesOnce(tokens, EMPTY_SCALAR, m.(state := k), Machine(0, k, m.states, m.directives));
    } else {
      var inner := m.(states := m.states + [k]);
      NodeReads(tokens, inner, block, indentless);
      assert inner.states[..|m.states|] == m.states;
    }
  }

  /** A child and the rest of its collection. */
  lemma {:induction false} PartThen(tokens: seq<Token>, m: Machine, k: State, block: bool, indentless: bool, isEmpty: bool)
    requires m.head <= |tokens| && m.states != [] && IsContinuation(k)
    ensures Moves(tokens, ChildMove(tokens, m, k, block, indentless, isEmpty),
                  Chained(tokens, m, k, Part(tokens, m.head, block, indentless, isEmpty, m.directives)), Up(m))
    decreases |tokens| - m.head, 7
  {
    hide Moves, Reads, MoveOf, ChildMove, Part, RestOf;
    var mid := Machine(0, k, m.states, m.directives);
    var part := Part(tokens, m.head, block, indentless, isEmpty, m.directives);
    PartReads(tokens, m, k, block, indentless, isEmpty);
    var rest := Broken([]);
    if part.Read? {
      RestReads(tokens, mid.(head := part.next));
      rest := RestOf(tokens, mid.(head := part.next));
    }
    MovesOn(tokens, ChildMove(tokens, m, k, block, indentless, isEmpty), part, mid, rest, Up(m));
  }

  lemma {:induction false} RestReads(tokens: seq<Token>, m: Machine)
    requires m.head <= |tokens| && m.states != [] && IsInside(m.state) && (IsFirst(m.state) ==> m.head < |tokens|)
    ensures Reads(tokens, m, RestOf(tokens, m), Up(m))
    decreases |tokens| - m.head, RankOf(m.state)
  {
    hide Moves, Reads, BlockEntries, IndentlessEntries, BlockPairs, BlockValue, FlowEntries, Pair, PairValue, FlowPairs, FlowValue,
      BlockEntryMove, IndentlessEntryMove, BlockKeyMove, BlockValueMove, FlowEntryMove, PairKeyMove, PairValueMove, FlowKeyMove, FlowValueMove;
    var inner := m.(head := m.head + 1);
    match m.state {
      case BlockSequenceFirstEntryState => BlockEntriesRead(tokens, inner);
      case BlockSequenceEntryState => BlockEntriesRead(tokens, m);
      case IndentlessSequenceEntryState => IndentlessEntriesRead(tokens, m);
      case BlockMappingFirstKeyState => BlockPairsRead(tokens, inner);
      case BlockMappingKeyState => BlockPairsRead(tokens, m);
      case BlockMappingValueState => BlockValueRead(tokens, m);
      case FlowSequenceFirstEntryState => FlowEntriesRead(tokens, inner, true);
      case FlowSequenceEntryState => FlowEntriesRead(tokens, m, false);
      case FlowSequenceEntryMappingKeyState => PairReads(tokens, m);
      case FlowSequenceEntryMappingValueState => PairValueReads(tokens, m);
      case FlowSequenceEntryMappingEndState => PairEndReads(tokens, m);
      case FlowMappingFirstKeyState => FlowPairsRead(tokens, inner, true);
      case FlowMappingKeyState => FlowPairsRead(tokens, m, false);
      case FlowMappingValueState => FlowValueReads(tokens, m, false);
      case FlowMappingEmptyValueState => FlowValueReads(tokens, m, true);
    }
    MovesReads(tokens, m, RestOf(tokens, m), Up(m));
  }

  lemma {:induction false} BlockEntriesRead(tokens: seq<Token>, m: Machine)
    requires m.head <= |tokens| && m.states != []
    ensures Moves(tokens, BlockEntryMove(tokens, m), BlockEntries(tokens, m.head, m.directives), Up(m))
    decreases |tokens| - m.head, 0
  {
    hide Moves, MoveOf, ChildMove, Part;
    var h := m.head;
    StuckIsBroken(tokens, Up(m));
    MovesOnce(tokens, SequenceEnd, Up(m).(head := h + 1), Up(m));
    if h + 1 < |tokens| && tokens[h].BlockEntryToken? {
      PartThen(tokens, m.(head := h + 1), BlockSequenceEntryState, true, false, EndsBlockEntry(tokens[h + 1]));
    }
  }

  lemma {:induction false} IndentlessEntriesRead(tokens: seq<Token>, m: Machine)
    requires m.head <= |tokens| && m.states != []
    ensures Moves(tokens, IndentlessEntryMove(tokens, m), IndentlessEntries(tokens, m.head, m.directives), Up(m))
    decreases |tokens| - m.head, 0
  {
    hide Moves, MoveOf, ChildMove, Part;
    var h := m.head;
    StuckIsBroken(tokens, Up(m));
    MovesOnce(tokens, SequenceEnd, Up(m).(head := h), Up(m));
    if h + 1 < |tokens| && tokens[h].BlockEntryToken? {
      PartThen(tokens, m.(head := h + 1), IndentlessSequenceEntryState, true, false, EndsIndentlessEntry(tokens[h + 1]));
    }
  }

  lemma {:induction false} BlockPairsRead(tokens: seq<Token>, m: Machine)
    requires m.head <= |tokens| && m.states != []
    ensures Moves(tokens, BlockKeyMove(tokens, m), BlockPairs(tokens, m.head, m.directives), Up(m))
    decreases |tokens| - m.head, 0
  {
    hide Moves, MoveOf, ChildMove, Part;
    var h := m.head;
    StuckIsBroken(tokens, Up(m));
    MovesOnce(tokens, MappingEnd, Up(m).(head := h + 1), Up(m));
    if h + 1 < |tokens| && tokens[h].KeyToken? {
      PartThen(tokens, m.(head := h + 1), BlockMappingValueState, true, true, EndsBlockPart(tokens[h + 1]));
    }
  }

  lemma {:induction false} BlockValueRead(tokens: seq<Token>, m: Machine)
    requires m.head <= |tokens| && m.states != []
    ensures Moves(tokens, BlockValueMove(tokens, m), BlockValue(tokens, m.head, m.directives), Up(m))
    decreases |tokens| - m.head, 3
  {
    hide Moves, Reads, MoveOf, ChildMove, Part;
    var h := m.head;
    StuckIsBroken(tokens, Up(m));
    if h + 1 < |tokens| && tokens[h].ValueToken? {
      PartThen(tokens, m.(head := h + 1), BlockMappingKeyState, true, true, EndsBlockPart(tokens[h + 1]));
    } else {
      EmptyThen(tokens, m, BlockMappingKeyState);
    }
  }

  /** An empty scalar and the rest of its collection. */
  lemma {:induction false} EmptyThen(tokens: seq<Token>, m: Machine, k: State)
    requires m.head <= |tokens| && m.states != [] && (k.BlockMappingKeyState? || k.FlowMappingKeyState? || k.FlowSequenceEntryMappingEndState?)
    ensures Moves(tokens, Move(EMPTY_SCALAR, m.(state := k)), Then([EMPTY_SCALAR], RestOf(tokens, m.(state := k))), Up(m))
    decreases |tokens| - m.head, RankOf(k) + 1
  {
    hide Moves, Reads, MoveOf, RestOf;
    RestReads(tokens, m.(state := k));
    MovesFirst(tokens, EMPTY_SCALAR, m.(state := k), RestOf(tokens, m.(state := k)), Up(m));
  }

  lemma {:induction false} FlowEntriesRead(tokens: seq<Token>, m: Machine, first: bool)
    requires m.head <= |tokens| && m.states != []
    ensures Moves(tokens, FlowEntryMove(tokens, m, first), FlowEntries(tokens, m.head, first, m.directives), Up(m))
    decreases |tokens| - m.head, if first then 9 else 0
  {
    hide Moves, MoveOf, FlowEntryAt, FlowEntry;
    var h := m.head;
    StuckIsBroken(tokens, Up(m));
    MovesOnce(tokens, SequenceEnd, Up(m).(head := h + 1), Up(m));
    if first && h < |tokens| {
      FlowEntryReads(tokens, m);
    } else if !first && h + 1 < |tokens| {
      FlowEntryReads(tokens, m.(head := h + 1));
    }
  }

  lemma {:induction false} FlowEntryReads(tokens: seq<Token>, m: Machine)
    requires m.head < |tokens| && m.states != []
    ensures Moves(tokens, FlowEntryAt(tokens, m), FlowEntry(tokens, m.head, m.directives), Up(m))
    decreases |tokens| - m.head, 8
  {
    hide Moves, Reads, MoveOf, ChildMove, Pair, Node;
    var h := m.head;
    MovesOnce(tokens, SequenceEnd, Up(m).(head := h + 1), Up(m));
    if tokens[h].KeyToken? {
      var inner := m.(head := h + 1, state := FlowSequenceEntryMappingKeyState);
      RestReads(tokens, inner);
      MovesFirst(tokens, MappingStart(None, None, true, Flow), inner, RestOf(tokens, inner), Up(m));
    } else {
      PartThen(tokens, m, FlowSequenceEntryState, false, false, false);
    }
  }

  lemma {:induction false} PairReads(tokens: seq<Token>, m: Machine)
    requires m.head <= |tokens| && m.states != []
    ensures Moves(tokens, PairKeyMove(tokens, m), Pair(tokens, m.head, m.directives), Up(m))
    decreases |tokens| - m.head, 8
  {
    hide Moves, Reads, MoveOf, ChildMove, Node;
    var h := m.head;
    StuckIsBroken(tokens, Up(m));
    if h < |tokens| && (tokens[h].ValueToken? || EndsFlowSequencePart(tokens[h])) {
      var inner := m.(head := h + 1, state := FlowSequenceEntryMappingValueState);
      RestReads(tokens, inner);
      MovesFirst(tokens, EMPTY_SCALAR, inner, RestOf(tokens, inner), Up(m));
    } else {
      PartThen(tokens, m, FlowSequenceEntryMappingValueState, false, false, false);
    }
  }

  lemma {:induction false} PairValueReads(tokens: seq<Token>, m: Machine)
    requires m.head <= |tokens| && m.states != []
    ensures Moves(tokens, PairValueMove(tokens, m), PairValue(tokens, m.head, m.directives), Up(m))
    decreases |tokens| - m.head, 5
  {
    hide Moves, Reads, MoveOf, ChildMove, Part;
    var h := m.head;
    StuckIsBroken(tokens, Up(m));
    if h + 1 < |tokens| && tokens[h].ValueToken? {
      PartThen(tokens, m.(head := h + 1), FlowSequenceEntryMappingEndState, false, false, EndsFlowSequencePart(tokens[h + 1]));
    } else {
      EmptyThen(tokens, m, FlowSequenceEntryMappingEndState);
    }
  }

  lemma {:induction false} PairEndReads(tokens: seq<Token>, m: Machine)
    requires m.head <= |tokens| && m.states != [] && m.state.FlowSequenceEntryMappingEndState?
    ensures Moves(tokens, MoveOf(tokens, m), PairEnd(tokens, m.head, m.directives), Up(m))
    decreases |tokens| - m.head, 2
  {
    hide Moves, Reads, FlowEntries;
    StuckIsBroken(tokens, Up(m));
    if m.head < |tokens| {
      var next := m.(state := FlowSequenceEntryState);
      RestReads(tokens, next);
      MovesFirst(tokens, MappingEnd, next, RestOf(tokens, next), Up(m));
    }
  }

  lemma {:induction false} FlowPairsRead(tokens: seq<Token>, m: Machine, first: bool)
    requires m.head <= |tokens| && m.states != []
    ensures Moves(tokens, FlowKeyMove(tokens, m, first), FlowPairs(tokens, m.head, first, m.directives), Up(m))
    decreases |tokens| - m.head, if first then 9 else 0
  {
    hide Moves, MoveOf, FlowKeyAt, FlowPair;
    var h := m.head;
    StuckIsBroken(tokens, Up(m));
    MovesOnce(tokens, MappingEnd, Up(m).(head := h + 1), Up(m));
    if first && h < |tokens| {
      FlowPairReads(tokens, m);
    } else if !first && h + 1 < |tokens| {
      FlowPairReads(tokens, m.(head := h + 1));
    }
  }

  lemma {:induction false} FlowPairReads(tokens: seq<Token>, m: Machine)
    requires m.head < |tokens| && m.states != []
    ensures Moves(tokens, FlowKeyAt(tokens, m), FlowPair(tokens, m.head, m.directives), Up(m))
    decreases |tokens| - m.head, 8
  {
    hide Moves, Reads, MoveOf, ChildMove, Node;
    var h := m.head;
    StuckIsBroken(tokens, Up(m));
    MovesOnce(tokens, MappingEnd, Up(m).(head := h + 1), Up(m));
    if !tokens[h].KeyToken? {
      PartThen(tokens, m, FlowMappingEmptyValueState, false, false, false);
    } else if h + 1 < |tokens| {
      PartThen(tokens, m.(head := h + 1), FlowMappingValueState, false, false,
               tokens[h + 1].ValueToken? || EndsFlowMappingPart(tokens[h + 1]));
    }
  }

  lemma {:induction false} FlowValueReads(tokens: seq<Token>, m: Machine, empty: bool)
    requires m.head <= |tokens| && m.states != []
    ensures Moves(tokens, FlowValueMove(tokens, m, empty), FlowValue(tokens, m.head, empty, m.directives), Up(m))
    decreases |tokens| - m.head, 3
  {
    hide Moves, Reads, MoveOf, ChildMove, Part;
    var h := m.head;
    StuckIsBroken(tokens, Up(m));
    if h + 1 < |tokens| && !empty && tokens[h].ValueToken? {
      PartThen(tokens, m.(head := h + 1), FlowMappingKeyState, false, false, EndsFlowMappingPart(tokens[h + 1]));
    } else {
      EmptyThen(tokens, m, FlowMappingKeyState);
    }
  }

  // ---- Documents and whole streams ----

  const ENDED := Machine(0, EndState, [], [])

  lemma {:induction false} DocumentsRead(tokens: seq<Token>, h: nat, implicit: bool)
    requires h <= |tokens|
    ensures
      var m := Machine(h, if implicit then ImplicitDocumentStartState else DocumentStartState, [], []);
      Reads(tokens, m, Documents(tokens, h, implicit), ENDED)
    decreases |tokens| - h, if implicit then 8 else 0
  {
    hide Moves, Reads, HeaderFrom, Document, WithDefaults;
    var m := Machine(h, if implicit then ImplicitDocumentStartState else DocumentStartState, [], []);
    var move := DocumentStartMove(tokens, m, implicit);
    StuckIsBroken(tokens, ENDED);
    if move.Move? {
      if move.event.StreamEnd? {
        MovesOnce(tokens, StreamEnd, move.next, ENDED);
      } else {
        var explicit := move.next.state.DocumentContentState?;
        DocumentReads(tokens, move.next, explicit);
        MovesFirst(tokens, move.event, move.next, Document(tokens, move.next.head, explicit, move.next.directives), ENDED);
      }
    }
    MovesReads(tokens, m, Documents(tokens, h, implicit), ENDED);
  }

  lemma {:induction false} DocumentReads(tokens: seq<Token>, m: Machine, mayBeEmpty: bool)
    requires m.head <= |tokens| && m.states == [DocumentEndState]
    requires m.state == if mayBeEmpty then DocumentContentState else BlockNodeState
    ensures Reads(tokens, m, Document(tokens, m.head, mayBeEmpty, m.directives), ENDED)
    decreases |tokens| - m.head, 7
  {
    hide Moves, Reads, NodeMove, Node, Documents, After;
    if m.head == |tokens| {
      EndIsStuck(tokens, m);
      return;
    }
    var isEmpty := mayBeEmpty && EndsDocumentContent(tokens[m.head]);
    var part := Part(tokens, m.head, true, false, isEmpty, m.directives);
    if isEmpty {
      MovesOnce(tokens, EMPTY_SCALAR, Up(m).(head := m.head), Up(m));
    } else {
      NodeReads(tokens, m, true, false);
    }
    MovesReads(tokens, m, part, Up(m));
    var rest := Broken([]);
    if part.Read? {
      rest := EndAndMore(tokens, part.next);
      EndReads(tokens, Up(m).(head := part.next));
      Regroup(part.events, rest);
    }
    ReadsOn(tokens, m, part, Up(m), rest, ENDED);
  }

  /** The end of a document and what follows. */
  function EndAndMore(tokens: seq<Token>, h: nat): Reading
    requires h <= |tokens|
  {
    if h == |tokens| then Broken([])
    else
      var explicit := tokens[h].DocumentEndToken?;
      Then([DocumentEnd(!explicit)], Documents(tokens, if explicit then h + 1 else h, false))
  }

  lemma Regroup(es: seq<Event>, rest: Reading)
    ensures rest == Broken([]) ==> Then(es, rest) == Broken(es)
    ensures forall e, r :: rest == Then([e], r) ==> Then(es, rest) == Then(es + [e], r)
  {
    forall e, r | rest == Then([e], r)
      ensures Then(es, rest) == Then(es + [e], r)
    {
      assert es + ([e] + r.events) == es + [e] + r.events;
    }
  }

  lemma EndIsStuck(tokens: seq<Token>, m: Machine)
    requires m.head == |tokens| && (m.state.DocumentContentState? || m.state.BlockNodeState? || m.state.DocumentEndState?)
    ensures Reads(tokens, m, Broken([]), ENDED)
  {
  }

  lemma {:induction false} EndReads(tokens: seq<Token>, m: Machine)
    requires m.head <= |tokens| && m.state.DocumentEndState? && m.states == []
    ensures Reads(tokens, m, EndAndMore(tokens, m.head), ENDED)
    decreases |tokens| - m.head, 1
  {
    hide Moves, Reads, Documents;
    if m.head == |tokens| {
      EndIsStuck(tokens, m);
    } else {
      var move := DocumentEndMove(tokens, m);
      DocumentsRead(tokens, move.next.head, false);
      MovesFirst(tokens, move.event, move.next, Documents(tokens, move.next.head, false), ENDED);
      MovesReads(tokens, m, EndAndMore(tokens, m.head), ENDED);
    }
  }

  lemma StreamReads(tokens: seq<Token>)
    ensures Reads(tokens, INITIAL, StreamOf(tokens), ENDED)
  {
    hide Moves, Reads, Documents;
    StuckIsBroken(tokens, ENDED);
    var move := MoveOf(tokens, INITIAL);
    if move.Move? {
      DocumentsRead(tokens, 1, true);
      MovesFirst(tokens, StreamStart, move.next, Documents(tokens, 1, true), ENDED);
    }
    MovesReads(tokens, INITIAL, StreamOf(tokens), ENDED);
  }

  /** The machine can only come to one end. */
  lemma {:induction false} OneEnd(tokens: seq<Token>, m: Machine, es: seq<Event>, fs: seq<Event>)
    requires After(tokens, m, es).Some? && MoveOf(tokens, After(tokens, m, es).value).Stuck?
    requires After(tokens, m, fs).Some? && MoveOf(tokens, After(tokens, m, fs).value).Stuck?
    ensures es == fs
    decreases |es|
  {
    hide MoveOf;
    if es != [] {
      assert fs != [];
      OneEnd(tokens, MoveOf(tokens, m).next, es[1..], fs[1..]);
      assert es == [es[0]] + es[1..] && fs == [fs[0]] + fs[1..];
    }
  }

  lemma EndedIsStuck(tokens: seq<Token>, m: Machine)
    requires m.state.EndState?
    ensures MoveOf(tokens, m).Stuck?
  {
  }

  lemma RunIsReading(tokens: seq<Token>, events: seq<Event>, m: Machine)
    requires After(tokens, INITIAL, events) == Some(m) && MoveOf(tokens, m).Stuck?
    ensures
      var r := StreamOf(tokens);
      r.events == events && (if r.Read? then m == ENDED.(head := r.next) else !m.state.EndState?)
  {
    hide MoveOf, StreamOf, After;
    StreamReads(tokens);
    var r := StreamOf(tokens);
    if r.Read? {
      EndedIsStuck(tokens, ENDED.(head := r.next));
    }
    OneEnd(tokens, INITIAL, r.events, events);
  }

  /** The whole run of the parser over any tokens: it ends, it makes exactly the events that the
      grammar reads, failing exactly where the grammar is broken, its events are a prefix of a
      well nested stream, a complete one exactly if nothing failed, and they hold exactly the
      anchors, aliases and scalars of the tokens that were consumed, in their order. */
  method ParseStream(tokens: seq<Token>) returns (events: seq<Event>, consumed: nat, failed: bool)
    ensures Run(Outside, events).Some?
    ensures !failed <==> Run(Outside, events) == Some(Finished)
    ensures consumed <= |tokens| && ItemsOf(events) == ItemsBefore(tokens, consumed)
    ensures events == StreamOf(tokens).events
    ensures if failed then StreamOf(tokens).Broken? else StreamOf(tokens) == Read(events, consumed)
  {
    hide MoveOf, StreamOf, After, Run, ItemsBefore;
    var parser := new Parser(tokens);
    events, consumed, failed := [], 0, false;
    ghost var m := parser.Here();
    AtFirst(tokens);
    while true
      invariant parser.Valid() && !parser.error && parser.tokens == tokens && !failed && m == parser.Here()
      invariant Run(Outside, events) == Some(NestOf(parser.Now()))
      invariant consumed == parser.head && ItemsOf(events) == ItemsBefore(tokens, consumed)
      invariant After(tokens, INITIAL, events) == Some(m)
      decreases |tokens| - parser.head, Rank(parser.Now())
    {
      ghost var c := parser.Now();
      var r := parser.Parse();
      match r {
        case NoEvent =>
          EndedIsStuck(tokens, m);
          break;
        case Failed =>
          failed := true;
          break;
        case Produced(event) =>
          RunSnoc(Outside, events, NestOf(c), event);
          AfterSnoc(tokens, INITIAL, events, event);
          events := events + [event];
          consumed, m := parser.head, parser.Here();
      }
    }
    RunIsReading(tokens, events, m);
  }

  lemma AtFirst(tokens: seq<Token>)
    ensures Run(Outside, []) == Some(Outside) && ItemsBefore(tokens, 0) == [] && After(tokens, INITIAL, []) == Some(INITIAL)
  {
  }

  lemma AfterSnoc(tokens: seq<Token>, m: Machine, es: seq<Event>, e: Event)
    requires After(tokens, m, es).Some?
    requires MoveOf(tokens, After(tokens, m, es).value).Move? && MoveOf(tokens, After(tokens, m, es).value).event == e
    ensures After(tokens, m, es + [e]) == Some(MoveOf(tokens, After(tokens, m, es).value).next)
  {
    hide MoveOf;
    AfterAppend(tokens, m, es, [e]);
    assert [e][1..] == [];
  }
}
