/** The dumper: a pass that counts the references to each node and numbers the anchors, and a
    pass that turns the graph into events. */
module Dumper {
  import opened Events
  import opened Documents

  // ---- Anchor names ----

  function Digits(n: nat): (s: string)
    ensures s != "" && forall i | 0 <= i < |s| :: '0' <= s[i] <= '9'
  {
    var last := ['0' + (n % 10) as char];
    if n < 10 then last else Digits(n / 10) + last
  }

  function Padded(s: string, width: nat): string
    decreases width - |s|
  {
    if |s| >= width then s else Padded("0" + s, width)
  }

  /** sprintf with the template id%03d. */
  function AnchorName(id: nat): string {
    "id" + Padded(Digits(id), 3)
  }

  function NumberOf(s: string): nat
    requires forall i | 0 <= i < |s| :: '0' <= s[i] <= '9'
  {
    if s == "" then 0 else 10 * NumberOf(s[..|s| - 1]) + (s[|s| - 1] - '0') as nat
  }

  lemma {:induction false} DigitsNumber(n: nat)
    ensures NumberOf(Digits(n)) == n
  {
    if n >= 10 {
      DigitsNumber(n / 10);
      assert Digits(n)[..|Digits(n)| - 1] == Digits(n / 10);
    } else {
      assert Digits(n)[..0] == "";
    }
  }

  lemma {:induction false} LeadingZero(s: string)
    requires forall i | 0 <= i < |s| :: '0' <= s[i] <= '9'
    ensures NumberOf("0" + s) == NumberOf(s)
  {
    if s == "" {
      assert ("0" + s)[..0] == "";
    } else {
      LeadingZero(s[..|s| - 1]);
      assert ("0" + s)[..|s|] == "0" + s[..|s| - 1];
    }
  }

  lemma {:induction false} PaddedNumber(s: string, width: nat)
    requires forall i | 0 <= i < |s| :: '0' <= s[i] <= '9'
    ensures forall i | 0 <= i < |Padded(s, width)| :: '0' <= Padded(s, width)[i] <= '9'
    ensures NumberOf(Padded(s, width)) == NumberOf(s)
    decreases width - |s|
  {
    if |s| < width {
      LeadingZero(s);
      PaddedNumber("0" + s, width);
    }
  }

  /** Different anchors have different names. */
  lemma AnchorNamesDiffer(a: nat, b: nat)
    requires AnchorName(a) == AnchorName(b)
    ensures a == b
  {
    PaddedNumber(Digits(a), 3);
    PaddedNumber(Digits(b), 3);
    DigitsNumber(a);
    DigitsNumber(b);
    assert AnchorName(a)[2..] == Padded(Digits(a), 3) && AnchorName(b)[2..] == Padded(Digits(b), 3);
  }

  // ---- What the dump pass emits ----

  /** `anchored` lists the nodes that have an anchor, in the order of their numbers. */
  function AnchorOf(anchored: seq<nat>, id: nat): Option<string> {
    if Position(anchored, id) == 0 then None else Some(AnchorName(Position(anchored, id)))
  }

  function NodeEvent(node: Node, anchor: Option<string>): Event {
    match node
    case ScalarNode(tag, value, style) =>
      Scalar(anchor, Some(tag), value, tag == DEFAULT_SCALAR_TAG, tag == DEFAULT_SCALAR_TAG, style)
    case SequenceNode(tag, _, style) => SequenceStart(anchor, Some(tag), tag == DEFAULT_SEQUENCE_TAG, style)
    case MappingNode(tag, _, style) => MappingStart(anchor, Some(tag), tag == DEFAULT_MAPPING_TAG, style)
  }

  function EndEvents(node: Node): (es: seq<Event>)
    ensures !node.ScalarNode? ==> es == [if node.SequenceNode? then SequenceEnd else MappingEnd]
  {
    match node
    case ScalarNode(_, _, _) => []
    case SequenceNode(_, _, _) => [SequenceEnd]
    case MappingNode(_, _, _) => [MappingEnd]
  }

  /** The events of one visit of the walk. */
  function EventsOf(nodes: seq<Node>, anchored: seq<nat>, w: Walk, id: nat): seq<Event>
    requires Closed(nodes) && IsWalk(nodes, w) && 1 <= id <= |nodes|
    decreases Unvisited(nodes, w), 0
  {
    if id in w.order then [Alias(AnchorOf(anchored, id))]
    else
      GoesDown(nodes, w, id);
      [NodeEvent(nodes[id - 1], AnchorOf(anchored, id))]
      + (EventsOfAll(nodes, anchored, First(w, id), Children(nodes[id - 1])) + EndEvents(nodes[id - 1]))
  }

  function EventsOfAll(nodes: seq<Node>, anchored: seq<nat>, w: Walk, ids: seq<nat>): seq<Event>
    requires Closed(nodes) && IsWalk(nodes, w) && InRange(nodes, ids)
    decreases Unvisited(nodes, w), |ids|
  {
    if ids == [] then []
    else
      var v := Visit(nodes, w, ids[0]);
      GoesOn(nodes, w, v, ids);
      EventsOf(nodes, anchored, w, ids[0]) + EventsOfAll(nodes, anchored, v, ids[1..])
  }

  /** The nodes that get an anchor, in the order of the anchor numbers: those visited more than
      once, in the order of their second visit. */
  function Anchored(nodes: seq<Node>): seq<nat>
    requires Closed(nodes) && nodes != []
  {
    Dedup(WalkOf(nodes).repeats)
  }

  function DocumentEvents(d: Document): seq<Event>
    requires Closed(d.nodes) && d.nodes != []
  {
    [DocumentStart(d.version, d.tagDirectives, d.startImplicit)]
    + (EventsOf(d.nodes, Anchored(d.nodes), START, 1) + [DocumentEnd(d.endImplicit)])
  }

  // ---- The emitter's side of the dumper ----

  datatype AnchorRecord = AnchorRecord(references: nat, anchor: nat, serialized: bool)

  class Dumper {
    var nodes: seq<Node>
    var anchors: array<AnchorRecord>
    var lastAnchorId: nat
    var isOpen: bool
    var isClosed: bool
    /** The events given to the emitter. */
    var emitted: seq<Event>

    constructor ()
      ensures !isOpen && !isClosed && emitted == []
    {
      nodes, anchors, lastAnchorId := [], new AnchorRecord[0], 0;
      isOpen, isClosed, emitted := false, false, [];
    }

    /** The anchor pass has got as far as `w`. */
    ghost predicate Counted(w: Walk)
      reads this, anchors
    {
      && anchors.Length == |nodes| && Closed(nodes) && IsWalk(nodes, w)
      && lastAnchorId == |Dedup(w.repeats)|
      && forall i | 0 <= i < |nodes| :: anchors[i] == Tally(w, i + 1)
    }

    /** The dump pass has got as far as `w`. */
    ghost predicate Marked(w: Walk, anchored: seq<nat>)
      reads this, anchors
    {
      && anchors.Length == |nodes| && Closed(nodes) && IsWalk(nodes, w)
      && forall i | 0 <= i < |nodes| ::
           anchors[i].anchor == Position(anchored, i + 1) && anchors[i].serialized == (i + 1 in w.order)
    }

    method Emit(e: Event)
      modifies this`emitted
      ensures emitted == old(emitted) + [e]
    {
      emitted := emitted + [e];
    }

    /** Counts the references to a node and to everything below it. */
    method AnchorNode(index: nat, ghost w: Walk)
      requires Counted(w) && 1 <= index <= |nodes|
      modifies anchors, this`lastAnchorId
      ensures Counted(Visit(nodes, w, index))
      decreases Unvisited(nodes, w), 0
    {
      hide Unvisited, InRange, Dedup, Position, IsWalk;
      VisitedTally(nodes, w, index);
      if anchors[index - 1].references == 0 {
        GoesDown(nodes, w, index);
        NoteFirst(index, w);
        AnchorChildren(nodes[index - 1], First(w, index));
      } else {
        NoteAgain(index, w);
      }
    }

    method NoteFirst(index: nat, ghost w: Walk)
      requires Counted(w) && 1 <= index <= |nodes| && index !in w.order
      modifies anchors
      ensures Counted(First(w, index))
    {
      hide InRange, Distinct, Dedup, Position, Tally;
      FirstTally(nodes, w, index);
      GoesDown(nodes, w, index);
      anchors[index - 1] := anchors[index - 1].(references := 1);
    }

    method NoteAgain(index: nat, ghost w: Walk)
      requires Counted(w) && 1 <= index <= |nodes| && index in w.order
      modifies anchors, this`lastAnchorId
      ensures Counted(Again(w, index))
    {
      hide InRange, Distinct, Dedup, Position;
      AgainTally(nodes, w, index);
      var references := anchors[index - 1].references + 1;
      anchors[index - 1] := anchors[index - 1].(references := references);
      if references == 2 {
        lastAnchorId := lastAnchorId + 1;
        anchors[index - 1] := anchors[index - 1].(anchor := lastAnchorId);
      }
    }

    method AnchorChildren(node: Node, ghost w: Walk)
      requires Counted(w) && InRange(nodes, Children(node))
      modifies anchors, this`lastAnchorId
      ensures Counted(VisitAll(nodes, w, Children(node)))
      decreases Unvisited(nodes, w), 2
    {
      hide Unvisited, InRange, Dedup, Position, IsWalk, Tally, Visit, VisitAll, Closed;
      match node {
        case ScalarNode(_, _, _) => VisitNone(nodes, w);
        case SequenceNode(_, items, _) => AnchorItems(items, w);
        case MappingNode(_, pairs, _) => AnchorPairs(pairs, w);
      }
    }

    method AnchorItems(items: seq<nat>, ghost w: Walk)
      requires Counted(w) && InRange(nodes, items)
      modifies anchors, this`lastAnchorId
      ensures Counted(VisitAll(nodes, w, items))
      decreases Unvisited(nodes, w), 1
    {
      hide Unvisited, InRange, Dedup, Position, IsWalk, Tally, Visit, VisitAll, Closed;
      ghost var v := w;
      assert items == items[0..];
      for i := 0 to |items|
        invariant InRange(nodes, items[i..]) && Counted(v) && w.order <= v.order
        invariant VisitAll(nodes, w, items) == VisitAll(nodes, v, items[i..])
      {
        VisitStep(nodes, v, items, i);
        GoesOn(nodes, w, v, items);
        AnchorNode(items[i], v);
        v := Visit(nodes, v, items[i]);
      }
      assert items[|items|..] == [];
      VisitNone(nodes, v);
    }

    method AnchorPairs(pairs: seq<Pair>, ghost w: Walk)
      requires Counted(w) && InRange(nodes, PairIds(pairs))
      modifies anchors, this`lastAnchorId
      ensures Counted(VisitAll(nodes, w, PairIds(pairs)))
      decreases Unvisited(nodes, w), 1
    {
      hide Unvisited, InRange, Dedup, Position, IsWalk, Tally, Visit, VisitAll, Closed;
      ghost var v, ids := w, PairIds(pairs);
      assert ids == ids[0..];
      for i := 0 to |pairs|
        invariant InRange(nodes, ids[2 * i..]) && Counted(v) && w.order <= v.order
        invariant VisitAll(nodes, w, ids) == VisitAll(nodes, v, ids[2 * i..])
      {
        PairIdsAt(pairs, i);
        VisitStep(nodes, v, ids, 2 * i);
        GoesOn(nodes, w, v, ids);
        AnchorNode(pairs[i].key, v);
        v := Visit(nodes, v, pairs[i].key);
        VisitStep(nodes, v, ids, 2 * i + 1);
        GoesOn(nodes, w, v, ids);
        AnchorNode(pairs[i].value, v);
        v := Visit(nodes, v, pairs[i].value);
      }
      assert ids[2 * |pairs|..] == [];
      VisitNone(nodes, v);
    }

    /** Emits a node and everything below it, or an alias if it was emitted before. */
    method DumpNode(index: nat, ghost w: Walk, ghost anchored: seq<nat>)
      requires Marked(w, anchored) && 1 <= index <= |nodes|
      modifies anchors, this`emitted
      ensures Marked(Visit(nodes, w, index), anchored)
      ensures emitted == old(emitted) + EventsOf(nodes, anchored, w, index)
      decreases Unvisited(nodes, w), 0
    {
      hide Unvisited, InRange, Position, IsWalk, Closed, AnchorName, Visit, EventsOf, VisitAll, EventsOfAll, NodeEvent, EndEvents;
      Unfold(nodes, anchored, w, index);
      var anchor: Option<string> := None;
      if anchors[index - 1].anchor != 0 {
        anchor := Some(AnchorName(anchors[index - 1].anchor));
      }
      if anchors[index - 1].serialized {
        MarkedAgain(w, anchored, index);
        Emit(Alias(anchor));
        return;
      }
      ghost var before := emitted;
      GoesDown(nodes, w, index);
      Mark(index, w, anchored);
      var node := nodes[index - 1];
      Emit(NodeEvent(node, anchor));
      DumpChildren(node, First(w, index), anchored);
      DumpEnd(node);
      Regroup(before, [NodeEvent(node, anchor)], EventsOfAll(nodes, anchored, First(w, index), Children(node)), EndEvents(node));
    }

    lemma MarkedAgain(w: Walk, anchored: seq<nat>, id: nat)
      requires Marked(w, anchored) && id in w.order
      ensures Marked(Again(w, id), anchored)
    {
    }

    method Mark(index: nat, ghost w: Walk, ghost anchored: seq<nat>)
      requires Marked(w, anchored) && 1 <= index <= |nodes| && index !in w.order
      modifies anchors
      ensures Marked(First(w, index), anchored)
    {
      hide InRange, Distinct, Position;
      GoesDown(nodes, w, index);
      anchors[index - 1] := anchors[index - 1].(serialized := true);
    }

    method DumpEnd(node: Node)
      modifies this`emitted
      ensures emitted == old(emitted) + EndEvents(node)
    {
      match node {
        case ScalarNode(_, _, _) =>
        case SequenceNode(_, _, _) => Emit(SequenceEnd);
        case MappingNode(_, _, _) => Emit(MappingEnd);
      }
    }

    method DumpChildren(node: Node, ghost w: Walk, ghost anchored: seq<nat>)
      requires Marked(w, anchored) && InRange(nodes, Children(node))
      modifies anchors, this`emitted
      ensures Marked(VisitAll(nodes, w, Children(node)), anchored)
      ensures emitted == old(emitted) + EventsOfAll(nodes, anchored, w, Children(node))
      decreases Unvisited(nodes, w), 2
    {
      hide Unvisited, InRange, Position, IsWalk, Visit, VisitAll, Closed, EventsOf, EventsOfAll;
      match node {
        case ScalarNode(_, _, _) => EventsOfNone(nodes, anchored, w);
        case SequenceNode(_, items, _) => DumpItems(items, w, anchored);
        case MappingNode(_, pairs, _) => DumpPairs(pairs, w, anchored);
      }
    }

    method DumpItems(items: seq<nat>, ghost w: Walk, ghost anchored: seq<nat>)
      requires Marked(w, anchored) && InRange(nodes, items)
      modifies anchors, this`emitted
      ensures Marked(VisitAll(nodes, w, items), anchored)
      ensures emitted == old(emitted) + EventsOfAll(nodes, anchored, w, items)
      decreases Unvisited(nodes, w), 1
    {
      hide Unvisited, InRange, Position, IsWalk, Visit, VisitAll, Closed, EventsOf, EventsOfAll;
      ghost var v, all := w, EventsOfAll(nodes, anchored, w, items);
      assert items == items[0..];
      for i := 0 to |items|
        invariant InRange(nodes, items[i..]) && Marked(v, anchored) && w.order <= v.order
        invariant VisitAll(nodes, w, items) == VisitAll(nodes, v, items[i..])
        invariant old(emitted) + all == emitted + EventsOfAll(nodes, anchored, v, items[i..])
      {
        EventsStep(nodes, anchored, v, items, i);
        GoesOn(nodes, w, v, items);
        Append(emitted, EventsOf(nodes, anchored, v, items[i]),
               EventsOfAll(nodes, anchored, Visit(nodes, v, items[i]), items[i + 1..]));
        DumpNode(items[i], v, anchored);
        v := Visit(nodes, v, items[i]);
      }
      assert items[|items|..] == [];
      EventsOfNone(nodes, anchored, v);
    }

    method DumpPairs(pairs: seq<Pair>, ghost w: Walk, ghost anchored: seq<nat>)
      requires Marked(w, anchored) && InRange(nodes, PairIds(pairs))
      modifies anchors, this`emitted
      ensures Marked(VisitAll(nodes, w, PairIds(pairs)), anchored)
      ensures emitted == old(emitted) + EventsOfAll(nodes, anchored, w, PairIds(pairs))
      decreases Unvisited(nodes, w), 1
    {
      hide Unvisited, InRange, Position, IsWalk, Visit, VisitAll, Closed, EventsOf, EventsOfAll;
      ghost var v, ids := w, PairIds(pairs);
      ghost var all := EventsOfAll(nodes, anchored, w, ids);
      assert ids == ids[0..];
      for i := 0 to |pairs|
        invariant InRange(nodes, ids[2 * i..]) && Marked(v, anchored) && w.order <= v.order
        invariant VisitAll(nodes, w, ids) == VisitAll(nodes, v, ids[2 * i..])
        invariant old(emitted) + all == emitted + EventsOfAll(nodes, anchored, v, ids[2 * i..])
      {
        PairIdsAt(pairs, i);
        EventsStep(nodes, anchored, v, ids, 2 * i);
        GoesOn(nodes, w, v, ids);
        Append(emitted, EventsOf(nodes, anchored, v, ids[2 * i]),
               EventsOfAll(nodes, anchored, Visit(nodes, v, ids[2 * i]), ids[2 * i + 1..]));
        DumpNode(pairs[i].key, v, anchored);
        v := Visit(nodes, v, pairs[i].key);
        EventsStep(nodes, anchored, v, ids, 2 * i + 1);
        GoesOn(nodes, w, v, ids);
        Append(emitted, EventsOf(nodes, anchored, v, ids[2 * i + 1]),
               EventsOfAll(nodes, anchored, Visit(nodes, v, ids[2 * i + 1]), ids[2 * i + 1 + 1..]));
        DumpNode(pairs[i].value, v, anchored);
        v := Visit(nodes, v, pairs[i].value);
      }
      assert ids[2 * |pairs|..] == [];
      EventsOfNone(nodes, anchored, v);
    }

    /** Emits a document, after STREAM-START for the first one; an empty one closes the stream. */
    method Dump(document: Document)
      requires Closed(document.nodes)
      modifies this
      ensures isOpen && isClosed == (old(isClosed) || document.nodes == [])
      ensures emitted == old(emitted) + (if old(isOpen) then [] else [StreamStart])
                         + (if document.nodes != [] then DocumentEvents(document)
                            else if old(isClosed) then [] else [StreamEnd])
    {
      hide EventsOf, Anchored, DocumentEvents;
      if !isOpen {
        Emit(StreamStart);
        isOpen := true;
      }
      if document.nodes != [] {
        DumpDocument(document);
      } else if !isClosed {
        Emit(StreamEnd);
        isClosed := true;
      }
    }

    method DumpDocument(document: Document)
      requires Closed(document.nodes) && document.nodes != []
      modifies this`nodes, this`anchors, this`lastAnchorId, this`emitted
      ensures emitted == old(emitted) + DocumentEvents(document)
    {
      hide EventsOf, Anchored;
      var start := DocumentStart(document.version, document.tagDirectives, document.startImplicit);
      var end := DocumentEnd(document.endImplicit);
      Emit(start);
      DumpNodes(document.nodes);
      Emit(end);
      Regroup(old(emitted), [start], EventsOf(document.nodes, Anchored(document.nodes), Documents.START, 1), [end]);
    }

    /** The two passes over the nodes of a document. */
    method DumpNodes(nodes: seq<Node>)
      requires Closed(nodes) && nodes != []
      modifies this`nodes, this`anchors, this`lastAnchorId, this`emitted
      ensures emitted == old(emitted) + EventsOf(nodes, Anchored(nodes), START, 1)
    {
      hide InRange, Visit, EventsOf;
      this.nodes := nodes;
      lastAnchorId := 0;
      anchors := new AnchorRecord[|nodes|](_ => AnchorRecord(0, 0, false));
      StartTally(nodes);
      AnchorNode(1, START);
      DumpNode(1, START, Anchored(nodes));
      lastAnchorId := 0;
    }
  }

  lemma Append<T>(a: seq<T>, b: seq<T>, c: seq<T>)
    ensures a + (b + c) == (a + b) + c
  {
  }

  lemma Regroup<T>(a: seq<T>, b: seq<T>, c: seq<T>, d: seq<T>)
    ensures a + (b + (c + d)) == a + b + c + d
  {
  }

  lemma VisitNone(nodes: seq<Node>, w: Walk)
    requires Closed(nodes) && IsWalk(nodes, w)
    ensures VisitAll(nodes, w, []) == w
  {
  }

  lemma EventsOfNone(nodes: seq<Node>, anchored: seq<nat>, w: Walk)
    requires Closed(nodes) && IsWalk(nodes, w)
    ensures VisitAll(nodes, w, []) == w && EventsOfAll(nodes, anchored, w, []) == []
  {
  }

  lemma Unfold(nodes: seq<Node>, anchored: seq<nat>, w: Walk, id: nat)
    requires Closed(nodes) && IsWalk(nodes, w) && 1 <= id <= |nodes|
    ensures id in w.order ==>
              Visit(nodes, w, id) == Again(w, id) && EventsOf(nodes, anchored, w, id) == [Alias(AnchorOf(anchored, id))]
    ensures id !in w.order ==>
              && IsWalk(nodes, First(w, id)) && InRange(nodes, Children(nodes[id - 1]))
              && Visit(nodes, w, id) == VisitAll(nodes, First(w, id), Children(nodes[id - 1]))
              && EventsOf(nodes, anchored, w, id)
                 == [NodeEvent(nodes[id - 1], AnchorOf(anchored, id))]
                    + (EventsOfAll(nodes, anchored, First(w, id), Children(nodes[id - 1])) + EndEvents(nodes[id - 1]))
  {
  }

  lemma EventsStep(nodes: seq<Node>, anchored: seq<nat>, w: Walk, ids: seq<nat>, i: nat)
    requires Closed(nodes) && IsWalk(nodes, w) && InRange(nodes, ids) && i < |ids|
    ensures 1 <= ids[i] <= |nodes| && InRange(nodes, ids[i..]) && InRange(nodes, ids[i + 1..])
    ensures var v := Visit(nodes, w, ids[i]);
            && VisitAll(nodes, w, ids[i..]) == VisitAll(nodes, v, ids[i + 1..])
            && EventsOfAll(nodes, anchored, w, ids[i..])
               == EventsOf(nodes, anchored, w, ids[i]) + EventsOfAll(nodes, anchored, v, ids[i + 1..])
  {
    VisitStep(nodes, w, ids, i);
    assert ids[i..][1..] == ids[i + 1..];
  }

  /** What the anchor pass records for a node: its visits, and the number of its anchor. */
  function Tally(w: Walk, id: nat): AnchorRecord {
    AnchorRecord((if id in w.order then 1 else 0) + Count(w.repeats, id), Position(Dedup(w.repeats), id), false)
  }

  lemma StartTally(nodes: seq<Node>)
    ensures IsWalk(nodes, START) && Dedup([]) == []
    ensures forall id :: Tally(START, id) == AnchorRecord(0, 0, false)
  {
  }

  lemma FirstTally(nodes: seq<Node>, w: Walk, id: nat)
    requires IsWalk(nodes, w) && id !in w.order
    ensures forall j | 1 <= j <= |nodes| ::
              Tally(First(w, id), j) == if j == id then Tally(w, j).(references := 1) else Tally(w, j)
  {
  }

  lemma VisitedTally(nodes: seq<Node>, w: Walk, id: nat)
    requires IsWalk(nodes, w)
    ensures Tally(w, id).references > 0 <==> id in w.order
  {
  }

  lemma AgainTally(nodes: seq<Node>, w: Walk, id: nat)
    requires IsWalk(nodes, w) && id in w.order
    ensures var isNew := id !in w.repeats; var d := Dedup(w.repeats);
            && Dedup(Again(w, id).repeats) == (if isNew then d + [id] else d)
            && forall j | 1 <= j <= |nodes| ::
                 Tally(Again(w, id), j) ==
                 if j != id then Tally(w, j)
                 else AnchorRecord(Tally(w, j).references + 1, if isNew then |d| + 1 else Tally(w, j).anchor, false)
  {
    var more := Again(w, id).repeats;
    assert more[..|more| - 1] == w.repeats;
    forall j | 1 <= j <= |nodes| && j != id
      ensures Position(Dedup(more), j) == Position(Dedup(w.repeats), j)
    {
      if j in w.repeats {
        PositionPrefix(Dedup(w.repeats), Dedup(more), j);
      }
    }
  }

  lemma {:induction false} PairIdsAt(pairs: seq<Pair>, i: nat)
    requires i < |pairs|
    ensures PairIds(pairs)[2 * i] == pairs[i].key && PairIds(pairs)[2 * i + 1] == pairs[i].value
    decreases |pairs|
  {
    if i < |pairs| - 1 {
      var rest := pairs[..|pairs| - 1];
      PairIdsAt(rest, i);
      assert pairs[i] == rest[i];
    }
  }
}
