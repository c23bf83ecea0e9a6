/** Loading what was dumped: the part of the graph that can be reached from the root comes
    back, renumbered in the order of the first visit, with sharing and cycles kept. */
module RoundTrip {
  import opened Events
  import opened Documents
  import opened Dumper
  import opened Loader
  import Nesting

  // ---- The renumbered graph ----

  function KeptTag(tag: string, default: string): string {
    if tag == "!" then default else tag
  }

  function RenamedIds(order: seq<nat>, ids: seq<nat>): seq<nat> {
    seq(|ids|, i requires 0 <= i < |ids| => Position(order, ids[i]))
  }

  function RenamedPairs(order: seq<nat>, pairs: seq<Pair>): seq<Pair> {
    seq(|pairs|, i requires 0 <= i < |pairs| => Pair(Position(order, pairs[i].key), Position(order, pairs[i].value)))
  }

  /** A node with its references renumbered by their position in `order`. */
  function Renamed(order: seq<nat>, node: Node): Node {
    match node
    case ScalarNode(tag, value, style) => ScalarNode(KeptTag(tag, DEFAULT_SCALAR_TAG), value, style)
    case SequenceNode(tag, items, style) =>
      SequenceNode(KeptTag(tag, DEFAULT_SEQUENCE_TAG), RenamedIds(order, items), style)
    case MappingNode(tag, pairs, style) =>
      MappingNode(KeptTag(tag, DEFAULT_MAPPING_TAG), RenamedPairs(order, pairs), style)
  }

  /** The renumbered nodes at positions `a` to `b` of the order. */
  function Slice(nodes: seq<Node>, order: seq<nat>, a: nat, b: nat): seq<Node>
    requires InRange(nodes, order) && a <= b <= |order|
  {
    seq(b - a, k requires 0 <= k < b - a => Renamed(order, nodes[order[a + k] - 1]))
  }

  lemma SliceParts(nodes: seq<Node>, order: seq<nat>, a: nat, b: nat, c: nat)
    requires InRange(nodes, order) && a <= b <= c <= |order|
    ensures Slice(nodes, order, a, b) + Slice(nodes, order, b, c) == Slice(nodes, order, a, c)
  {
  }

  // ---- The table of anchors ----

  function Entry(anchored: seq<nat>, id: nat, index: nat): seq<AliasData> {
    if Position(anchored, id) > 0 then [AliasData(AnchorName(Position(anchored, id)), index)] else []
  }

  /** The anchors that the loader knows after the nodes of `order`. */
  function Table(anchored: seq<nat>, order: seq<nat>): seq<AliasData> {
    if order == [] then []
    else Table(anchored, order[..|order| - 1]) + Entry(anchored, order[|order| - 1], |order|)
  }

  lemma {:induction false} IndexOfAppend(a: seq<AliasData>, b: seq<AliasData>, anchor: string)
    ensures IndexOf(a + b, anchor) == if IndexOf(a, anchor).Some? then IndexOf(a, anchor) else IndexOf(b, anchor)
  {
    if a == [] {
      assert a + b == b;
    } else {
      assert (a + b)[1..] == a[1..] + b;
      IndexOfAppend(a[1..], b, anchor);
    }
  }

  /** An anchor leads back to the place of the node that carries it. */
  lemma {:induction false} TableFinds(anchored: seq<nat>, order: seq<nat>, id: nat)
    requires Distinct(order) && id in anchored
    ensures IndexOf(Table(anchored, order), AnchorName(Position(anchored, id))) ==
            if id in order then Some(Position(order, id)) else None
  {
    if order != [] {
      var rest, last := order[..|order| - 1], order[|order| - 1];
      var name := AnchorName(Position(anchored, id));
      TableFinds(anchored, rest, id);
      IndexOfAppend(Table(anchored, rest), Entry(anchored, last, |order|), name);
      if last != id && last in anchored {
        if AnchorName(Position(anchored, last)) == name {
          AnchorNamesDiffer(Position(anchored, last), Position(anchored, id));
        }
      }
      if id in rest {
        PositionPrefix(rest, order, id);
      } else if id == last {
        PositionAt(order, |order| - 1);
      }
    }
  }

  // ---- Filling a collection ----

  /** A node after children were added to it, one by one. */
  function Filled(order: seq<nat>, node: Node, ids: seq<nat>): (r: Node)
    requires !node.ScalarNode?
    ensures !r.ScalarNode? && (r.SequenceNode? <==> node.SequenceNode?)
    decreases |ids|
  {
    if ids == [] then node else Filled(order, WithItem(node, Position(order, ids[0])), ids[1..])
  }

  lemma {:induction false} FilledAppend(order: seq<nat>, node: Node, a: seq<nat>, b: seq<nat>)
    requires !node.ScalarNode?
    ensures Filled(order, node, a + b) == Filled(order, Filled(order, node, a), b)
    decreases |a|
  {
    if a == [] {
      assert a + b == b;
    } else {
      assert (a + b)[1..] == a[1..] + b;
      FilledAppend(order, WithItem(node, Position(order, a[0])), a[1..], b);
    }
  }

  lemma {:induction false} FilledItems(order: seq<nat>, node: Node, ids: seq<nat>)
    requires node.SequenceNode?
    ensures Filled(order, node, ids) == node.(items := node.items + RenamedIds(order, ids))
    decreases |ids|
  {
    if ids != [] {
      var first := Position(order, ids[0]);
      FilledItems(order, WithItem(node, first), ids[1..]);
      assert [first] + RenamedIds(order, ids[1..]) == RenamedIds(order, ids);
    }
  }

  predicate PairsIn(order: seq<nat>, pairs: seq<Pair>) {
    forall i | 0 <= i < |pairs| :: pairs[i].key in order && pairs[i].value in order
  }

  lemma {:induction false} FilledPairs(order: seq<nat>, node: Node, pairs: seq<Pair>)
    requires node.MappingNode? && node.pairs == [] && PairsIn(order, pairs)
    ensures Filled(order, node, PairIds(pairs)) == node.(pairs := RenamedPairs(order, pairs))
    decreases |pairs|
  {
    if pairs == [] {
      assert RenamedPairs(order, pairs) == [];
    } else {
      var rest, last := pairs[..|pairs| - 1], pairs[|pairs| - 1];
      FilledPairs(order, node, rest);
      FilledAppend(order, node, PairIds(rest), [last.key, last.value]);
      FilledPair(order, node, rest, last);
      assert rest + [last] == pairs;
    }
  }

  lemma FilledPair(order: seq<nat>, node: Node, rest: seq<Pair>, last: Pair)
    requires node.MappingNode? && PairsIn(order, rest) && last.key in order && last.value in order
    ensures Filled(order, node.(pairs := RenamedPairs(order, rest)), [last.key, last.value])
            == node.(pairs := RenamedPairs(order, rest + [last]))
  {
    var pairs := RenamedPairs(order, rest);
    var key, value := Position(order, last.key), Position(order, last.value);
    hide Position;
    assert pairs != [] ==> pairs[|pairs| - 1].value == Position(order, rest[|rest| - 1].value) > 0;
    var half := WithItem(node.(pairs := pairs), key);
    assert half == node.(pairs := pairs + [Pair(key, 0)]);
    assert WithItem(half, value).pairs == pairs + [Pair(key, value)] == RenamedPairs(order, rest + [last]);
    assert [last.key, last.value][1..] == [last.value] && [last.value][1..] == [];
    assert Filled(order, half, [last.value]) == Filled(order, WithItem(half, value), []);
  }

  /** What the loader starts with for a collection, filled with its children, is the
      renumbered collection. */
  lemma FilledCollection(order: seq<nat>, node: Node, anchor: Option<string>)
    requires !node.ScalarNode? && ChildrenIn(node, order)
    ensures Filled(order, NewNode(NodeEvent(node, anchor)), Children(node)) == Renamed(order, node)
  {
    var empty := NewNode(NodeEvent(node, anchor));
    if node.SequenceNode? {
      FilledItems(order, empty, node.items);
      assert [] + RenamedIds(order, node.items) == RenamedIds(order, node.items);
    } else {
      forall i | 0 <= i < |node.pairs| ensures node.pairs[i].key in order && node.pairs[i].value in order {
        PairIdsAt(node.pairs, i);
        assert Children(node)[2 * i] in order && Children(node)[2 * i + 1] in order;
      }
      FilledPairs(order, empty, node.pairs);
    }
  }

  // ---- Loading follows the walk ----

  /** The loader is where the dump was at `w`. */
  predicate InStep(anchored: seq<nat>, w: Walk, l: Load) {
    |l.nodes| == |w.order| && l.aliases == Table(anchored, w.order) && HasParent(l)
  }

  /** Every node that is visited again has an anchor. */
  predicate AllAnchored(anchored: seq<nat>, repeats: seq<nat>) {
    forall i | 0 <= i < |repeats| :: repeats[i] in anchored
  }

  /** Where loading one visit leads: a child for the parent, and the nodes visited first. */
  function AfterVisit(l: Load, index: nat, newer: seq<Node>, aliases: seq<AliasData>): Load
    requires HasParent(l)
  {
    Load(WithChild(l, index) + newer, aliases, l.ctx)
  }

  /** Where loading several visits leads. */
  function AfterVisits(order: seq<nat>, l: Load, ids: seq<nat>, newer: seq<Node>, aliases: seq<AliasData>): Load
    requires HasParent(l) && l.ctx != []
  {
    var parent := l.ctx[|l.ctx| - 1] - 1;
    Load(l.nodes[parent := Filled(order, l.nodes[parent], ids)] + newer, aliases, l.ctx)
  }

  lemma AfterNothing(order: seq<nat>, l: Load)
    requires HasParent(l) && l.ctx != []
    ensures AfterVisits(order, l, [], [], l.aliases) == l
  {
  }

  /** One child and then the others fill the parent like all of them. */
  lemma FillsOn(order: seq<nat>, l: Load, ids: seq<nat>, newer: seq<Node>, newest: seq<Node>,
                aliases: seq<AliasData>, more: seq<AliasData>)
    requires HasParent(l) && l.ctx != [] && ids != []
    ensures var first := AfterVisit(l, Position(order, ids[0]), newer, aliases);
            && HasParent(first) && first.ctx != [] && |first.nodes| == |l.nodes| + |newer|
            && AfterVisits(order, first, ids[1..], newest, more) == AfterVisits(order, l, ids, newer + newest, more)
  {
    var p := l.ctx[|l.ctx| - 1] - 1;
    var node := WithItem(l.nodes[p], Position(order, ids[0]));
    var full := Filled(order, node, ids[1..]);
    var first := l.nodes[p := node] + newer;
    assert first[p] == node;
    assert first[p := full] == l.nodes[p := full] + newer;
    Append(l.nodes[p := full], newer, newest);
  }

  /** A collection is opened, filled and closed. */
  lemma FillsCollection(order: seq<nat>, l: Load, e: Event, ids: seq<nat>, newer: seq<Node>,
                        aliases: seq<AliasData>, more: seq<AliasData>)
    requires HasParent(l) && (e.SequenceStart? || e.MappingStart?)
    ensures var index := |l.nodes| + 1;
            var inner := Load(WithChild(l, index) + [NewNode(e)], aliases, l.ctx + [index]);
            && HasParent(inner)
            && Step(AfterVisits(order, inner, ids, newer, more), Nesting.EndOf(e))
               == Loaded(AfterVisit(l, index, [Filled(order, NewNode(e), ids)] + newer, more))
  {
    var n := |l.nodes|;
    var before, full := WithChild(l, n + 1), Filled(order, NewNode(e), ids);
    hide Filled, WithChild;
    assert (before + [NewNode(e)])[n := full] == before + [full];
    Append(before, [full], newer);
    EndsCollection(before + [full] + newer, n, more, l.ctx, e);
  }

  lemma EndsCollection(nodes: seq<Node>, n: nat, aliases: seq<AliasData>, ctx: seq<nat>, e: Event)
    requires n < |nodes| && (e.SequenceStart? || e.MappingStart?)
    requires !nodes[n].ScalarNode? && (nodes[n].SequenceNode? <==> e.SequenceStart?)
    ensures Step(Load(nodes, aliases, ctx + [n + 1]), Nesting.EndOf(e)) == Loaded(Load(nodes, aliases, ctx))
  {
    assert (ctx + [n + 1])[..|ctx|] == ctx;
  }

  lemma Registers(anchored: seq<nat>, order: seq<nat>, id: nat)
    requires Distinct(order) && id !in order
    ensures Register(Table(anchored, order), |order| + 1, AnchorOf(anchored, id)) == Some(Table(anchored, order + [id]))
  {
    hide Table, IndexOf, AnchorName, Distinct;
    TableGrows(anchored, order, id);
    if id in anchored {
      TableFinds(anchored, order, id);
    } else {
      assert Table(anchored, order) + [] == Table(anchored, order);
    }
  }

  lemma TableGrows(anchored: seq<nat>, order: seq<nat>, id: nat)
    ensures Table(anchored, order + [id]) == Table(anchored, order) + Entry(anchored, id, |order| + 1)
  {
    assert (order + [id])[..|order|] == order;
  }

  /** A child is added to its parent also when newer nodes follow the parent. */
  lemma AddsBefore(l: Load, newer: seq<Node>, aliases: seq<AliasData>, index: nat)
    requires HasParent(l)
    ensures Add(Load(l.nodes + newer, aliases, l.ctx), index) == Loaded(Load(WithChild(l, index) + newer, aliases, l.ctx))
  {
    if l.ctx != [] {
      var parent := l.ctx[|l.ctx| - 1] - 1;
      var node := WithItem(l.nodes[parent], index);
      assert (l.nodes + newer)[parent := node] == l.nodes[parent := node] + newer;
    }
  }

  /** The first event of a node: the node gets the place that the order gives it. */
  lemma LoadsFirst(nodes: seq<Node>, anchored: seq<nat>, order: seq<nat>, w: Walk, id: nat, l: Load)
    requires IsWalk(nodes, w) && id !in w.order && 1 <= id <= |nodes| && InStep(anchored, w, l)
    requires First(w, id).order <= order && Distinct(order)
    ensures Position(order, id) == |w.order| + 1
    ensures var e := NodeEvent(nodes[id - 1], AnchorOf(anchored, id));
            Begin(l, e) == Loaded(Load(WithChild(l, |w.order| + 1) + [NewNode(e)],
                                       Table(anchored, First(w, id).order), l.ctx))
  {
    hide Table, Position, Register, AnchorOf, Add, WithChild;
    var n := |w.order|;
    assert order[n] == First(w, id).order[n] == id;
    PositionAt(order, n);
    Registers(anchored, w.order, id);
    AddsBefore(l, [NewNode(NodeEvent(nodes[id - 1], AnchorOf(anchored, id)))], Table(anchored, First(w, id).order), n + 1);
  }

  lemma LoadsAgain(anchored: seq<nat>, order: seq<nat>, w: Walk, id: nat, l: Load)
    requires Distinct(w.order) && id in w.order && id in anchored && w.order <= order && InStep(anchored, w, l)
    ensures Step(l, Alias(AnchorOf(anchored, id))) ==
            Loaded(Load(WithChild(l, Position(order, id)), Table(anchored, w.order), l.ctx))
  {
    TableFinds(anchored, w.order, id);
    PositionPrefix(w.order, order, id);
  }

  lemma {:induction false} LoadsVisit(nodes: seq<Node>, anchored: seq<nat>, order: seq<nat>, w: Walk, id: nat, l: Load)
    requires Closed(nodes) && IsWalk(nodes, w) && 1 <= id <= |nodes| && InStep(anchored, w, l)
    requires Visit(nodes, w, id).order <= order && Distinct(order) && InRange(nodes, order)
    requires AllAnchored(anchored, Visit(nodes, w, id).repeats)
    ensures var v := Visit(nodes, w, id);
            Steps(l, EventsOf(nodes, anchored, w, id))
            == Loaded(AfterVisit(l, Position(order, id), Slice(nodes, order, |w.order|, |v.order|), Table(anchored, v.order)))
    decreases Unvisited(nodes, w), 0
  {
    hide Unvisited, IsWalk, Closed, Visit, EventsOf, AllAnchored, Distinct, InRange, VisitAll, EventsOfAll, Slice, Table, Step, AfterVisit, AfterVisits;
    Unfold(nodes, anchored, w, id);
    if id in w.order {
      VisitsAgain(nodes, anchored, order, w, id, l);
    } else {
      GoesDown(nodes, w, id);
      if nodes[id - 1].ScalarNode? {
        VisitsScalar(nodes, anchored, order, w, id, l);
      } else {
        var inner := OpensCollection(nodes, anchored, order, w, id, l);
        LoadsVisits(nodes, anchored, order, First(w, id), Children(nodes[id - 1]), inner);
        ClosesCollection(nodes, anchored, order, w, id, l, inner);
      }
    }
  }

  lemma LoadsNone(nodes: seq<Node>, anchored: seq<nat>, order: seq<nat>, w: Walk, l: Load)
    requires Closed(nodes) && IsWalk(nodes, w) && InStep(anchored, w, l) && l.ctx != []
    requires w.order <= order && InRange(nodes, order)
    ensures VisitAll(nodes, w, []) == w
    ensures Steps(l, EventsOfAll(nodes, anchored, w, []))
         == Loaded(AfterVisits(order, l, [], Slice(nodes, order, |w.order|, |w.order|), Table(anchored, w.order)))
  {
    AfterNothing(order, l);
    assert Slice(nodes, order, |w.order|, |w.order|) == [];
  }

  lemma {:induction false} LoadsVisits(nodes: seq<Node>, anchored: seq<nat>, order: seq<nat>, w: Walk, ids: seq<nat>, l: Load)
    requires Closed(nodes) && IsWalk(nodes, w) && InRange(nodes, ids) && InStep(anchored, w, l) && l.ctx != []
    requires VisitAll(nodes, w, ids).order <= order && Distinct(order) && InRange(nodes, order)
    requires AllAnchored(anchored, VisitAll(nodes, w, ids).repeats)
    ensures var v := VisitAll(nodes, w, ids);
            Steps(l, EventsOfAll(nodes, anchored, w, ids))
            == Loaded(AfterVisits(order, l, ids, Slice(nodes, order, |w.order|, |v.order|), Table(anchored, v.order)))
    decreases Unvisited(nodes, w), |ids|
  {
    hide Unvisited, IsWalk, Closed, Distinct, InRange, Visit, VisitAll, EventsOf, EventsOfAll, Slice, Table, Step, Steps,
         AfterVisit, AfterVisits, AllAnchored, HasParent;
    if ids == [] {
      LoadsNone(nodes, anchored, order, w, l);
    } else {
      GoesOn(nodes, w, w, ids);
      VisitThenVisits(nodes, anchored, w, ids);
      var v, u := Visit(nodes, w, ids[0]), VisitAll(nodes, w, ids);
      GoesOn(nodes, w, v, ids);
      AnchoredPrefix(anchored, v.repeats, u.repeats);
      var newer, newest := Slice(nodes, order, |w.order|, |v.order|), Slice(nodes, order, |v.order|, |u.order|);
      var aliases, more := Table(anchored, v.order), Table(anchored, u.order);
      FillsOn(order, l, ids, newer, newest, aliases, more);
      var first := AfterVisit(l, Position(order, ids[0]), newer, aliases);
      InStepAfter(nodes, anchored, order, w, v, ids[0], l);
      LoadsVisit(nodes, anchored, order, w, ids[0], l);
      LoadsVisits(nodes, anchored, order, v, ids[1..], first);
      StepsAppend(l, EventsOf(nodes, anchored, w, ids[0]), EventsOfAll(nodes, anchored, v, ids[1..]));
      SliceParts(nodes, order, |w.order|, |v.order|, |u.order|);
    }
  }

  lemma VisitThenVisits(nodes: seq<Node>, anchored: seq<nat>, w: Walk, ids: seq<nat>)
    requires Closed(nodes) && IsWalk(nodes, w) && InRange(nodes, ids) && ids != []
    ensures 1 <= ids[0] <= |nodes| && InRange(nodes, ids[1..])
    ensures var v := Visit(nodes, w, ids[0]);
            && VisitAll(nodes, w, ids) == VisitAll(nodes, v, ids[1..])
            && EventsOfAll(nodes, anchored, w, ids)
               == EventsOf(nodes, anchored, w, ids[0]) + EventsOfAll(nodes, anchored, v, ids[1..])
  {
  }

  lemma AnchoredPrefix(anchored: seq<nat>, some: seq<nat>, all: seq<nat>)
    requires some <= all && AllAnchored(anchored, all)
    ensures AllAnchored(anchored, some)
  {
  }

  lemma InStepAfter(nodes: seq<Node>, anchored: seq<nat>, order: seq<nat>, w: Walk, v: Walk, id: nat, l: Load)
    requires InStep(anchored, w, l) && InRange(nodes, order) && |w.order| <= |v.order| <= |order|
    ensures InStep(anchored, v, AfterVisit(l, Position(order, id), Slice(nodes, order, |w.order|, |v.order|), Table(anchored, v.order)))
  {
    hide Table, Renamed, Position;
  }

  lemma VisitsAgain(nodes: seq<Node>, anchored: seq<nat>, order: seq<nat>, w: Walk, id: nat, l: Load)
    requires IsWalk(nodes, w) && id in w.order && w.order <= order && InRange(nodes, order) && InStep(anchored, w, l)
    requires AllAnchored(anchored, Again(w, id).repeats)
    ensures Steps(l, [Alias(AnchorOf(anchored, id))])
            == Loaded(AfterVisit(l, Position(order, id), Slice(nodes, order, |w.order|, |w.order|), Table(anchored, w.order)))
  {
    assert Again(w, id).repeats[|w.repeats|] == id;
    LoadsAgain(anchored, order, w, id, l);
    OneStep(l, Alias(AnchorOf(anchored, id)));
    assert Slice(nodes, order, |w.order|, |w.order|) == [];
  }

  lemma VisitsScalar(nodes: seq<Node>, anchored: seq<nat>, order: seq<nat>, w: Walk, id: nat, l: Load)
    requires Closed(nodes) && IsWalk(nodes, w) && id !in w.order && 1 <= id <= |nodes| && nodes[id - 1].ScalarNode?
    requires First(w, id).order <= order && Distinct(order) && InRange(nodes, order) && InStep(anchored, w, l)
    ensures Visit(nodes, w, id) == First(w, id)
    ensures var v := First(w, id);
            Steps(l, EventsOf(nodes, anchored, w, id))
            == Loaded(AfterVisit(l, Position(order, id), Slice(nodes, order, |w.order|, |v.order|), Table(anchored, v.order)))
  {
    hide Table, AnchorOf, Position, Begin, Closed, IsWalk, InStep, Slice, Visit, EventsOf, InRange, Renamed;
    var e := NodeEvent(nodes[id - 1], AnchorOf(anchored, id));
    UnfoldScalar(nodes, anchored, w, id);
    LoadsFirst(nodes, anchored, order, w, id, l);
    OneStep(l, e);
    SliceOne(nodes, order, |w.order|);
    assert order[|w.order|] == First(w, id).order[|w.order|] == id;
    assert Renamed(order, nodes[id - 1]) == NewNode(e) by {
      RenamedScalar(order, nodes[id - 1], AnchorOf(anchored, id));
    }
  }

  lemma RenamedScalar(order: seq<nat>, node: Node, anchor: Option<string>)
    requires node.ScalarNode?
    ensures Renamed(order, node) == NewNode(NodeEvent(node, anchor))
  {
  }

  lemma UnfoldScalar(nodes: seq<Node>, anchored: seq<nat>, w: Walk, id: nat)
    requires Closed(nodes) && IsWalk(nodes, w) && id !in w.order && 1 <= id <= |nodes| && nodes[id - 1].ScalarNode?
    ensures Visit(nodes, w, id) == First(w, id)
    ensures EventsOf(nodes, anchored, w, id) == [NodeEvent(nodes[id - 1], AnchorOf(anchored, id))]
  {
  }

  lemma SliceOne(nodes: seq<Node>, order: seq<nat>, n: nat)
    requires InRange(nodes, order) && n < |order|
    ensures Slice(nodes, order, n, n + 1) == [Renamed(order, nodes[order[n] - 1])]
  {
  }

  /** The loader after the start event of a collection. */
  lemma OpensCollection(nodes: seq<Node>, anchored: seq<nat>, order: seq<nat>, w: Walk, id: nat, l: Load)
    returns (inner: Load)
    requires IsWalk(nodes, w) && id !in w.order && 1 <= id <= |nodes| && !nodes[id - 1].ScalarNode?
    requires First(w, id).order <= order && Distinct(order) && InStep(anchored, w, l)
    ensures var e := NodeEvent(nodes[id - 1], AnchorOf(anchored, id));
            && Step(l, e) == Loaded(inner)
            && inner == Load(WithChild(l, |l.nodes| + 1) + [NewNode(e)], Table(anchored, First(w, id).order),
                             l.ctx + [|l.nodes| + 1])
    ensures InStep(anchored, First(w, id), inner) && Position(order, id) == |l.nodes| + 1
  {
    hide Table, AnchorOf, Position, Begin;
    var e := NodeEvent(nodes[id - 1], AnchorOf(anchored, id));
    LoadsFirst(nodes, anchored, order, w, id, l);
    inner := Load(WithChild(l, |w.order| + 1) + [NewNode(e)], Table(anchored, First(w, id).order), l.ctx + [|w.order| + 1]);
  }

  /** The children and the end event after it. */
  lemma ClosesCollection(nodes: seq<Node>, anchored: seq<nat>, order: seq<nat>, w: Walk, id: nat, l: Load, inner: Load)
    requires Closed(nodes) && IsWalk(nodes, w) && id !in w.order && 1 <= id <= |nodes| && !nodes[id - 1].ScalarNode?
    requires Visit(nodes, w, id).order <= order && Distinct(order) && InRange(nodes, order) && InStep(anchored, w, l)
    requires IsWalk(nodes, First(w, id)) && InRange(nodes, Children(nodes[id - 1]))
    requires Position(order, id) == |l.nodes| + 1
    requires var e := NodeEvent(nodes[id - 1], AnchorOf(anchored, id));
             && Step(l, e) == Loaded(inner)
             && inner == Load(WithChild(l, |l.nodes| + 1) + [NewNode(e)], Table(anchored, First(w, id).order),
                              l.ctx + [|l.nodes| + 1])
             && HasParent(inner)
    requires var v, start := Visit(nodes, w, id), First(w, id);
             Steps(inner, EventsOfAll(nodes, anchored, start, Children(nodes[id - 1])))
             == Loaded(AfterVisits(order, inner, Children(nodes[id - 1]),
                                   Slice(nodes, order, |start.order|, |v.order|), Table(anchored, v.order)))
    ensures var v := Visit(nodes, w, id);
            Steps(l, EventsOf(nodes, anchored, w, id))
            == Loaded(AfterVisit(l, Position(order, id), Slice(nodes, order, |w.order|, |v.order|), Table(anchored, v.order)))
  {
    var node, n, v := nodes[id - 1], |w.order|, Visit(nodes, w, id);
    hide Table, AnchorOf, Position, Closed, IsWalk, Visit, EventsOf, EventsOfAll, VisitAll, Slice, AfterVisits, AfterVisit,
         Step, Steps, Filled, WithChild, Distinct, InRange, Renamed, Children, NewNode;
    var e := NodeEvent(node, AnchorOf(anchored, id));
    var newer, more := Slice(nodes, order, n + 1, |v.order|), Table(anchored, v.order);
    var full := Filled(order, NewNode(e), Children(node));
    assert Steps(l, EventsOf(nodes, anchored, w, id)) == Loaded(AfterVisit(l, |l.nodes| + 1, [full] + newer, more)) by {
      Unfold(nodes, anchored, w, id);
      FillsCollection(order, l, e, Children(node), newer, Table(anchored, First(w, id).order), more);
      ThreeParts(l, e, inner, EventsOfAll(nodes, anchored, First(w, id), Children(node)),
                 AfterVisits(order, inner, Children(node), newer, more), Nesting.EndOf(e),
                 AfterVisit(l, |l.nodes| + 1, [full] + newer, more));
    }
    SliceOfCollection(nodes, anchored, order, w, id);
  }

  lemma VisitStarts(nodes: seq<Node>, w: Walk, id: nat)
    requires Closed(nodes) && IsWalk(nodes, w) && id !in w.order && 1 <= id <= |nodes|
    ensures First(w, id).order <= Visit(nodes, w, id).order
  {
    hide InRange, Distinct;
    GoesDown(nodes, w, id);
  }

  lemma SliceOfCollection(nodes: seq<Node>, anchored: seq<nat>, order: seq<nat>, w: Walk, id: nat)
    requires Closed(nodes) && IsWalk(nodes, w) && id !in w.order && 1 <= id <= |nodes| && !nodes[id - 1].ScalarNode?
    requires Visit(nodes, w, id).order <= order && InRange(nodes, order)
    ensures var node, n, v := nodes[id - 1], |w.order|, Visit(nodes, w, id);
            && n < |v.order|
            && [Filled(order, NewNode(NodeEvent(node, AnchorOf(anchored, id))), Children(node))]
               + Slice(nodes, order, n + 1, |v.order|) == Slice(nodes, order, n, |v.order|)
  {
    hide AnchorOf, Closed, IsWalk, Visit, Slice, Filled, InRange, Renamed, Children, NewNode, NodeEvent;
    var node, n, v := nodes[id - 1], |w.order|, Visit(nodes, w, id);
    VisitStarts(nodes, w, id);
    ExploredChildren(nodes, w, id, order);
    FilledCollection(order, node, AnchorOf(anchored, id));
    SliceOne(nodes, order, n);
    SliceParts(nodes, order, n, n + 1, |v.order|);
  }

  lemma ThreeParts(l: Load, e: Event, inner: Load, children: seq<Event>, filled: Load, end: Event, closed: Load)
    requires Step(l, e) == Loaded(inner) && Steps(inner, children) == Loaded(filled) && Step(filled, end) == Loaded(closed)
    ensures Steps(l, [e] + (children + [end])) == Loaded(closed)
  {
    hide Step;
    OneStep(filled, end);
    StepsAppend(inner, children, [end]);
    StepFirst(l, e, children + [end]);
  }

  lemma StepFirst(l: Load, e: Event, es: seq<Event>)
    ensures Steps(l, [e] + es) == if Step(l, e).Loaded? then Steps(Step(l, e).load, es) else Step(l, e)
  {
    assert ([e] + es)[1..] == es;
  }

  lemma ExploredChildren(nodes: seq<Node>, w: Walk, id: nat, order: seq<nat>)
    requires Closed(nodes) && IsWalk(nodes, w) && id !in w.order && 1 <= id <= |nodes|
    requires Visit(nodes, w, id).order <= order
    ensures |w.order| < |order| && order[|w.order|] == id && ChildrenIn(nodes[id - 1], order)
  {
    GoesDown(nodes, w, id);
    var v := VisitAll(nodes, First(w, id), Children(nodes[id - 1]));
    assert v.order[|w.order|] == First(w, id).order[|w.order|] == id;
  }

  lemma OneStep(l: Load, e: Event)
    ensures Steps(l, [e]) == Step(l, e)
  {
    assert [e][1..] == [];
  }

  /** Loading the dump of any document gives the part that can be reached from the root: node
      `k` of the result is node `order[k]` of the original with every reference renumbered by
      its position in `order`, where `order` lists the reachable nodes, each once, from the
      root.  A tag comes back unchanged exactly if it is not "!". */
  lemma LoadAfterDump(nodes: seq<Node>)
    requires Closed(nodes) && nodes != []
    ensures var order := WalkOf(nodes).order;
            var o := Steps(EMPTY, EventsOf(nodes, Anchored(nodes), START, 1));
            && o.Loaded? && o.load.ctx == []
            && |o.load.nodes| == |order|
            && (forall k | 0 <= k < |order| ::
                  && o.load.nodes[k] == Renamed(order, nodes[order[k] - 1])
                  && (o.load.nodes[k].tag == nodes[order[k] - 1].tag <==> nodes[order[k] - 1].tag != "!"))
  {
    hide EventsOf, Steps, Visit, Table, Dedup, Renamed;
    var w, anchored := WalkOf(nodes), Anchored(nodes);
    LoadsRoot(nodes, anchored, w);
    forall k | 0 <= k < |w.order|
      ensures var r := Renamed(w.order, nodes[w.order[k] - 1]); r.tag == nodes[w.order[k] - 1].tag <==> nodes[w.order[k] - 1].tag != "!"
    {
      TagComesBack(w.order, nodes[w.order[k] - 1]);
    }
  }

  lemma LoadsRoot(nodes: seq<Node>, anchored: seq<nat>, w: Walk)
    requires Closed(nodes) && nodes != [] && w == WalkOf(nodes) && anchored == Dedup(w.repeats)
    ensures Steps(EMPTY, EventsOf(nodes, anchored, START, 1))
            == Loaded(Load(Slice(nodes, w.order, 0, |w.order|), Table(anchored, w.order), []))
  {
    hide Visit, EventsOf, Slice, Steps, Closed;
    assert InStep(anchored, START, EMPTY);
    LoadsVisit(nodes, anchored, w.order, START, 1, EMPTY);
    assert [] + Slice(nodes, w.order, 0, |w.order|) == Slice(nodes, w.order, 0, |w.order|);
  }

  lemma TagComesBack(order: seq<nat>, node: Node)
    ensures Renamed(order, node).tag == node.tag <==> node.tag != "!"
  {
  }
}
