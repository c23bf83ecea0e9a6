/** Documents as graphs of nodes, and the depth-first walk that both passes of the dumper make. */
module Documents {
  import opened Events

  const DEFAULT_SCALAR_TAG := "tag:yaml.org,2002:str"
  const DEFAULT_SEQUENCE_TAG := "tag:yaml.org,2002:seq"
  const DEFAULT_MAPPING_TAG := "tag:yaml.org,2002:map"

  datatype Pair = Pair(key: nat, value: nat)

  /** Nodes refer to each other by position in the document, counted from 1. */
  datatype Node =
    | ScalarNode(tag: string, value: string, scalarStyle: ScalarStyle)
    | SequenceNode(tag: string, items: seq<nat>, style: CollectionStyle)
    | MappingNode(tag: string, pairs: seq<Pair>, style: CollectionStyle)

  datatype Document = Document(nodes: seq<Node>, version: Option<Version>, tagDirectives: seq<TagDirective>,
                               startImplicit: bool, endImplicit: bool)

  function PairIds(pairs: seq<Pair>): (ids: seq<nat>)
    ensures |ids| == 2 * |pairs|
  {
    if pairs == [] then [] else PairIds(pairs[..|pairs| - 1]) + [pairs[|pairs| - 1].key, pairs[|pairs| - 1].value]
  }

  /** The ids a node refers to, in the order in which the dumper follows them. */
  function Children(node: Node): seq<nat> {
    match node
    case ScalarNode(_, _, _) => []
    case SequenceNode(_, items, _) => items
    case MappingNode(_, pairs, _) => PairIds(pairs)
  }

  predicate InRange(nodes: seq<Node>, ids: seq<nat>) {
    forall i | 0 <= i < |ids| :: 1 <= ids[i] <= |nodes|
  }

  /** Every reference points to a node of the document. */
  predicate Closed(nodes: seq<Node>) {
    forall i | 0 <= i < |nodes| :: InRange(nodes, Children(nodes[i]))
  }

  // ---- Positions ----

  /** The position of the first occurrence of `x`, counted from 1; 0 if there is none. */
  function Position(s: seq<nat>, x: nat): (p: nat)
    ensures p <= |s| && (p == 0 <==> x !in s)
    ensures p > 0 ==> s[p - 1] == x && forall i | 0 <= i < p - 1 :: s[i] != x
  {
    if s == [] then 0
    else
      var p := Position(s[..|s| - 1], x);
      if p == 0 && s[|s| - 1] == x then |s| else p
  }

  predicate Distinct(s: seq<nat>) {
    forall i, j | 0 <= i < j < |s| :: s[i] != s[j]
  }

  /** Positions do not change when a sequence grows. */
  lemma PositionPrefix(s: seq<nat>, t: seq<nat>, x: nat)
    requires s <= t && x in s
    ensures Position(t, x) == Position(s, x)
  {
    assert t[Position(s, x) - 1] == x;
    assert t[..|s|] == s;
  }

  lemma PositionAt(s: seq<nat>, k: nat)
    requires Distinct(s) && k < |s|
    ensures Position(s, s[k]) == k + 1
  {
  }

  /** How often `x` occurs. */
  function Count(s: seq<nat>, x: nat): (n: nat)
    ensures n > 0 <==> x in s
  {
    if s == [] then 0 else Count(s[..|s| - 1], x) + (if s[|s| - 1] == x then 1 else 0)
  }

  /** The elements without their later occurrences. */
  function Dedup(s: seq<nat>): (d: seq<nat>)
    ensures Distinct(d) && forall x :: x in d <==> x in s
  {
    if s == [] then []
    else
      var d := Dedup(s[..|s| - 1]);
      if s[|s| - 1] in d then d else d + [s[|s| - 1]]
  }

  // ---- The walk ----

  /** `order` holds the visited nodes in the order of their first visit, and `repeats` the
      nodes that were visited again, one entry for each further visit. */
  datatype Walk = Walk(order: seq<nat>, repeats: seq<nat>)

  predicate IsWalk(nodes: seq<Node>, w: Walk) {
    && InRange(nodes, w.order) && Distinct(w.order)
    && forall i | 0 <= i < |w.repeats| :: w.repeats[i] in w.order
  }

  ghost function Unvisited(nodes: seq<Node>, w: Walk): set<nat> {
    set i | 1 <= i <= |nodes| && i !in w.order
  }

  function First(w: Walk, id: nat): Walk {
    Walk(w.order + [id], w.repeats)
  }

  function Again(w: Walk, id: nat): Walk {
    Walk(w.order, w.repeats + [id])
  }

  /** What going down to a node's children needs: there is less left to visit. */
  lemma GoesDown(nodes: seq<Node>, w: Walk, id: nat)
    requires Closed(nodes) && IsWalk(nodes, w) && 1 <= id <= |nodes| && id !in w.order
    ensures IsWalk(nodes, First(w, id)) && InRange(nodes, Children(nodes[id - 1]))
    ensures Unvisited(nodes, First(w, id)) < Unvisited(nodes, w)
  {
    assert id in Unvisited(nodes, w) && id !in Unvisited(nodes, First(w, id));
  }

  /** What going on to the next sibling needs. */
  lemma GoesOn(nodes: seq<Node>, w: Walk, v: Walk, ids: seq<nat>)
    requires w.order <= v.order && ids != [] && InRange(nodes, ids)
    ensures 1 <= ids[0] <= |nodes| && InRange(nodes, ids[1..]) && Unvisited(nodes, v) <= Unvisited(nodes, w)
  {
  }

  /** Visits a node and, the first time, everything below it. */
  function Visit(nodes: seq<Node>, w: Walk, id: nat): (r: Walk)
    requires Closed(nodes) && IsWalk(nodes, w) && 1 <= id <= |nodes|
    ensures IsWalk(nodes, r) && w.order <= r.order && w.repeats <= r.repeats && id in r.order
    decreases Unvisited(nodes, w), 0
  {
    if id in w.order then Again(w, id)
    else
      GoesDown(nodes, w, id);
      VisitAll(nodes, First(w, id), Children(nodes[id - 1]))
  }

  function VisitAll(nodes: seq<Node>, w: Walk, ids: seq<nat>): (r: Walk)
    requires Closed(nodes) && IsWalk(nodes, w) && InRange(nodes, ids)
    ensures IsWalk(nodes, r) && w.order <= r.order && w.repeats <= r.repeats
    ensures forall i | 0 <= i < |ids| :: ids[i] in r.order
    decreases Unvisited(nodes, w), |ids|
  {
    if ids == [] then w
    else
      var v := Visit(nodes, w, ids[0]);
      GoesOn(nodes, w, v, ids);
      VisitAll(nodes, v, ids[1..])
  }

  /** The walk over the children from the i-th on, one child at a time. */
  lemma VisitStep(nodes: seq<Node>, w: Walk, ids: seq<nat>, i: nat)
    requires Closed(nodes) && IsWalk(nodes, w) && InRange(nodes, ids) && i < |ids|
    ensures 1 <= ids[i] <= |nodes| && InRange(nodes, ids[i..]) && InRange(nodes, ids[i + 1..])
    ensures VisitAll(nodes, w, ids[i..]) == VisitAll(nodes, Visit(nodes, w, ids[i]), ids[i + 1..])
  {
    assert ids[i..][1..] == ids[i + 1..];
  }

  const START := Walk([], [])

  /** The walk from the root of a document. */
  function WalkOf(nodes: seq<Node>): Walk
    requires Closed(nodes) && nodes != []
  {
    Visit(nodes, START, 1)
  }

  // ---- What the walk reaches ----

  predicate IsPath(nodes: seq<Node>, path: seq<nat>) {
    && path != [] && path[0] == 1 && InRange(nodes, path)
    && forall i | 0 <= i < |path| - 1 :: path[i + 1] in Children(nodes[path[i] - 1])
  }

  ghost predicate Reachable(nodes: seq<Node>, id: nat) {
    exists path :: IsPath(nodes, path) && path[|path| - 1] == id
  }

  ghost predicate AllReachable(nodes: seq<Node>, ids: seq<nat>) {
    forall i | 0 <= i < |ids| :: Reachable(nodes, ids[i])
  }

  lemma ReachChild(nodes: seq<Node>, id: nat, child: nat)
    requires Closed(nodes) && Reachable(nodes, id) && 1 <= id <= |nodes| && child in Children(nodes[id - 1])
    ensures Reachable(nodes, child)
  {
    hide Children, Closed, InRange;
    var path :| IsPath(nodes, path) && path[|path| - 1] == id;
    PathGrows(nodes, path, child);
    assert (path + [child])[|path|] == child;
  }

  lemma PathGrows(nodes: seq<Node>, path: seq<nat>, child: nat)
    requires Closed(nodes) && IsPath(nodes, path) && child in Children(nodes[path[|path| - 1] - 1])
    ensures IsPath(nodes, path + [child])
  {
    hide Children;
    var id, longer := path[|path| - 1], path + [child];
    assert InRange(nodes, Children(nodes[id - 1]));
    forall i | 0 <= i < |longer| - 1
      ensures longer[i + 1] in Children(nodes[longer[i] - 1])
    {
      assert longer[i] == path[i] && (i + 1 < |path| ==> longer[i + 1] == path[i + 1]);
    }
  }

  lemma {:induction false} VisitReaches(nodes: seq<Node>, w: Walk, id: nat)
    requires Closed(nodes) && IsWalk(nodes, w) && 1 <= id <= |nodes|
    requires AllReachable(nodes, w.order) && Reachable(nodes, id)
    ensures AllReachable(nodes, Visit(nodes, w, id).order)
    decreases Unvisited(nodes, w), 0
  {
    hide Reachable, IsWalk, Unvisited;
    if id !in w.order {
      var children := Children(nodes[id - 1]);
      forall i | 0 <= i < |children| ensures Reachable(nodes, children[i]) {
        ReachChild(nodes, id, children[i]);
      }
      GoesDown(nodes, w, id);
      VisitAllReaches(nodes, First(w, id), children);
    }
  }

  lemma {:induction false} VisitAllReaches(nodes: seq<Node>, w: Walk, ids: seq<nat>)
    requires Closed(nodes) && IsWalk(nodes, w) && InRange(nodes, ids)
    requires AllReachable(nodes, w.order) && AllReachable(nodes, ids)
    ensures AllReachable(nodes, VisitAll(nodes, w, ids).order)
    decreases Unvisited(nodes, w), |ids|
  {
    hide Reachable, IsWalk, Unvisited, InRange;
    if ids != [] {
      GoesOn(nodes, w, w, ids);
      VisitReaches(nodes, w, ids[0]);
      GoesOn(nodes, w, Visit(nodes, w, ids[0]), ids);
      VisitAllReaches(nodes, Visit(nodes, w, ids[0]), ids[1..]);
    }
  }

  predicate ChildrenIn(node: Node, order: seq<nat>) {
    forall i | 0 <= i < |Children(node)| :: Children(node)[i] in order
  }

  /** The children of the nodes visited since `from` have been visited too. */
  predicate Explored(nodes: seq<Node>, order: seq<nat>, from: nat)
    requires InRange(nodes, order)
  {
    forall k | from <= k < |order| :: ChildrenIn(nodes[order[k] - 1], order)
  }

  lemma ExploredGrows(nodes: seq<Node>, order: seq<nat>, more: seq<nat>, from: nat)
    requires InRange(nodes, more) && order <= more
    requires Explored(nodes, order, from) && Explored(nodes, more, |order|)
    ensures Explored(nodes, more, from)
  {
    forall k | from <= k < |order| ensures ChildrenIn(nodes[more[k] - 1], more) {
      assert order[k] == more[k];
      assert ChildrenIn(nodes[order[k] - 1], order);
    }
  }

  lemma NothingToExplore(nodes: seq<Node>, order: seq<nat>)
    requires InRange(nodes, order)
    ensures Explored(nodes, order, |order|)
  {
  }

  lemma ExploredFrom(nodes: seq<Node>, order: seq<nat>, k: nat)
    requires InRange(nodes, order) && k < |order|
    requires ChildrenIn(nodes[order[k] - 1], order) && Explored(nodes, order, k + 1)
    ensures Explored(nodes, order, k)
  {
  }

  lemma {:induction false} VisitExplores(nodes: seq<Node>, w: Walk, id: nat)
    requires Closed(nodes) && IsWalk(nodes, w) && 1 <= id <= |nodes|
    ensures Explored(nodes, Visit(nodes, w, id).order, |w.order|)
    decreases Unvisited(nodes, w), 0
  {
    hide Explored, Unvisited, Distinct, InRange, Closed;
    if id in w.order {
      NothingToExplore(nodes, w.order);
    } else {
      GoesDown(nodes, w, id);
      VisitAllExplores(nodes, First(w, id), Children(nodes[id - 1]));
      ExploresFirst(nodes, w, id, VisitAll(nodes, First(w, id), Children(nodes[id - 1])).order);
    }
  }

  lemma ExploresFirst(nodes: seq<Node>, w: Walk, id: nat, order: seq<nat>)
    requires 1 <= id <= |nodes| && InRange(nodes, order) && First(w, id).order <= order
    requires ChildrenIn(nodes[id - 1], order)
    requires Explored(nodes, order, |w.order| + 1)
    ensures Explored(nodes, order, |w.order|)
  {
    hide Explored, InRange, ChildrenIn;
    assert order[|w.order|] == First(w, id).order[|w.order|] == id;
    ExploredFrom(nodes, order, |w.order|);
  }

  lemma {:induction false} VisitAllExplores(nodes: seq<Node>, w: Walk, ids: seq<nat>)
    requires Closed(nodes) && IsWalk(nodes, w) && InRange(nodes, ids)
    ensures Explored(nodes, VisitAll(nodes, w, ids).order, |w.order|)
    decreases Unvisited(nodes, w), |ids|
  {
    hide Explored, Unvisited, Distinct;
    if ids == [] {
      NothingToExplore(nodes, w.order);
    } else {
      var v := Visit(nodes, w, ids[0]);
      VisitExplores(nodes, w, ids[0]);
      GoesOn(nodes, w, v, ids);
      VisitAllExplores(nodes, v, ids[1..]);
      ExploredGrows(nodes, v.order, VisitAll(nodes, w, ids).order, |w.order|);
    }
  }

  lemma {:induction false} PathStaysInside(nodes: seq<Node>, order: seq<nat>, path: seq<nat>)
    requires InRange(nodes, order) && Explored(nodes, order, 0) && 1 in order && IsPath(nodes, path)
    ensures path[|path| - 1] in order
    decreases |path|
  {
    if |path| > 1 {
      var shorter := path[..|path| - 1];
      assert IsPath(nodes, shorter);
      PathStaysInside(nodes, order, shorter);
      var k :| 0 <= k < |order| && order[k] == shorter[|shorter| - 1];
      assert path[|path| - 2 + 1] in Children(nodes[path[|path| - 2] - 1]);
    }
  }

  /** The walk visits exactly the nodes that can be reached from the root, each once. */
  lemma WalkVisitsReachable(nodes: seq<Node>, id: nat)
    requires Closed(nodes) && nodes != []
    ensures Distinct(WalkOf(nodes).order)
    ensures id in WalkOf(nodes).order <==> Reachable(nodes, id)
  {
    var order := WalkOf(nodes).order;
    assert IsPath(nodes, [1]) && [1][|[1]| - 1] == 1;
    VisitReaches(nodes, START, 1);
    VisitExplores(nodes, START, 1);
    if Reachable(nodes, id) {
      var path :| IsPath(nodes, path) && path[|path| - 1] == id;
      PathStaysInside(nodes, order, path);
    }
  }
}
