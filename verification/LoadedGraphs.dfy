/** What the loader builds from the events of a complete document. */
module LoadedGraphs {
  import opened Events
  import opened Nesting
  import opened Documents
  import Dumper
  import L = Loader
  import D = DumpProperties
  import RoundTrip

  /** 1, 2, ..., n */
  function Upto(n: nat): (s: seq<nat>)
    ensures |s| == n && forall i | 0 <= i < n :: s[i] == i + 1
    ensures Distinct(s)
  {
    seq(n, i => i + 1)
  }

  predicate AliasesFit(l: L.Load) {
    forall i | 0 <= i < |l.aliases| :: 1 <= l.aliases[i].index <= |l.nodes|
  }

  predicate Ready(l: L.Load) {
    L.HasParent(l) && AliasesFit(l)
  }

  /** No alias event has a NULL anchor. */
  predicate Named(t: Tree) {
    match t
    case Leaf(e) => e.Alias? ==> e.anchor.Some?
    case Branch(_, children) => forall i | 0 <= i < |children| :: Named(children[i])
  }

  predicate AllNamed(ts: seq<Tree>) {
    forall i | 0 <= i < |ts| :: Named(ts[i])
  }

  /** The index that a tree has, or will have once it is loaded. */
  function IndexFor(t: Tree, l: L.Load): nat {
    if t.Leaf? && t.event.Alias? && t.event.anchor.Some? then
      var found := L.IndexOf(l.aliases, t.event.anchor.value);
      if found.Some? then found.value else 0
    else |l.nodes| + 1
  }

  function IndicesFor(ts: seq<Tree>, l: L.Load): seq<nat>
    decreases |ts|
  {
    if ts == [] then []
    else
      var o := L.Steps(l, Flatten(ts[0]));
      [IndexFor(ts[0], l)] + (if o.Loaded? then IndicesFor(ts[1..], o.load) else [])
  }

  /** A collection after children were added to it, one by one. */
  function Grown(node: Node, indices: seq<nat>): (r: Node)
    requires !node.ScalarNode?
    ensures !r.ScalarNode? && (r.SequenceNode? <==> node.SequenceNode?)
    decreases |indices|
  {
    if indices == [] then node else Grown(L.WithItem(node, indices[0]), indices[1..])
  }

  /** From `l` to `m`, one child was added to the innermost open collection and everything
      below it was loaded. */
  predicate Grew(l: L.Load, m: L.Load, index: nat)
    requires L.HasParent(l)
  {
    && m.ctx == l.ctx && |l.nodes| <= |m.nodes| && Ready(m) && 1 <= index <= |m.nodes|
    && m.nodes == L.WithChild(l, index) + m.nodes[|l.nodes|..]
    && NewInRange(m.nodes, |l.nodes|)
  }

  predicate NewInRange(nodes: seq<Node>, from: nat) {
    forall k | from <= k < |nodes| :: InRange(nodes, Children(nodes[k]))
  }

  predicate GrewAll(l: L.Load, m: L.Load, indices: seq<nat>)
    requires L.HasParent(l) && l.ctx != []
  {
    var parent := l.ctx[|l.ctx| - 1] - 1;
    && m.ctx == l.ctx && |l.nodes| <= |m.nodes| && Ready(m) && InRange(m.nodes, indices)
    && m.nodes == l.nodes[parent := Grown(l.nodes[parent], indices)] + m.nodes[|l.nodes|..]
    && NewInRange(m.nodes, |l.nodes|)
  }

  lemma {:induction false} LoadsTree(t: Tree, l: L.Load)
    requires IsTree(t) && Named(t) && Ready(l)
    ensures var o := L.Steps(l, Flatten(t));
            !o.Impossible? && (o.Loaded? ==> Grew(l, o.load, IndexFor(t, l)))
    decreases t
  {
    match t {
      case Leaf(e) =>
        RoundTrip.OneStep(l, e);
        LoadsLeaf(e, l);
      case Branch(e, children) =>
        LoadsStart(e, l);
        var begun := L.Step(l, e);
        RoundTrip.StepFirst(l, e, FlattenAll(children) + [EndOf(e)]);
        if begun.Loaded? {
          var inner := begun.load;
          LoadsForest(children, inner);
          L.StepsAppend(inner, FlattenAll(children), [EndOf(e)]);
          var filled := L.Steps(inner, FlattenAll(children));
          if filled.Loaded? {
            RoundTrip.OneStep(filled.load, EndOf(e));
            LoadsEnd(e, IndicesFor(children, inner), l, inner, filled.load);
          }
        }
    }
  }

  lemma {:induction false} LoadsForest(ts: seq<Tree>, l: L.Load)
    requires IsForest(ts) && AllNamed(ts) && Ready(l) && l.ctx != []
    ensures var o := L.Steps(l, FlattenAll(ts));
            !o.Impossible? && (o.Loaded? ==> GrewAll(l, o.load, IndicesFor(ts, l)) && |IndicesFor(ts, l)| == |ts|)
    decreases ts
  {
    if ts == [] {
      NothingGrew(l);
    } else {
      hide IsTree, Named, Ready, L.HasParent, Grew, GrewAll, L.Step, Flatten;
      LoadsTree(ts[0], l);
      L.StepsAppend(l, Flatten(ts[0]), FlattenAll(ts[1..]));
      var o := L.Steps(l, Flatten(ts[0]));
      if o.Loaded? {
        GrewReady(l, o.load, IndexFor(ts[0], l));
        LoadsForest(ts[1..], o.load);
        var p := L.Steps(o.load, FlattenAll(ts[1..]));
        if p.Loaded? {
          GrowsOn(l, o.load, p.load, IndexFor(ts[0], l), IndicesFor(ts[1..], o.load));
        }
      }
    }
  }

  lemma GrewReady(l: L.Load, m: L.Load, index: nat)
    requires L.HasParent(l) && Grew(l, m, index)
    ensures Ready(m) && m.ctx == l.ctx && |l.nodes| <= |m.nodes|
  {
  }

  lemma NothingGrew(l: L.Load)
    requires Ready(l) && l.ctx != []
    ensures GrewAll(l, l, [])
  {
    assert l.nodes[|l.nodes|..] == [];
  }

  lemma LoadsLeaf(e: Event, l: L.Load)
    requires (e.Alias? || e.Scalar?) && (e.Alias? ==> e.anchor.Some?) && Ready(l)
    ensures var o := L.Step(l, e);
            !o.Impossible? && (o.Loaded? ==> Grew(l, o.load, IndexFor(Leaf(e), l)))
  {
    hide L.TagOrDefault;
  }

  lemma LoadsStart(e: Event, l: L.Load)
    requires (e.SequenceStart? || e.MappingStart?) && Ready(l)
    ensures var o := L.Step(l, e); var index := |l.nodes| + 1;
            && !o.Impossible?
            && (o.Loaded? ==>
                  && Ready(o.load) && o.load.ctx == l.ctx + [index]
                  && o.load.nodes == L.WithChild(l, index) + [L.NewNode(e)])
  {
  }

  lemma LoadsEnd(e: Event, indices: seq<nat>, l: L.Load, inner: L.Load, filled: L.Load)
    requires (e.SequenceStart? || (e.MappingStart? && |indices| % 2 == 0)) && Ready(l) && Ready(inner)
    requires inner.ctx == l.ctx + [|l.nodes| + 1] && inner.nodes == L.WithChild(l, |l.nodes| + 1) + [L.NewNode(e)]
    requires GrewAll(inner, filled, indices)
    ensures var o := L.Step(filled, EndOf(e));
            o.Loaded? && Grew(l, o.load, |l.nodes| + 1)
    ensures |l.nodes| < |filled.nodes| && Children(filled.nodes[|l.nodes|]) == indices
  {
    hide Grown, L.WithChild, InRange, L.Step, Children, L.TagOrDefault;
    var n := |l.nodes|;
    ParentStays(l, n + 1, filled.nodes[n..], filled.aliases);
    assert inner.nodes[n] == L.NewNode(e);
    assert filled.nodes[n] == Grown(L.NewNode(e), indices);
    NewChildren(e, filled.nodes, indices);
    RoundTrip.EndsCollection(filled.nodes, n, filled.aliases, l.ctx, e);
    assert filled.nodes[..n] == L.WithChild(l, n + 1);
  }

  lemma ParentStays(l: L.Load, index: nat, newer: seq<Node>, aliases: seq<L.AliasData>)
    requires L.HasParent(l)
    ensures |L.WithChild(l, index)| == |l.nodes|
    ensures L.HasParent(L.Load(L.WithChild(l, index) + newer, aliases, l.ctx))
  {
  }

  lemma NewChildren(e: Event, nodes: seq<Node>, indices: seq<nat>)
    requires e.SequenceStart? || (e.MappingStart? && |indices| % 2 == 0)
    requires InRange(nodes, indices)
    ensures Children(Grown(L.NewNode(e), indices)) == indices
  {
    hide Grown, L.TagOrDefault;
    var node := L.NewNode(e);
    assert Complete(node) && Children(node) == [];
    GrownChildren(node, indices);
    assert [] + indices == indices;
  }

  /** The last key of a mapping has its value. */
  predicate Complete(node: Node) {
    node.MappingNode? && node.pairs != [] ==> node.pairs[|node.pairs| - 1].value != 0
  }

  /** The children of a collection are those that were added, in order. */
  lemma {:induction false} GrownChildren(node: Node, indices: seq<nat>)
    requires !node.ScalarNode? && Complete(node)
    requires forall i | 0 <= i < |indices| :: indices[i] > 0
    requires node.MappingNode? ==> |indices| % 2 == 0
    ensures Children(Grown(node, indices)) == Children(node) + indices
    decreases |indices|
  {
    hide Complete, Children, Grown, L.WithItem;
    GrownStep(node, indices);
    if indices == [] {
      assert Children(node) + [] == Children(node);
    } else if node.SequenceNode? {
      GrowsItem(node, indices[0]);
      GrownChildren(L.WithItem(node, indices[0]), indices[1..]);
      Regrouped(Children(node), indices, 1);
    } else {
      GrowsPair(node, indices[0], indices[1]);
      GrownChildren(L.WithItem(L.WithItem(node, indices[0]), indices[1]), indices[2..]);
      Regrouped(Children(node), indices, 2);
    }
  }

  lemma GrownStep(node: Node, indices: seq<nat>)
    requires !node.ScalarNode?
    ensures indices == [] ==> Grown(node, indices) == node
    ensures indices != [] && node.SequenceNode? ==>
      L.WithItem(node, indices[0]).SequenceNode? && Grown(node, indices) == Grown(L.WithItem(node, indices[0]), indices[1..])
    ensures |indices| > 0 ==> !L.WithItem(node, indices[0]).ScalarNode?
    ensures |indices| > 1 && node.MappingNode? ==>
      var whole := L.WithItem(L.WithItem(node, indices[0]), indices[1]);
      && whole.MappingNode? && Grown(node, indices) == Grown(whole, indices[2..])
  {
    assert |indices| > 1 ==> indices[1..][1..] == indices[2..];
  }

  lemma Regrouped(a: seq<nat>, b: seq<nat>, n: nat)
    requires n <= |b|
    ensures (a + b[..n]) + b[n..] == a + b
    ensures n == 1 ==> b[..n] == [b[0]]
    ensures n == 2 ==> b[..n] == [b[0], b[1]]
  {
  }

  lemma GrowsItem(node: Node, item: nat)
    requires node.SequenceNode?
    ensures Complete(L.WithItem(node, item)) && Children(L.WithItem(node, item)) == Children(node) + [item]
  {
  }

  lemma GrowsPair(node: Node, key: nat, value: nat)
    requires node.MappingNode? && Complete(node) && key > 0 && value > 0
    ensures var whole := L.WithItem(L.WithItem(node, key), value);
            whole.MappingNode? && Complete(whole) && Children(whole) == Children(node) + [key, value]
  {
    var half := L.WithItem(node, key);
    var whole := L.WithItem(half, value);
    assert half.pairs == node.pairs + [Pair(key, 0)];
    assert whole.pairs == node.pairs + [Pair(key, value)];
    assert whole.pairs[..|node.pairs|] == node.pairs;
  }

  lemma GrowsOn(l: L.Load, m: L.Load, u: L.Load, index: nat, indices: seq<nat>)
    requires L.HasParent(l) && l.ctx != [] && Grew(l, m, index) && GrewAll(m, u, indices)
    ensures GrewAll(l, u, [index] + indices)
  {
    var p := l.ctx[|l.ctx| - 1] - 1;
    assert m.nodes[p] == L.WithItem(l.nodes[p], index);
    assert ([index] + indices)[1..] == indices;
    assert Grown(m.nodes[p], indices) == Grown(l.nodes[p], [index] + indices);
  }

  // ---- The walk over what was loaded ----

  /** `g` has the nodes that `m` got after the first `from` ones. */
  predicate Agrees(g: seq<Node>, m: L.Load, from: nat) {
    |m.nodes| <= |g| && forall k | from <= k < |m.nodes| :: g[k] == m.nodes[k]
  }

  /** Visiting a loaded tree visits its nodes in the order in which they were loaded. */
  lemma {:induction false} VisitsTree(t: Tree, l: L.Load, g: seq<Node>, w: Walk)
    requires IsTree(t) && Named(t) && Ready(l) && L.Steps(l, Flatten(t)).Loaded?
    requires var m := L.Steps(l, Flatten(t)).load; Agrees(g, m, |l.nodes|)
    requires Closed(g) && IsWalk(g, w) && w.order == Upto(|l.nodes|)
    ensures var m := L.Steps(l, Flatten(t)).load;
            && 1 <= IndexFor(t, l) <= |g|
            && Visit(g, w, IndexFor(t, l)).order == Upto(|m.nodes|)
    decreases t
  {
    hide Closed, IsWalk, Ready, L.Step, L.Steps, L.NewNode, L.WithChild, IndicesFor, VisitAll, GrewAll, FlattenAll;
    match t {
      case Leaf(e) =>
        RoundTrip.OneStep(l, e);
        VisitsLeaf(e, l, g, w);
      case Branch(e, children) =>
        LoadsTree(t, l);
        RoundTrip.StepFirst(l, e, FlattenAll(children) + [EndOf(e)]);
        var inner := L.Step(l, e).load;
        L.StepsAppend(inner, FlattenAll(children), [EndOf(e)]);
        LoadsStart(e, l);
        LoadsForest(children, inner);
        var filled := L.Steps(inner, FlattenAll(children)).load;
        RoundTrip.OneStep(filled, EndOf(e));
        LoadsEnd(e, IndicesFor(children, inner), l, inner, filled);
        EndKeepsNodes(filled, EndOf(e));
        EntersBranch(l, g, w);
        VisitsForest(children, inner, g, First(w, |l.nodes| + 1));
        assert g[|l.nodes|] == filled.nodes[|l.nodes|];
    }
  }

  lemma {:induction false} VisitsForest(ts: seq<Tree>, l: L.Load, g: seq<Node>, w: Walk)
    requires IsForest(ts) && AllNamed(ts) && Ready(l) && l.ctx != [] && L.Steps(l, FlattenAll(ts)).Loaded?
    requires var m := L.Steps(l, FlattenAll(ts)).load; Agrees(g, m, |l.nodes|)
    requires Closed(g) && IsWalk(g, w) && w.order == Upto(|l.nodes|)
    ensures var m := L.Steps(l, FlattenAll(ts)).load;
            && InRange(g, IndicesFor(ts, l))
            && VisitAll(g, w, IndicesFor(ts, l)).order == Upto(|m.nodes|)
    decreases ts
  {
    if ts != [] {
      hide Closed, IsWalk, L.Step, L.Steps, L.HasParent, AliasesFit, Visit, VisitAll, Flatten, IsTree, Named, Grew, IndexFor, InRange;
      L.StepsAppend(l, Flatten(ts[0]), FlattenAll(ts[1..]));
      var m := L.Steps(l, Flatten(ts[0])).load;
      LoadsTree(ts[0], l);
      GrewReady(l, m, IndexFor(ts[0], l));
      LoadsForest(ts[1..], m);
      AgreesEarlier(g, l, m, L.Steps(l, FlattenAll(ts)).load, IndicesFor(ts[1..], m));
      VisitsTree(ts[0], l, g, w);
      VisitsForest(ts[1..], m, g, Visit(g, w, IndexFor(ts[0], l)));
      VisitsOn(g, w, IndexFor(ts[0], l), IndicesFor(ts[1..], m));
      assert IndicesFor(ts, l) == [IndexFor(ts[0], l)] + IndicesFor(ts[1..], m);
    }
  }

  lemma VisitsOn(g: seq<Node>, w: Walk, first: nat, rest: seq<nat>)
    requires Closed(g) && IsWalk(g, w) && 1 <= first <= |g| && InRange(g, rest)
    ensures InRange(g, [first] + rest) && VisitAll(g, w, [first] + rest) == VisitAll(g, Visit(g, w, first), rest)
  {
    assert ([first] + rest)[1..] == rest;
  }

  /** The nodes below an earlier sibling are not changed by the later ones. */
  lemma AgreesEarlier(g: seq<Node>, l: L.Load, m: L.Load, u: L.Load, indices: seq<nat>)
    requires L.HasParent(l) && L.HasParent(m) && m.ctx == l.ctx && l.ctx != [] && |l.nodes| <= |m.nodes|
    requires GrewAll(m, u, indices) && Agrees(g, u, |l.nodes|)
    ensures Agrees(g, m, |l.nodes|) && Agrees(g, u, |m.nodes|)
  {
    forall k | |l.nodes| <= k < |m.nodes| ensures g[k] == m.nodes[k] {
      assert u.nodes[k] == m.nodes[k];
    }
  }

  lemma EndKeepsNodes(l: L.Load, e: Event)
    requires (e.SequenceEnd? || e.MappingEnd?) && L.Step(l, e).Loaded?
    ensures L.Step(l, e).load.nodes == l.nodes
  {
  }

  lemma VisitsLeaf(e: Event, l: L.Load, g: seq<Node>, w: Walk)
    requires (e.Alias? || e.Scalar?) && (e.Alias? ==> e.anchor.Some?) && Ready(l) && L.Step(l, e).Loaded?
    requires Agrees(g, L.Step(l, e).load, |l.nodes|)
    requires Closed(g) && IsWalk(g, w) && w.order == Upto(|l.nodes|)
    ensures 1 <= IndexFor(Leaf(e), l) <= |g|
    ensures Visit(g, w, IndexFor(Leaf(e), l)).order == Upto(|L.Step(l, e).load.nodes|)
  {
    hide IsWalk, Closed, L.Step, Upto, Ready, L.IndexOf;
    var n := |l.nodes|;
    LeafIs(e, l);
    if e.Alias? {
      UptoHas(n, IndexFor(Leaf(e), l));
    } else {
      EntersBranch(l, g, w);
      assert Children(g[n]) == [];
    }
  }

  lemma LeafIs(e: Event, l: L.Load)
    requires (e.Alias? || e.Scalar?) && (e.Alias? ==> e.anchor.Some?) && Ready(l) && L.Step(l, e).Loaded?
    ensures
      var m, n := L.Step(l, e).load, |l.nodes|;
      if e.Alias? then 1 <= IndexFor(Leaf(e), l) <= n && |m.nodes| == n
      else IndexFor(Leaf(e), l) == n + 1 && |m.nodes| == n + 1 && m.nodes[n] == L.NewNode(e)
  {
    hide L.TagOrDefault;
    LoadsLeaf(e, l);
  }

  lemma EntersBranch(l: L.Load, g: seq<Node>, w: Walk)
    requires IsWalk(g, w) && w.order == Upto(|l.nodes|) && |l.nodes| < |g|
    ensures |l.nodes| + 1 !in w.order
    ensures IsWalk(g, First(w, |l.nodes| + 1)) && First(w, |l.nodes| + 1).order == Upto(|l.nodes| + 1)
  {
  }

  // ---- Tags and anchors ----

  /** No node has the tag "!", and no two nodes share an anchor. */
  predicate Tidy(l: L.Load) {
    && (forall i | 0 <= i < |l.nodes| :: l.nodes[i].tag != "!")
    && (forall i, j | 0 <= i < j < |l.aliases| :: l.aliases[i].anchor != l.aliases[j].anchor)
  }

  lemma StepKeepsTidy(l: L.Load, e: Event)
    requires Tidy(l) && L.Step(l, e).Loaded?
    ensures Tidy(L.Step(l, e).load)
  {
    if e.Scalar? || e.SequenceStart? || e.MappingStart? {
      BeginKeepsTidy(l, e);
    }
  }

  lemma BeginKeepsTidy(l: L.Load, e: Event)
    requires Tidy(l) && (e.Scalar? || e.SequenceStart? || e.MappingStart?) && L.Begin(l, e).Loaded?
    ensures Tidy(L.Begin(l, e).load)
  {
  }

  lemma {:induction false} StepsKeepTidy(l: L.Load, es: seq<Event>)
    requires Tidy(l) && L.Steps(l, es).Loaded?
    ensures Tidy(L.Steps(l, es).load)
    decreases |es|
  {
    hide Tidy, L.Step;
    if es != [] {
      StepKeepsTidy(l, es[0]);
      StepsKeepTidy(L.Step(l, es[0]).load, es[1..]);
    }
  }

  // ---- When loading succeeds ----

  function NamesOf(aliases: seq<L.AliasData>): (names: seq<string>)
    ensures |names| == |aliases| && forall i | 0 <= i < |aliases| :: names[i] == aliases[i].anchor
  {
    seq(|aliases|, i requires 0 <= i < |aliases| => aliases[i].anchor)
  }

  lemma BackedCons(es: seq<Event>, known: seq<string>)
    requires es != []
    ensures D.Backed(es, known) <==> D.IsBacked(es, 0, known) && D.Backed(es[1..], known + D.AnchorIn(es[0]))
  {
    hide D.AnchorIn, D.AnchorsIn;
    forall i | 0 <= i < |es[1..]|
      ensures D.IsBacked(es[1..], i, known + D.AnchorIn(es[0])) == D.IsBacked(es, i + 1, known)
    {
      BackedAfter(es, known, i);
    }
    if D.IsBacked(es, 0, known) && D.Backed(es[1..], known + D.AnchorIn(es[0])) {
      forall i | 0 <= i < |es| ensures D.IsBacked(es, i, known) {
        if i > 0 {
          assert D.IsBacked(es[1..], i - 1, known + D.AnchorIn(es[0]));
        }
      }
    }
    hide D.IsBacked;
  }

  lemma BackedAfter(es: seq<Event>, known: seq<string>, i: nat)
    requires i + 1 < |es|
    ensures D.IsBacked(es[1..], i, known + D.AnchorIn(es[0])) == D.IsBacked(es, i + 1, known)
  {
    var some := es[..i + 1];
    assert some[1..] == es[1..][..i] && some[0] == es[0];
    assert D.AnchorsIn(some) == D.AnchorIn(es[0]) + D.AnchorsIn(es[1..][..i]);
    hide D.AnchorIn, D.AnchorsIn;
    assert (known + D.AnchorIn(es[0])) + D.AnchorsIn(es[1..][..i]) == known + D.AnchorsIn(some);
  }

  lemma FirstBacked(es: seq<Event>, known: seq<string>)
    requires es != []
    ensures D.IsBacked(es, 0, known) <==> (es[0].Alias? && es[0].anchor.Some? ==> es[0].anchor.value in known)
  {
    assert es[..0] == [];
    assert known + D.AnchorsIn([]) == known;
  }

  /** What one event does to the anchors. */
  lemma StepAnchors(l: L.Load, e: Event)
    requires !L.Step(l, e).Impossible?
    ensures
      var names := NamesOf(l.aliases);
      && (e.Alias? ==> e.anchor.Some?)
      && (L.Step(l, e).Loaded? <==>
            (e.Alias? ==> e.anchor.value in names) && forall s | s in D.AnchorIn(e) :: s !in names)
      && (L.Step(l, e).Loaded? ==> NamesOf(L.Step(l, e).load.aliases) == names + D.AnchorIn(e))
  {
    hide L.NewNode, L.WithChild;
    var names := NamesOf(l.aliases);
    if BeginsNode(e) && e.anchor.Some? {
      FoundIff(l.aliases, e.anchor.value);
    }
  }

  lemma FoundIff(aliases: seq<L.AliasData>, anchor: string)
    ensures L.IndexOf(aliases, anchor).Some? <==> anchor in NamesOf(aliases)
  {
    if anchor in NamesOf(aliases) {
      var i :| 0 <= i < |aliases| && NamesOf(aliases)[i] == anchor;
    }
  }

  lemma MoreDiffer(names: seq<string>, more: seq<string>, rest: seq<string>)
    requires |more| <= 1
    ensures D.AllDifferent(names + (more + rest)) ==> forall s | s in more :: s !in names
    ensures D.AllDifferent(names) && (forall s | s in more :: s !in names) ==> D.AllDifferent(names + more)
    ensures names + (more + rest) == (names + more) + rest
  {
    var all := names + (more + rest);
    if more != [] && more[0] in names {
      var i :| 0 <= i < |names| && names[i] == more[0];
      assert all[i] == names[i] && all[|names|] == more[0];
    } else if more != [] && D.AllDifferent(names) {
      assert more == [more[0]];
      assert forall i | 0 <= i < |names| :: (names + more)[i] == names[i];
    } else if more == [] {
      assert names + more == names;
    }
  }

  lemma {:induction false} LoadsIff(l: L.Load, es: seq<Event>)
    requires !L.Steps(l, es).Impossible? && D.AllDifferent(NamesOf(l.aliases))
    ensures
      var names := NamesOf(l.aliases);
      L.Steps(l, es).Loaded? <==> D.AllDifferent(names + D.AnchorsIn(es)) && D.Backed(es, names)
    decreases |es|
  {
    hide L.Step, D.AllDifferent, D.IsBacked, D.AnchorIn, D.Backed;
    var names := NamesOf(l.aliases);
    if es == [] {
      assert names + [] == names;
      NothingBacked(names);
    } else {
      StepAnchors(l, es[0]);
      BackedCons(es, names);
      FirstBacked(es, names);
      OneAnchor(es[0]);
      MoreDiffer(names, D.AnchorIn(es[0]), D.AnchorsIn(es[1..]));
      assert D.AnchorsIn(es) == D.AnchorIn(es[0]) + D.AnchorsIn(es[1..]);
      if L.Step(l, es[0]).Loaded? {
        LoadsIff(L.Step(l, es[0]).load, es[1..]);
      } else {
        assert !L.Steps(l, es).Loaded?;
      }
    }
  }

  lemma NothingBacked(names: seq<string>)
    ensures D.Backed([], names)
  {
  }

  lemma OneAnchor(e: Event)
    ensures |D.AnchorIn(e)| <= 1
  {
  }

  // ---- The theorems ----

  /** The aliases of the content name something. */
  predicate AliasesNamed(content: seq<Event>) {
    forall i | 0 <= i < |content| :: content[i].Alias? ==> content[i].anchor.Some?
  }

  lemma {:induction false} TreeNamed(t: Tree)
    requires IsTree(t) && AliasesNamed(Flatten(t))
    ensures Named(t)
    decreases t
  {
    match t {
      case Leaf(e) =>
        assert Flatten(t)[0] == e;
      case Branch(e, children) =>
        var inner := FlattenAll(children);
        assert forall i | 0 <= i < |inner| :: Flatten(t)[i + 1] == inner[i];
        ForestNamed(children);
    }
  }

  lemma {:induction false} ForestNamed(ts: seq<Tree>)
    requires IsForest(ts) && AliasesNamed(FlattenAll(ts))
    ensures AllNamed(ts)
    decreases ts
  {
    if ts != [] {
      var first, rest := Flatten(ts[0]), FlattenAll(ts[1..]);
      assert forall i | 0 <= i < |first| :: FlattenAll(ts)[i] == first[i];
      assert forall i | 0 <= i < |rest| :: FlattenAll(ts)[|first| + i] == rest[i];
      TreeNamed(ts[0]);
      ForestNamed(ts[1..]);
    }
  }

  /** Every complete document loads without running into an impossible case, and what comes out
      is a graph in which all references are in range (so no key is left without its value),
      every node can be reached from the root, the nodes are numbered in the order of the
      walk, and anchors are unique.  It loads exactly if no two node events carry the same anchor
      and every alias names one that an earlier node event carries. */
  lemma LoadedDocument(content: seq<Event>)
    requires CompletesDocument(content) && AliasesNamed(content)
    ensures var o := L.Steps(L.EMPTY, content);
            && !o.Impossible?
            && (o.Loaded? <==> D.AllDifferent(D.AnchorsIn(content)) && D.Backed(content, []))
            && (o.Loaded? ==>
                  var g := o.load.nodes;
                  && o.load.ctx == [] && Tidy(o.load)
                  && g != [] && Closed(g) && WalkOf(g).order == Upto(|g|)
                  && forall id | 1 <= id <= |g| :: Reachable(g, id))
  {
    hide L.Steps, Flatten, CompletesDocument, AliasesNamed, IsTree, Named, Reachable, IndexFor, Visit, Upto, D.Backed, D.AnchorsIn;
    UptoNone();
    var t := DocumentHasTree(content);
    TreeNamed(t);
    LoadsTree(t, L.EMPTY);
    LoadsIff(L.EMPTY, content);
    assert NamesOf([]) == [] && [] + D.AnchorsIn(content) == D.AnchorsIn(content);
    var o := L.Steps(L.EMPTY, content);
    if o.Loaded? {
      var g := o.load.nodes;
      StepsKeepTidy(L.EMPTY, content);
      RootIsFirst(t);
      VisitsTree(t, L.EMPTY, g, START);
      forall id | 1 <= id <= |g| ensures Reachable(g, id) {
        WalkVisitsReachable(g, id);
        UptoHas(|g|, id);
      }
    }
  }

  lemma UptoNone()
    ensures Upto(0) == []
  {
  }

  lemma UptoHas(n: nat, id: nat)
    requires 1 <= id <= n
    ensures id in Upto(n)
  {
    assert Upto(n)[id - 1] == id;
  }

  lemma RootIsFirst(t: Tree)
    requires IsTree(t) && L.Steps(L.EMPTY, Flatten(t)).Loaded?
    ensures IndexFor(t, L.EMPTY) == 1
  {
    if t.Leaf? {
      RoundTrip.OneStep(L.EMPTY, t.event);
    }
  }

  /** A graph that the loader built comes back from dumping and loading exactly as it was. */
  lemma LoadedComesBack(content: seq<Event>)
    requires CompletesDocument(content) && AliasesNamed(content) && L.Steps(L.EMPTY, content).Loaded?
    ensures var g := L.Steps(L.EMPTY, content).load.nodes;
            && g != [] && Closed(g)
            && var o := L.Steps(L.EMPTY, Dumper.EventsOf(g, Dumper.Anchored(g), START, 1));
               o.Loaded? && o.load.nodes == g
  {
    hide L.Steps, Dumper.EventsOf, WalkOf, Dumper.Anchored, RoundTrip.Renamed, CompletesDocument, AliasesNamed, Reachable, Upto;
    var g := L.Steps(L.EMPTY, content).load.nodes;
    LoadedDocument(content);
    RoundTrip.LoadAfterDump(g);
    forall k | 0 <= k < |g| ensures RoundTrip.Renamed(Upto(|g|), g[k]) == g[k] {
      RenamedSame(g, g[k]);
    }
  }

  lemma RenamedSame(g: seq<Node>, node: Node)
    requires InRange(g, Children(node)) && node.tag != "!"
    ensures RoundTrip.Renamed(Upto(|g|), node) == node
  {
    hide Upto, Position, PairIds;
    PositionUpto(|g|);
    if node.MappingNode? {
      PairsSame(g, node.pairs);
    }
  }

  lemma PairsSame(g: seq<Node>, pairs: seq<Pair>)
    requires InRange(g, PairIds(pairs))
    ensures RoundTrip.RenamedPairs(Upto(|g|), pairs) == pairs
  {
    hide Upto, Position, PairIds;
    var order, ids := Upto(|g|), PairIds(pairs);
    PositionUpto(|g|);
    forall i | 0 <= i < |pairs|
      ensures RoundTrip.RenamedPairs(order, pairs)[i] == pairs[i]
    {
      Dumper.PairIdsAt(pairs, i);
      assert 1 <= ids[2 * i] <= |g| && 1 <= ids[2 * i + 1] <= |g|;
    }
  }

  lemma PositionUpto(n: nat)
    ensures forall i | 1 <= i <= n :: Position(Upto(n), i) == i
  {
    forall i | 1 <= i <= n ensures Position(Upto(n), i) == i {
      PositionAt(Upto(n), i - 1);
    }
  }
}
