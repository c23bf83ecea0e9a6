/** What the events of a dump say about aliases and anchors, for every graph. */
module DumpProperties {
  import opened Events
  import opened Nesting
  import opened Documents
  import opened Dumper

  /** The anchors that the alias events name, in order. */
  function AliasesIn(es: seq<Event>): seq<Option<string>> {
    if es == [] then [] else AliasIn(es[0]) + AliasesIn(es[1..])
  }

  function AliasIn(e: Event): seq<Option<string>> {
    if e.Alias? then [e.anchor] else []
  }

  /** The anchors that the other node events carry, in order. */
  function AnchorsIn(es: seq<Event>): seq<string> {
    if es == [] then [] else AnchorIn(es[0]) + AnchorsIn(es[1..])
  }

  function AnchorIn(e: Event): seq<string> {
    if BeginsNode(e) && !e.Alias? && e.anchor.Some? then [e.anchor.value] else []
  }

  lemma {:induction false} Concatenates(a: seq<Event>, b: seq<Event>)
    ensures AliasesIn(a + b) == AliasesIn(a) + AliasesIn(b)
    ensures AnchorsIn(a + b) == AnchorsIn(a) + AnchorsIn(b)
  {
    if a == [] {
      assert a + b == b;
    } else {
      hide AliasIn, AnchorIn;
      Concatenates(a[1..], b);
      assert (a + b)[1..] == a[1..] + b;
      Append(AliasIn(a[0]), AliasesIn(a[1..]), AliasesIn(b));
      Append(AnchorIn(a[0]), AnchorsIn(a[1..]), AnchorsIn(b));
    }
  }

  /** The names of some nodes, None for those without an anchor. */
  function Names(anchored: seq<nat>, ids: seq<nat>): (names: seq<Option<string>>)
    ensures |names| == |ids| && forall i | 0 <= i < |ids| :: names[i] == AnchorOf(anchored, ids[i])
  {
    seq(|ids|, i requires 0 <= i < |ids| => AnchorOf(anchored, ids[i]))
  }

  /** The names of those nodes that have one. */
  function Named(anchored: seq<nat>, ids: seq<nat>): seq<string> {
    if ids == [] then []
    else Named(anchored, ids[..|ids| - 1])
         + (if AnchorOf(anchored, ids[|ids| - 1]).Some? then [AnchorOf(anchored, ids[|ids| - 1]).value] else [])
  }

  /** The events `es` account for the visits that lead from `w` to `v`: an alias for each
      repeated visit, a node event for each first one. */
  predicate Accounts(anchored: seq<nat>, w: Walk, v: Walk, es: seq<Event>) {
    && Names(anchored, w.repeats) + AliasesIn(es) == Names(anchored, v.repeats)
    && Named(anchored, w.order) + AnchorsIn(es) == Named(anchored, v.order)
  }

  lemma AccountsThen(anchored: seq<nat>, w: Walk, v: Walk, u: Walk, es: seq<Event>, fs: seq<Event>)
    requires Accounts(anchored, w, v, es) && Accounts(anchored, v, u, fs)
    ensures Accounts(anchored, w, u, es + fs)
  {
    hide Names, Named, AliasesIn, AnchorsIn;
    Concatenates(es, fs);
    Append(Names(anchored, w.repeats), AliasesIn(es), AliasesIn(fs));
    Append(Named(anchored, w.order), AnchorsIn(es), AnchorsIn(fs));
  }

  lemma AccountsAgain(anchored: seq<nat>, w: Walk, id: nat)
    ensures Accounts(anchored, w, Again(w, id), [Alias(AnchorOf(anchored, id))])
  {
    var e := Alias(AnchorOf(anchored, id));
    assert [e][1..] == [];
    assert AliasesIn([e]) == [AnchorOf(anchored, id)];
  }

  lemma AccountsFirst(anchored: seq<nat>, w: Walk, id: nat, node: Node)
    ensures Accounts(anchored, w, First(w, id), [NodeEvent(node, AnchorOf(anchored, id))])
  {
    var e := NodeEvent(node, AnchorOf(anchored, id));
    assert [e][1..] == [];
    assert First(w, id).order[..|w.order|] == w.order;
  }

  lemma AccountsEnd(anchored: seq<nat>, w: Walk, node: Node)
    ensures Accounts(anchored, w, w, EndEvents(node))
  {
    var es := EndEvents(node);
    assert es != [] ==> es[1..] == [];
  }

  lemma {:induction false} DumpAccounts(nodes: seq<Node>, anchored: seq<nat>, w: Walk, id: nat)
    requires Closed(nodes) && IsWalk(nodes, w) && 1 <= id <= |nodes|
    ensures Accounts(anchored, w, Visit(nodes, w, id), EventsOf(nodes, anchored, w, id))
    decreases Unvisited(nodes, w), 0
  {
    hide Unvisited, IsWalk, Closed, InRange, Accounts;
    Unfold(nodes, anchored, w, id);
    if id in w.order {
      AccountsAgain(anchored, w, id);
    } else {
      GoesDown(nodes, w, id);
      var node, start := nodes[id - 1], First(w, id);
      var inner := EventsOfAll(nodes, anchored, start, Children(node));
      AccountsFirst(anchored, w, id, node);
      DumpAllAccounts(nodes, anchored, start, Children(node));
      AccountsEnd(anchored, Visit(nodes, w, id), node);
      AccountsThen(anchored, start, Visit(nodes, w, id), Visit(nodes, w, id), inner, EndEvents(node));
      AccountsThen(anchored, w, start, Visit(nodes, w, id), [NodeEvent(node, AnchorOf(anchored, id))], inner + EndEvents(node));
    }
  }

  lemma {:induction false} DumpAllAccounts(nodes: seq<Node>, anchored: seq<nat>, w: Walk, ids: seq<nat>)
    requires Closed(nodes) && IsWalk(nodes, w) && InRange(nodes, ids)
    ensures Accounts(anchored, w, VisitAll(nodes, w, ids), EventsOfAll(nodes, anchored, w, ids))
    decreases Unvisited(nodes, w), |ids|
  {
    if ids != [] {
      hide Unvisited, IsWalk, Closed, InRange, Accounts;
      GoesOn(nodes, w, w, ids);
      var v := Visit(nodes, w, ids[0]);
      GoesOn(nodes, w, v, ids);
      DumpAccounts(nodes, anchored, w, ids[0]);
      DumpAllAccounts(nodes, anchored, v, ids[1..]);
      AccountsThen(anchored, w, v, VisitAll(nodes, w, ids),
                   EventsOf(nodes, anchored, w, ids[0]), EventsOfAll(nodes, anchored, v, ids[1..]));
    }
  }

  predicate AllDifferent(s: seq<string>) {
    forall i, j | 0 <= i < j < |s| :: s[i] != s[j]
  }

  lemma {:induction false} NamedDiffer(anchored: seq<nat>, ids: seq<nat>)
    requires Distinct(ids)
    ensures AllDifferent(Named(anchored, ids))
    ensures forall s :: s in Named(anchored, ids) <==> exists i | 0 <= i < |ids| :: AnchorOf(anchored, ids[i]) == Some(s)
  {
    if ids != [] {
      var rest, last := ids[..|ids| - 1], ids[|ids| - 1];
      NamedDiffer(anchored, rest);
      forall i | 0 <= i < |rest| && AnchorOf(anchored, last).Some?
        ensures AnchorOf(anchored, rest[i]) != AnchorOf(anchored, last)
      {
        if AnchorOf(anchored, rest[i]) == AnchorOf(anchored, last) {
          AnchorNamesDiffer(Position(anchored, rest[i]), Position(anchored, last));
        }
      }
      assert forall i | 0 <= i < |rest| :: ids[i] == rest[i];
    }
  }

  // ---- An anchor comes before its aliases ----

  /** An alias names an anchor that is known before or carried by an earlier event. */
  predicate IsBacked(es: seq<Event>, i: nat, known: seq<string>)
    requires i < |es|
  {
    es[i].Alias? && es[i].anchor.Some? ==> es[i].anchor.value in known + AnchorsIn(es[..i])
  }

  predicate Backed(es: seq<Event>, known: seq<string>) {
    forall i | 0 <= i < |es| :: IsBacked(es, i, known)
  }

  lemma BackedThen(a: seq<Event>, b: seq<Event>, known: seq<string>)
    requires Backed(a, known) && Backed(b, known + AnchorsIn(a))
    ensures Backed(a + b, known)
  {
    hide AnchorsIn, IsBacked;
    forall i | 0 <= i < |a + b| ensures IsBacked(a + b, i, known) {
      if i < |a| {
        BackedFirst(a, b, known, i);
      } else {
        BackedSecond(a, b, known, i - |a|);
      }
    }
  }

  lemma BackedFirst(a: seq<Event>, b: seq<Event>, known: seq<string>, i: nat)
    requires i < |a| && IsBacked(a, i, known)
    ensures IsBacked(a + b, i, known)
  {
    hide AnchorsIn;
    assert (a + b)[..i] == a[..i];
  }

  lemma BackedSecond(a: seq<Event>, b: seq<Event>, known: seq<string>, k: nat)
    requires k < |b| && IsBacked(b, k, known + AnchorsIn(a))
    ensures IsBacked(a + b, |a| + k, known)
  {
    hide AnchorsIn;
    assert (a + b)[|a| + k] == b[k];
    KnownThen(a, b, known, k);
  }

  lemma KnownThen(a: seq<Event>, b: seq<Event>, known: seq<string>, k: nat)
    requires k <= |b|
    ensures (known + AnchorsIn(a)) + AnchorsIn(b[..k]) == known + AnchorsIn((a + b)[..|a| + k])
  {
    hide AnchorsIn;
    assert (a + b)[..|a| + k] == a + b[..k];
    Concatenates(a, b[..k]);
    Append(known, AnchorsIn(a), AnchorsIn(b[..k]));
  }

  lemma NoAliasIsBacked(es: seq<Event>, known: seq<string>)
    requires forall i | 0 <= i < |es| :: !es[i].Alias?
    ensures Backed(es, known)
  {
  }

  lemma AliasIsBacked(anchored: seq<nat>, w: Walk, id: nat)
    requires id in w.order && Distinct(w.order)
    ensures Backed([Alias(AnchorOf(anchored, id))], Named(anchored, w.order))
  {
    hide AnchorOf, Named;
    NamedDiffer(anchored, w.order);
    var k :| 0 <= k < |w.order| && w.order[k] == id;
  }

  lemma {:induction false} DumpBacked(nodes: seq<Node>, anchored: seq<nat>, w: Walk, id: nat)
    requires Closed(nodes) && IsWalk(nodes, w) && 1 <= id <= |nodes|
    ensures Backed(EventsOf(nodes, anchored, w, id), Named(anchored, w.order))
    decreases Unvisited(nodes, w), 0
  {
    hide Unvisited, Closed, InRange, Accounts, Backed, AnchorsIn, Named;
    Unfold(nodes, anchored, w, id);
    if id in w.order {
      AliasIsBacked(anchored, w, id);
    } else {
      GoesDown(nodes, w, id);
      var node, start := nodes[id - 1], First(w, id);
      var first, inner := [NodeEvent(node, AnchorOf(anchored, id))], EventsOfAll(nodes, anchored, start, Children(node));
      NoAliasIsBacked(first, Named(anchored, w.order));
      AccountsFirst(anchored, w, id, node);
      AccountsNames(anchored, w, start, first);
      DumpAllBacked(nodes, anchored, start, Children(node));
      NoAliasIsBacked(EndEvents(node), Named(anchored, start.order) + AnchorsIn(inner));
      BackedThen(inner, EndEvents(node), Named(anchored, start.order));
      BackedThen(first, inner + EndEvents(node), Named(anchored, w.order));
    }
  }

  lemma AccountsNames(anchored: seq<nat>, w: Walk, v: Walk, es: seq<Event>)
    requires Accounts(anchored, w, v, es)
    ensures Named(anchored, w.order) + AnchorsIn(es) == Named(anchored, v.order)
  {
  }

  lemma {:induction false} DumpAllBacked(nodes: seq<Node>, anchored: seq<nat>, w: Walk, ids: seq<nat>)
    requires Closed(nodes) && IsWalk(nodes, w) && InRange(nodes, ids)
    ensures Backed(EventsOfAll(nodes, anchored, w, ids), Named(anchored, w.order))
    decreases Unvisited(nodes, w), |ids|
  {
    hide Unvisited, IsWalk, Closed, InRange, Accounts, Backed, AnchorsIn, Named;
    if ids == [] {
      NoAliasIsBacked([], Named(anchored, w.order));
      EventsOfNone(nodes, anchored, w);
    } else {
      GoesOn(nodes, w, w, ids);
      var v := Visit(nodes, w, ids[0]);
      GoesOn(nodes, w, v, ids);
      DumpBacked(nodes, anchored, w, ids[0]);
      DumpAccounts(nodes, anchored, w, ids[0]);
      AccountsNames(anchored, w, v, EventsOf(nodes, anchored, w, ids[0]));
      DumpAllBacked(nodes, anchored, v, ids[1..]);
      BackedThen(EventsOf(nodes, anchored, w, ids[0]), EventsOfAll(nodes, anchored, v, ids[1..]), Named(anchored, w.order));
    }
  }

  /** A node event that carries an anchor. */
  predicate Carries(e: Event, anchor: Option<string>) {
    BeginsNode(e) && !e.Alias? && anchor.Some? && e.anchor == anchor
  }

  lemma {:induction false} CarriedAt(es: seq<Event>, s: string) returns (j: nat)
    requires s in AnchorsIn(es)
    ensures j < |es| && Carries(es[j], Some(s))
    decreases |es|
  {
    if s in AnchorIn(es[0]) {
      j := 0;
    } else {
      j := CarriedAt(es[1..], s);
      j := j + 1;
    }
  }

  // ---- Each node is repeated as often as it was counted ----

  lemma SameName(anchored: seq<nat>, a: nat, b: nat)
    requires b in anchored
    ensures AnchorOf(anchored, a) == AnchorOf(anchored, b) <==> a == b
  {
    if AnchorOf(anchored, a) == AnchorOf(anchored, b) {
      AnchorNamesDiffer(Position(anchored, a), Position(anchored, b));
    }
  }

  lemma {:induction false} NamesCount(anchored: seq<nat>, ids: seq<nat>, id: nat)
    requires id in anchored
    ensures multiset(Names(anchored, ids))[AnchorOf(anchored, id)] == Count(ids, id)
    decreases |ids|
  {
    hide AnchorOf, Names;
    if ids == [] {
      assert Names(anchored, ids) == [];
    } else {
      var rest, last := ids[..|ids| - 1], ids[|ids| - 1];
      NamesCount(anchored, rest, id);
      assert Names(anchored, ids) == Names(anchored, rest) + [AnchorOf(anchored, last)];
      SameName(anchored, last, id);
    }
  }

  /** The two passes agree on every graph, cyclic ones included: the alias events are just the
      visits that the anchor pass counted beyond the first, in their order, so that each node with
      an anchor has as many aliases as it has further references; every alias names an anchor that
      an earlier node event carries, an anchor is carried by a node event exactly if some alias
      names it, and no two node events carry the same one. */
  lemma PassesAgree(nodes: seq<Node>)
    requires Closed(nodes) && nodes != []
    ensures var es, w, anchored := EventsOf(nodes, Anchored(nodes), START, 1), WalkOf(nodes), Anchored(nodes);
            && AliasesIn(es) == Names(anchored, w.repeats)
            && (forall id | id in anchored ::
                  multiset(AliasesIn(es))[AnchorOf(anchored, id)] == Tally(w, id).references - 1)
            && (forall i | 0 <= i < |es| && es[i].Alias? :: exists j | 0 <= j < i :: Carries(es[j], es[i].anchor))
            && (forall s :: s in AnchorsIn(es) <==> Some(s) in AliasesIn(es))
            && AllDifferent(AnchorsIn(es))
  {
    hide Accounts, EventsOf, AliasesIn, AnchorsIn, Named, Backed, Closed, Dedup, AnchorOf, Tally;
    var w, anchored := WalkOf(nodes), Anchored(nodes);
    var es := EventsOf(nodes, anchored, START, 1);
    DumpAccounts(nodes, anchored, START, 1);
    NamesAndNamed(nodes, w, es);
    AccountsIs(anchored, w, es);
    DumpBacked(nodes, anchored, START, 1);
    forall id | id in anchored
      ensures multiset(AliasesIn(es))[AnchorOf(anchored, id)] == Tally(w, id).references - 1
    {
      NamesCount(anchored, w.repeats, id);
      CountedOnce(nodes, w, id);
    }
    forall i | 0 <= i < |es| && es[i].Alias?
      ensures exists j | 0 <= j < i :: Carries(es[j], es[i].anchor)
    {
      AliasHas(es, i);
      var j := BackedAt(anchored, es, i);
    }
  }

  lemma CountedOnce(nodes: seq<Node>, w: Walk, id: nat)
    requires IsWalk(nodes, w) && id in Dedup(w.repeats)
    ensures Tally(w, id).references == Count(w.repeats, id) + 1
  {
  }

  lemma {:induction false} AliasHas(es: seq<Event>, i: nat)
    requires i < |es| && es[i].Alias? && None !in AliasesIn(es)
    ensures es[i].anchor.Some?
    decreases i
  {
    assert AliasesIn(es) == AliasIn(es[0]) + AliasesIn(es[1..]);
    if i == 0 {
      assert es[0].anchor in AliasIn(es[0]);
    } else {
      AliasHas(es[1..], i - 1);
    }
  }

  lemma BackedAt(anchored: seq<nat>, es: seq<Event>, i: nat) returns (j: nat)
    requires i < |es| && es[i].Alias? && es[i].anchor.Some? && Backed(es, Named(anchored, []))
    ensures j < i && Carries(es[j], es[i].anchor)
  {
    assert IsBacked(es, i, Named(anchored, []));
    assert [] + AnchorsIn(es[..i]) == AnchorsIn(es[..i]);
    j := CarriedAt(es[..i], es[i].anchor.value);
  }

  lemma NamesAndNamed(nodes: seq<Node>, w: Walk, es: seq<Event>)
    requires IsWalk(nodes, w) && Accounts(Dedup(w.repeats), START, w, es)
    ensures |AliasesIn(es)| == |w.repeats| && None !in AliasesIn(es) && AllDifferent(AnchorsIn(es))
    ensures forall s :: s in AnchorsIn(es) <==> Some(s) in AliasesIn(es)
  {
    hide Dedup, AliasesIn, AnchorsIn, AnchorOf, Named, Accounts, Distinct;
    var anchored := Dedup(w.repeats);
    AccountsIs(anchored, w, es);
    NamedDiffer(anchored, w.order);
    forall i | 0 <= i < |w.repeats| ensures AnchorOf(anchored, w.repeats[i]).Some? {
      HasName(anchored, w.repeats[i]);
    }
    forall s ensures s in AnchorsIn(es) <==> Some(s) in AliasesIn(es) {
      NamedIffRepeated(w.order, w.repeats, s);
    }
  }

  lemma AccountsIs(anchored: seq<nat>, w: Walk, es: seq<Event>)
    requires Accounts(anchored, START, w, es)
    ensures AliasesIn(es) == Names(anchored, w.repeats) && AnchorsIn(es) == Named(anchored, w.order)
  {
  }

  lemma NamedIffRepeated(order: seq<nat>, repeats: seq<nat>, s: string)
    requires Distinct(order) && forall i | 0 <= i < |repeats| :: repeats[i] in order
    ensures s in Named(Dedup(repeats), order) <==> Some(s) in Names(Dedup(repeats), repeats)
  {
    hide AnchorOf, Named;
    var anchored := Dedup(repeats);
    NamedDiffer(anchored, order);
    if s in Named(anchored, order) {
      var i :| 0 <= i < |order| && AnchorOf(anchored, order[i]) == Some(s);
      HasName(anchored, order[i]);
      var k :| 0 <= k < |repeats| && repeats[k] == order[i];
      assert Names(anchored, repeats)[k] == Some(s);
    }
    if Some(s) in Names(anchored, repeats) {
      var i :| 0 <= i < |repeats| && Names(anchored, repeats)[i] == Some(s);
      var k :| 0 <= k < |order| && order[k] == repeats[i];
      assert AnchorOf(anchored, order[k]) == Some(s);
    }
  }

  lemma HasName(anchored: seq<nat>, id: nat)
    ensures AnchorOf(anchored, id).Some? <==> id in anchored
  {
  }
}
