/** The events that flow between the parser, the loader, the dumper and the emitter. */
module Events {

  datatype Option<+T> = None | Some(value: T)

  datatype ScalarStyle = AnyScalarStyle | Plain | SingleQuoted | DoubleQuoted | Literal | Folded

  datatype CollectionStyle = AnyCollectionStyle | Block | Flow

  datatype Version = Version(major: int, minor: int)

  datatype TagDirective = TagDirective(handle: string, prefix: string)

  /** `None` stands for a NULL pointer, in the anchor of an alias too. */
  datatype Event =
    | StreamStart
    | StreamEnd
    | DocumentStart(version: Option<Version>, tagDirectives: seq<TagDirective>, implicit: bool)
    | DocumentEnd(implicit: bool)
    | Alias(anchor: Option<string>)
    | Scalar(anchor: Option<string>, tag: Option<string>, value: string,
             plainImplicit: bool, quotedImplicit: bool, scalarStyle: ScalarStyle)
    | SequenceStart(anchor: Option<string>, tag: Option<string>, implicit: bool, style: CollectionStyle)
    | SequenceEnd
    | MappingStart(anchor: Option<string>, tag: Option<string>, implicit: bool, style: CollectionStyle)
    | MappingEnd
}

/** What it means for a sequence of events to be well nested: a push-down automaton, used to
    speak of prefixes of a run, and a grammar of trees, used to speak of whole documents. */
module Nesting {
  import opened Events

  /** A document that has or has not got its root, an open sequence, and an open mapping
      that is or is not waiting for the value of its last key. */
  datatype Frame = DocumentFrame(complete: bool) | SequenceFrame | MappingFrame(valueDue: bool)

  /** The open frames, innermost on top. */
  datatype Frames = Ground | On(below: Frames, top: Frame)

  datatype Nesting = Outside | Stream(frames: Frames) | Finished

  predicate AwaitsNode(frames: Frames) {
    frames.On? && frames.top != DocumentFrame(true)
  }

  /** A frame once it has got one more child. */
  function WithChild(f: Frame): Frame {
    match f
    case DocumentFrame(_) => DocumentFrame(true)
    case SequenceFrame => SequenceFrame
    case MappingFrame(valueDue) => MappingFrame(!valueDue)
  }

  function AfterChild(frames: Frames): Frames
    requires frames.On?
  {
    On(frames.below, WithChild(frames.top))
  }

  /** The events that begin a node. */
  predicate BeginsNode(e: Event) {
    e.Alias? || e.Scalar? || e.SequenceStart? || e.MappingStart?
  }

  /** The frames with the one that a start event opens; an alias or a scalar opens none. */
  function Opened(frames: Frames, e: Event): Frames {
    if e.SequenceStart? then On(frames, SequenceFrame)
    else if e.MappingStart? then On(frames, MappingFrame(false))
    else frames
  }

  predicate Admits(n: Nesting, e: Event) {
    match n
    case Outside => e.StreamStart?
    case Finished => false
    case Stream(frames) =>
      if BeginsNode(e) then AwaitsNode(frames)
      else if e.SequenceEnd? then frames.On? && frames.top == SequenceFrame
      else if e.MappingEnd? then frames.On? && frames.top == MappingFrame(false)
      else if e.DocumentEnd? then frames == On(Ground, DocumentFrame(true))
      else (e.DocumentStart? || e.StreamEnd?) && frames == Ground
  }

  function Enter(n: Nesting, e: Event): Nesting
    requires Admits(n, e)
  {
    if BeginsNode(e) then Stream(Opened(AfterChild(n.frames), e))
    else if e.SequenceEnd? || e.MappingEnd? then Stream(n.frames.below)
    else if e.DocumentStart? then Stream(On(Ground, DocumentFrame(false)))
    else if e.StreamEnd? then Finished
    else Stream(Ground)
  }

  /** The nesting after all of `es`, or None as soon as one event is out of place. */
  function Run(n: Nesting, es: seq<Event>): Option<Nesting>
    decreases |es|
  {
    if es == [] then Some(n)
    else if Admits(n, es[0]) then Run(Enter(n, es[0]), es[1..])
    else None
  }

  lemma {:induction false} RunAppend(n: Nesting, es: seq<Event>, fs: seq<Event>)
    ensures Run(n, es + fs) == (match Run(n, es) case None => None case Some(m) => Run(m, fs))
    decreases |es|
  {
    if es == [] {
      assert es + fs == fs;
    } else if Admits(n, es[0]) {
      assert (es + fs)[1..] == es[1..] + fs;
      RunAppend(Enter(n, es[0]), es[1..], fs);
    }
  }

  lemma RunSnoc(n: Nesting, es: seq<Event>, m: Nesting, e: Event)
    requires Run(n, es) == Some(m) && Admits(m, e)
    ensures Run(n, es + [e]) == Some(Enter(m, e))
  {
    RunAppend(n, es, [e]);
    assert [e][1..] == [];
  }

  // ---- The grammar ----

  /** One node with everything below it; `event` is the alias, scalar or start event. */
  datatype Tree = Leaf(event: Event) | Branch(event: Event, children: seq<Tree>)

  predicate IsTree(t: Tree) {
    match t
    case Leaf(e) => e.Alias? || e.Scalar?
    case Branch(e, children) =>
      && (e.SequenceStart? || (e.MappingStart? && |children| % 2 == 0))
      && forall i | 0 <= i < |children| :: IsTree(children[i])
  }

  predicate IsForest(ts: seq<Tree>) {
    forall i | 0 <= i < |ts| :: IsTree(ts[i])
  }

  function EndOf(e: Event): Event {
    if e.SequenceStart? then SequenceEnd else MappingEnd
  }

  function Flatten(t: Tree): seq<Event>
    decreases t
  {
    match t
    case Leaf(e) => [e]
    case Branch(e, children) => [e] + (FlattenAll(children) + [EndOf(e)])
  }

  function FlattenAll(ts: seq<Tree>): seq<Event>
    decreases ts
  {
    if ts == [] then [] else Flatten(ts[0]) + FlattenAll(ts[1..])
  }

  /** The frames after the top one has got `k` more children. */
  function AfterChildren(frames: Frames, k: nat): (r: Frames)
    requires frames.On? && !frames.top.DocumentFrame?
    ensures r == if frames.top.SequenceFrame? || k % 2 == 0 then frames else AfterChild(frames)
    decreases k
  {
    if k == 0 then frames else AfterChildren(AfterChild(frames), k - 1)
  }

  /** Grammar to automaton: the events of a tree are admitted wherever a node is awaited. */
  lemma {:induction false} TreeRuns(frames: Frames, t: Tree)
    requires AwaitsNode(frames) && IsTree(t)
    ensures Run(Stream(frames), Flatten(t)) == Some(Stream(AfterChild(frames)))
    decreases t
  {
    match t {
      case Leaf(e) =>
        assert [e][1..] == [];
      case Branch(e, children) =>
        var inner := Opened(AfterChild(frames), e);
        ForestRuns(inner, children);
        RunSnoc(Stream(inner), FlattenAll(children), Stream(inner), EndOf(e));
        assert Flatten(t)[1..] == FlattenAll(children) + [EndOf(e)];
    }
  }

  lemma {:induction false} ForestRuns(frames: Frames, ts: seq<Tree>)
    requires frames.On? && !frames.top.DocumentFrame? && IsForest(ts)
    ensures Run(Stream(frames), FlattenAll(ts)) == Some(Stream(AfterChildren(frames, |ts|)))
    decreases ts
  {
    if ts != [] {
      TreeRuns(frames, ts[0]);
      ForestRuns(AfterChild(frames), ts[1..]);
      RunAppend(Stream(frames), Flatten(ts[0]), FlattenAll(ts[1..]));
    }
  }

  /** The events between a document's start and its end. */
  predicate IsContent(es: seq<Event>) {
    forall i | 0 <= i < |es| :: BeginsNode(es[i]) || es[i].SequenceEnd? || es[i].MappingEnd?
  }

  function Depth(frames: Frames): nat {
    if frames.Ground? then 0 else Depth(frames.below) + 1
  }

  /** Automaton to grammar: content that starts where a node is awaited and leaves nothing of
      it open begins with the events of one tree. */
  lemma {:induction false} TreeOf(frames: Frames, es: seq<Event>, m: Frames) returns (t: Tree, rest: seq<Event>)
    requires AwaitsNode(frames) && es != [] && BeginsNode(es[0]) && IsContent(es)
    requires Run(Stream(frames), es) == Some(Stream(m)) && Depth(m) <= Depth(frames)
    ensures IsTree(t) && es == Flatten(t) + rest && |rest| < |es| && IsContent(rest)
    ensures Run(Stream(AfterChild(frames)), rest) == Some(Stream(m))
    decreases |es|, 0
  {
    var e := es[0];
    assert es == [e] + es[1..];
    if e.Alias? || e.Scalar? {
      t, rest := Leaf(e), es[1..];
    } else {
      var children, more := ForestOf(Opened(AfterChild(frames), e), es[1..], m);
      t, rest := Branch(e, children), more[1..];
      assert more == [EndOf(e)] + rest;
      assert [e] + (FlattenAll(children) + ([EndOf(e)] + rest)) == Flatten(t) + rest;
    }
  }

  lemma {:induction false} ForestOf(frames: Frames, es: seq<Event>, m: Frames)
    returns (ts: seq<Tree>, rest: seq<Event>)
    requires frames.On? && !frames.top.DocumentFrame? && IsContent(es)
    requires Run(Stream(frames), es) == Some(Stream(m)) && Depth(m) < Depth(frames)
    ensures IsForest(ts) && es == FlattenAll(ts) + rest && IsContent(rest)
    ensures rest != [] && rest[0] == if frames.top.SequenceFrame? then SequenceEnd else MappingEnd
    ensures Run(Stream(AfterChildren(frames, |ts|)), rest) == Some(Stream(m))
    decreases |es|, 1
  {
    assert es != [];
    if BeginsNode(es[0]) {
      var t, rest0 := TreeOf(frames, es, m);
      var ts0;
      ts0, rest := ForestOf(AfterChild(frames), rest0, m);
      ts := Grow(t, ts0, rest);
    } else {
      ts, rest := [], es;
    }
  }

  lemma Grow(t: Tree, ts: seq<Tree>, rest: seq<Event>) returns (more: seq<Tree>)
    requires IsTree(t) && IsForest(ts)
    ensures IsForest(more) && |more| == 1 + |ts|
    ensures Flatten(t) + (FlattenAll(ts) + rest) == FlattenAll(more) + rest
  {
    more := [t] + ts;
    assert more[1..] == ts;
  }

  predicate CompletesDocument(content: seq<Event>) {
    && IsContent(content)
    && Run(Stream(On(Ground, DocumentFrame(false))), content) == Some(Stream(On(Ground, DocumentFrame(true))))
  }

  lemma DocumentHasTree(content: seq<Event>) returns (t: Tree)
    requires CompletesDocument(content)
    ensures IsTree(t) && Flatten(t) == content
  {
    var rest;
    t, rest := TreeOf(On(Ground, DocumentFrame(false)), content, On(Ground, DocumentFrame(true)));
    assert rest == [];
  }

  lemma TreeMakesDocument(t: Tree)
    requires IsTree(t)
    ensures CompletesDocument(Flatten(t))
  {
    TreeRuns(On(Ground, DocumentFrame(false)), t);
    TreeIsContent(t);
  }

  /** Content completes a document exactly when it is the events of one tree. */
  lemma DocumentIsOneTree(content: seq<Event>)
    ensures CompletesDocument(content) <==> exists t :: IsTree(t) && Flatten(t) == content
  {
    hide Flatten, IsTree, CompletesDocument;
    if CompletesDocument(content) {
      var t := DocumentHasTree(content);
    }
    if t :| IsTree(t) && Flatten(t) == content {
      TreeMakesDocument(t);
    }
  }

  lemma {:induction false} TreeIsContent(t: Tree)
    requires IsTree(t)
    ensures IsContent(Flatten(t))
    decreases t
  {
    if t.Branch? {
      ForestIsContent(t.children);
    }
  }

  lemma {:induction false} ForestIsContent(ts: seq<Tree>)
    requires IsForest(ts)
    ensures IsContent(FlattenAll(ts))
    decreases ts
  {
    if ts != [] {
      TreeIsContent(ts[0]);
      ForestIsContent(ts[1..]);
    }
  }
}
