/** The loader: a stack machine that rebuilds the graph of nodes from events. */
module Loader {
  import opened Events
  import opened Documents

  datatype AliasData = AliasData(anchor: string, index: nat)

  /** What the loader keeps: the nodes made so far, the anchors seen so far, and the open
      collections, innermost last. */
  datatype Load = Load(nodes: seq<Node>, aliases: seq<AliasData>, ctx: seq<nat>)

  /** `Impossible` stands for the assertions that the code expects never to fail. */
  datatype Outcome = Loaded(load: Load) | DuplicateAnchor | UndefinedAlias | Impossible

  function TagOrDefault(tag: Option<string>, default: string): string {
    if tag == None || tag == Some("!") then default else tag.value
  }

  function NewNode(e: Event): Node
    requires e.Scalar? || e.SequenceStart? || e.MappingStart?
  {
    if e.Scalar? then ScalarNode(TagOrDefault(e.tag, DEFAULT_SCALAR_TAG), e.value, e.scalarStyle)
    else if e.SequenceStart? then SequenceNode(TagOrDefault(e.tag, DEFAULT_SEQUENCE_TAG), [], e.style)
    else MappingNode(TagOrDefault(e.tag, DEFAULT_MAPPING_TAG), [], e.style)
  }

  function IndexOf(aliases: seq<AliasData>, anchor: string): (r: Option<nat>)
    ensures r.None? <==> forall i | 0 <= i < |aliases| :: aliases[i].anchor != anchor
    ensures r.Some? ==> AliasData(anchor, r.value) in aliases
  {
    if aliases == [] then None
    else if aliases[0].anchor == anchor then Some(aliases[0].index)
    else IndexOf(aliases[1..], anchor)
  }

  /** A node with one more child: an item, a value for the last key, or a new key. */
  function WithItem(node: Node, index: nat): Node
    requires !node.ScalarNode?
  {
    match node
    case SequenceNode(_, items, _) => node.(items := items + [index])
    case MappingNode(_, pairs, _) =>
      if pairs != [] && pairs[|pairs| - 1].key != 0 && pairs[|pairs| - 1].value == 0 then
        node.(pairs := pairs[|pairs| - 1 := pairs[|pairs| - 1].(value := index)])
      else node.(pairs := pairs + [Pair(index, 0)])
  }

  predicate HasParent(l: Load) {
    l.ctx == [] || (1 <= l.ctx[|l.ctx| - 1] <= |l.nodes| && !l.nodes[l.ctx[|l.ctx| - 1] - 1].ScalarNode?)
  }

  /** The nodes once `index` is a child of the innermost open collection. */
  function WithChild(l: Load, index: nat): seq<Node>
    requires HasParent(l)
  {
    if l.ctx == [] then l.nodes
    else
      var parent := l.ctx[|l.ctx| - 1];
      l.nodes[parent - 1 := WithItem(l.nodes[parent - 1], index)]
  }

  function Add(l: Load, index: nat): Outcome {
    if HasParent(l) then Loaded(l.(nodes := WithChild(l, index))) else Impossible
  }

  function Register(aliases: seq<AliasData>, index: nat, anchor: Option<string>): Option<seq<AliasData>> {
    if anchor == None then Some(aliases)
    else if IndexOf(aliases, anchor.value).Some? then None
    else Some(aliases + [AliasData(anchor.value, index)])
  }

  /** One event of a document's content. */
  function Step(l: Load, e: Event): Outcome {
    match e
    case Alias(anchor) =>
      if anchor == None then Impossible
      else if IndexOf(l.aliases, anchor.value) == None then UndefinedAlias
      else Add(l, IndexOf(l.aliases, anchor.value).value)
    case Scalar(_, _, _, _, _, _) => Begin(l, e)
    case SequenceStart(_, _, _, _) => Open(Begin(l, e))
    case MappingStart(_, _, _, _) => Open(Begin(l, e))
    case SequenceEnd =>
      if l.ctx != [] && HasParent(l) && l.nodes[l.ctx[|l.ctx| - 1] - 1].SequenceNode?
      then Loaded(l.(ctx := l.ctx[..|l.ctx| - 1])) else Impossible
    case MappingEnd =>
      if l.ctx != [] && HasParent(l) && l.nodes[l.ctx[|l.ctx| - 1] - 1].MappingNode?
      then Loaded(l.(ctx := l.ctx[..|l.ctx| - 1])) else Impossible
    case _ => Impossible
  }

  /** A new node, its anchor, and its place in its parent. */
  function Begin(l: Load, e: Event): Outcome
    requires e.Scalar? || e.SequenceStart? || e.MappingStart?
  {
    var nodes := l.nodes + [NewNode(e)];
    var aliases := Register(l.aliases, |nodes|, e.anchor);
    if aliases == None then DuplicateAnchor
    else Add(Load(nodes, aliases.value, l.ctx), |nodes|)
  }

  /** The new node becomes the innermost open collection. */
  function Open(o: Outcome): Outcome {
    if o.Loaded? then Loaded(o.load.(ctx := o.load.ctx + [|o.load.nodes|])) else o
  }

  function Steps(l: Load, es: seq<Event>): Outcome
    decreases |es|
  {
    if es == [] then Loaded(l)
    else
      var o := Step(l, es[0]);
      if o.Loaded? then Steps(o.load, es[1..]) else o
  }

  lemma {:induction false} StepsAppend(l: Load, es: seq<Event>, fs: seq<Event>)
    ensures Steps(l, es + fs) == (if Steps(l, es).Loaded? then Steps(Steps(l, es).load, fs) else Steps(l, es))
    decreases |es|
  {
    if es == [] {
      assert es + fs == fs;
    } else {
      hide Step;
      assert (es + fs)[1..] == es[1..] + fs;
      if Step(l, es[0]).Loaded? {
        StepsAppend(Step(l, es[0]).load, es[1..], fs);
      }
    }
  }

  const EMPTY := Load([], [], [])

  // ---- The loader itself ----

  class Loader {
    var nodes: seq<Node>
    var aliases: seq<AliasData>
    var ctx: seq<nat>

    constructor ()
      ensures Now() == EMPTY
    {
      nodes, aliases, ctx := [], [], [];
    }

    function Now(): Load
      reads this
    {
      Load(nodes, aliases, ctx)
    }

    /** Searches the anchors; None if there is no such anchor. */
    method Find(anchor: string) returns (r: Option<nat>)
      ensures r == IndexOf(aliases, anchor)
    {
      for i := 0 to |aliases|
        invariant IndexOf(aliases, anchor) == IndexOf(aliases[i..], anchor)
      {
        assert aliases[i..][1..] == aliases[i + 1..];
        if aliases[i].anchor == anchor {
          return Some(aliases[i].index);
        }
      }
      assert aliases[|aliases|..] == [];
      r := None;
    }

    method RegisterAnchor(index: nat, anchor: Option<string>) returns (ok: bool)
      modifies this`aliases
      ensures ok == Register(old(aliases), index, anchor).Some?
      ensures aliases == if ok then Register(old(aliases), index, anchor).value else old(aliases)
    {
      if anchor == None {
        return true;
      }
      var found := Find(anchor.value);
      if found.Some? {
        return false;
      }
      aliases := aliases + [AliasData(anchor.value, index)];
      ok := true;
    }

    method AddNode(index: nat) returns (o: Outcome)
      modifies this`nodes
      ensures o == Add(old(Now()), index)
      ensures o.Loaded? ==> Now() == o.load
    {
      if ctx == [] {
        return Loaded(Now());
      }
      var parent := ctx[|ctx| - 1];
      if !(1 <= parent <= |nodes|) || nodes[parent - 1].ScalarNode? {
        return Impossible;
      }
      match nodes[parent - 1] {
        case SequenceNode(tag, items, style) =>
          nodes := nodes[parent - 1 := SequenceNode(tag, items + [index], style)];
        case MappingNode(tag, pairs, style) =>
          if pairs != [] && pairs[|pairs| - 1].key != 0 && pairs[|pairs| - 1].value == 0 {
            var filled := pairs[|pairs| - 1].(value := index);
            nodes := nodes[parent - 1 := MappingNode(tag, pairs[|pairs| - 1 := filled], style)];
          } else {
            nodes := nodes[parent - 1 := MappingNode(tag, pairs + [Pair(index, 0)], style)];
          }
      }
      o := Loaded(Now());
    }

    method LoadAlias(anchor: Option<string>) returns (o: Outcome)
      modifies this`nodes
      ensures o == Step(old(Now()), Alias(anchor))
      ensures o.Loaded? ==> Now() == o.load
    {
      if anchor == None {
        return Impossible;
      }
      var found := Find(anchor.value);
      if found == None {
        return UndefinedAlias;
      }
      o := AddNode(found.value);
    }

    method LoadBegin(e: Event) returns (o: Outcome)
      requires e.Scalar? || e.SequenceStart? || e.MappingStart?
      modifies this`nodes, this`aliases
      ensures o == Begin(old(Now()), e)
      ensures o.Loaded? ==> Now() == o.load
    {
      nodes := nodes + [NewNode(e)];
      var ok := RegisterAnchor(|nodes|, e.anchor);
      if !ok {
        return DuplicateAnchor;
      }
      o := AddNode(|nodes|);
    }

    method LoadCollection(e: Event) returns (o: Outcome)
      requires e.SequenceStart? || e.MappingStart?
      modifies this
      ensures o == Step(old(Now()), e)
      ensures o.Loaded? ==> Now() == o.load
    {
      o := LoadBegin(e);
      if o.Loaded? {
        ctx := ctx + [|nodes|];
        o := Loaded(Now());
      }
    }

    method LoadEnd(e: Event) returns (o: Outcome)
      requires e.SequenceEnd? || e.MappingEnd?
      modifies this`ctx
      ensures o == Step(old(Now()), e)
      ensures o.Loaded? ==> Now() == o.load
    {
      if ctx == [] || !(1 <= ctx[|ctx| - 1] <= |nodes|) {
        return Impossible;
      }
      var node := nodes[ctx[|ctx| - 1] - 1];
      if (e.SequenceEnd? && !node.SequenceNode?) || (e.MappingEnd? && !node.MappingNode?) {
        return Impossible;
      }
      ctx := ctx[..|ctx| - 1];
      o := Loaded(Now());
    }

    method LoadEvent(e: Event) returns (o: Outcome)
      modifies this
      ensures o == Step(old(Now()), e)
      ensures o.Loaded? ==> Now() == o.load
    {
      match e {
        case Alias(anchor) => o := LoadAlias(anchor);
        case Scalar(_, _, _, _, _, _) => o := LoadBegin(e);
        case SequenceStart(_, _, _, _) => o := LoadCollection(e);
        case MappingStart(_, _, _, _) => o := LoadCollection(e);
        case SequenceEnd => o := LoadEnd(e);
        case MappingEnd => o := LoadEnd(e);
        case _ => o := Impossible;
      }
    }
  }

  /** Loads the content of one document, event by event up to DOCUMENT-END. */
  method LoadNodes(content: seq<Event>) returns (o: Outcome)
    ensures o == Steps(EMPTY, content)
  {
    hide Step;
    var loader := new Loader();
    o := Loaded(loader.Now());
    for i := 0 to |content|
      invariant o == Loaded(loader.Now())
      invariant Steps(EMPTY, content) == Steps(loader.Now(), content[i..])
    {
      assert content[i..][1..] == content[i + 1..];
      o := loader.LoadEvent(content[i]);
      if !o.Loaded? {
        return;
      }
    }
  }
}
