/** Exactly which streams of events the parser can make: every one of them is the reading of some
    tokens, and every reading is one of them. */
module Printing {
  import opened Events
  import opened Nesting
  import opened Parser
  import opened Grammar

  // ---- The events that the parser can make ----

  /** A scalar with a value, or one whose properties are all there is. */
  predicate IsScalar(e: Event) {
    && e.Scalar?
    && (HasContent(e) || IsBare(e))
  }

  predicate IsBare(e: Event)
    requires e.Scalar?
  {
    (e.anchor.Some? || e.tag.Some?) && e == Scalar(e.anchor, e.tag, "", IsImplied(e.tag), false, Plain)
  }

  predicate HasContent(e: Event)
    requires e.Scalar?
  {
    e == ScalarEvent(e.anchor, e.tag, e.value, e.scalarStyle)
  }

  /** No block collection is inside a flow collection, and the flags are those that the tag implies. */
  predicate IsParsed(t: Tree, flow: bool)
    decreases t
  {
    match t
    case Leaf(e) => IsScalar(e) || (e.Alias? && e.anchor.Some?)
    case Branch(e, children) =>
      && (e.SequenceStart? || (e.MappingStart? && |children| % 2 == 0))
      && e.implicit == IsImplied(e.tag) && (e.style.Flow? || (e.style.Block? && !flow))
      && forall i | 0 <= i < |children| :: IsParsed(children[i], e.style.Flow?)
  }

  predicate AreParsed(ts: seq<Tree>, flow: bool) {
    forall i | 0 <= i < |ts| :: IsParsed(ts[i], flow)
  }

  datatype Document = Document(start: Event, root: Tree, end: Event)

  /** Only the first document may do without its start. */
  predicate IsParsedDocument(d: Document, first: bool) {
    && d.end.DocumentEnd? && IsParsed(d.root, false)
    && d.start.DocumentStart?
    && if d.start.implicit then first && d.start == DocumentStart(None, [], true)
       else (d.start.version.Some? ==> IsKnown(d.start.version.value)) && DistinctHandles(d.start.tagDirectives)
  }

  predicate AreParsedDocuments(docs: seq<Document>, first: bool) {
    && (docs != [] ==> IsParsedDocument(docs[0], first))
    && forall i | 1 <= i < |docs| :: IsParsedDocument(docs[i], false)
  }

  function EventsOf(docs: seq<Document>): seq<Event> {
    if docs == [] then [StreamEnd]
    else [docs[0].start] + (Flatten(docs[0].root) + [docs[0].end] + EventsOf(docs[1..]))
  }

  // ---- Tokens for them ----

  function PropertyTokens(anchor: Option<string>, tag: Option<string>): seq<Token> {
    (if anchor.Some? then [AnchorToken(anchor.value)] else []) + (if tag.Some? then [TagToken("", tag.value)] else [])
  }

  function TreeTokens(t: Tree): seq<Token>
    requires IsParsed(t, false)
    decreases t, 2
  {
    match t
    case Leaf(e) =>
      if e.Alias? then [AliasToken(e.anchor.value)]
      else PropertyTokens(e.anchor, e.tag) + (if HasContent(e) then [ScalarToken(e.value, e.scalarStyle)] else [])
    case Branch(e, children) =>
      PropertyTokens(e.anchor, e.tag) + CollectionTokens(e, children)
  }

  function StartToken(e: Event): Token
    requires e.SequenceStart? || e.MappingStart?
  {
    if e.SequenceStart? then (if e.style.Flow? then FlowSequenceStartToken else BlockSequenceStartToken)
    else (if e.style.Flow? then FlowMappingStartToken else BlockMappingStartToken)
  }

  lemma Looser(ts: seq<Tree>, flow: bool)
    requires AreParsed(ts, flow)
    ensures AreParsed(ts, false)
  {
    forall i | 0 <= i < |ts| ensures IsParsed(ts[i], false) {
      assert IsParsed(ts[i], flow);
    }
  }

  function CollectionTokens(e: Event, ts: seq<Tree>): seq<Token>
    requires (e.SequenceStart? || (e.MappingStart? && |ts| % 2 == 0)) && AreParsed(ts, e.style.Flow?)
    decreases ts, 1
  {
    Looser(ts, e.style.Flow?);
    [StartToken(e)] +
    (if e.SequenceStart? then (if e.style.Flow? then FlowEntryTokens(ts, true) else EntryTokens(ts))
     else if e.style.Flow? then FlowPairTokens(ts, true) else PairTokens(ts))
  }

  function EntryTokens(ts: seq<Tree>): seq<Token>
    requires AreParsed(ts, false)
    decreases ts, 0
  {
    if ts == [] then [BlockEndToken] else [BlockEntryToken] + (TreeTokens(ts[0]) + EntryTokens(ts[1..]))
  }

  function PairTokens(ts: seq<Tree>): seq<Token>
    requires AreParsed(ts, false) && |ts| % 2 == 0
    decreases ts, 0
  {
    if ts == [] then [BlockEndToken]
    else [KeyToken] + (TreeTokens(ts[0]) + ([ValueToken] + (TreeTokens(ts[1]) + PairTokens(ts[2..]))))
  }

  function FlowEntryTokens(ts: seq<Tree>, first: bool): seq<Token>
    requires AreParsed(ts, false)
    decreases ts, 0
  {
    if ts == [] then [FlowSequenceEndToken]
    else (if first then [] else [FlowEntryToken]) + (TreeTokens(ts[0]) + FlowEntryTokens(ts[1..], false))
  }

  function FlowPairTokens(ts: seq<Tree>, first: bool): seq<Token>
    requires AreParsed(ts, false) && |ts| % 2 == 0
    decreases ts, 0
  {
    if ts == [] then [FlowMappingEndToken]
    else
      (if first then [] else [FlowEntryToken]) +
      ([KeyToken] + (TreeTokens(ts[0]) + ([ValueToken] + (TreeTokens(ts[1]) + FlowPairTokens(ts[2..], false)))))
  }

  // ---- The tokens are read back ----

  predicate Has(tokens: seq<Token>, h: nat, s: seq<Token>) {
    h + |s| <= |tokens| && forall i | 0 <= i < |s| :: tokens[h + i] == s[i]
  }

  lemma HasParts(tokens: seq<Token>, h: nat, a: seq<Token>, b: seq<Token>)
    requires Has(tokens, h, a + b)
    ensures Has(tokens, h, a) && Has(tokens, h + |a|, b)
  {
    forall i | 0 <= i < |a| ensures tokens[h + i] == a[i] {
      assert (a + b)[i] == a[i];
    }
    forall i | 0 <= i < |b| ensures tokens[h + |a| + i] == b[i] {
      assert (a + b)[|a| + i] == b[i] && tokens[h + (|a| + i)] == b[i];
    }
  }

  /** What a node can begin with. */
  predicate StartsNode(token: Token) {
    token.AliasToken? || token.AnchorToken? || token.TagToken? || token.ScalarToken? || CollectionState(token, true, false).Some?
  }

  /** What cannot be taken for a part of the node before it. */
  predicate MayFollow(token: Token, indentless: bool) {
    !token.ScalarToken? && !token.AnchorToken? && !token.TagToken? && CollectionState(token, true, indentless).None?
  }

  lemma MarksFollow()
    ensures forall b :: MayFollow(KeyToken, b) && MayFollow(ValueToken, b) && MayFollow(BlockEndToken, b)
    ensures forall b :: MayFollow(FlowEntryToken, b) && MayFollow(FlowSequenceEndToken, b) && MayFollow(FlowMappingEndToken, b)
    ensures MayFollow(BlockEntryToken, false)
  {
  }

  lemma TreeStarts(t: Tree)
    requires IsParsed(t, false)
    ensures TreeTokens(t) != [] && StartsNode(TreeTokens(t)[0])
  {
  }

  lemma PropertiesRead(tokens: seq<Token>, h: nat, anchor: Option<string>, tag: Option<string>, ds: seq<TagDirective>)
    requires
      var next := h + |PropertyTokens(anchor, tag)|;
      Has(tokens, h, PropertyTokens(anchor, tag)) && next < |tokens| && !tokens[next].AnchorToken? && !tokens[next].TagToken?
    ensures
      var p := PropertiesAt(tokens, h);
      && p.anchor == anchor && p.next == h + |PropertyTokens(anchor, tag)| && (p.tagAt.Some? <==> tag.Some?)
      && TagOf(tokens, h, ds) == tag
    ensures anchor.Some? || tag.Some? ==> !tokens[h].AliasToken?
  {
    var s := PropertyTokens(anchor, tag);
    assert s != [] ==> tokens[h + 0] == s[0];
    assert |s| > 1 ==> tokens[h + 1] == s[1];
  }

  lemma {:induction false} NodePrinted(tokens: seq<Token>, h: nat, t: Tree, block: bool, indentless: bool, ds: seq<TagDirective>)
    requires IsParsed(t, false) && IsParsed(t, !block) && Has(tokens, h, TreeTokens(t))
    requires h + |TreeTokens(t)| < |tokens| && MayFollow(tokens[h + |TreeTokens(t)|], indentless)
    ensures Node(tokens, h, block, indentless, ds) == Read(Flatten(t), h + |TreeTokens(t)|)
    decreases t, 2
  {
    hide *;
    match t {
      case Leaf(e) => LeafPrinted(tokens, h, e, block, indentless, ds);
      case Branch(e, children) => BranchPrinted(tokens, h, e, children, block, indentless, ds);
    }
  }

  lemma LeafPrinted(tokens: seq<Token>, h: nat, e: Event, block: bool, indentless: bool, ds: seq<TagDirective>)
    requires IsParsed(Leaf(e), false) && Has(tokens, h, TreeTokens(Leaf(e)))
    requires h + |TreeTokens(Leaf(e))| < |tokens| && MayFollow(tokens[h + |TreeTokens(Leaf(e))|], indentless)
    ensures Node(tokens, h, block, indentless, ds) == Read(Flatten(Leaf(e)), h + |TreeTokens(Leaf(e))|)
  {
    hide PropertiesAt, TagOf, PropertyTokens, Children, MayFollow;
    MayFollowIs(tokens[h + |TreeTokens(Leaf(e))|], indentless);
    if e.Alias? {
      assert tokens[h + 0] == TreeTokens(Leaf(e))[0];
    } else {
      var s := PropertyTokens(e.anchor, e.tag);
      var content := if HasContent(e) then [ScalarToken(e.value, e.scalarStyle)] else [];
      HasParts(tokens, h, s, content);
      assert HasContent(e) ==> tokens[h + |s| + 0] == content[0];
      PropertiesRead(tokens, h, e.anchor, e.tag, ds);
      NoProperties(e.anchor, e.tag);
    }
  }

  lemma {:induction false} BranchPrinted(
    tokens: seq<Token>, h: nat, e: Event, children: seq<Tree>, block: bool, indentless: bool, ds: seq<TagDirective>)
    requires var t := Branch(e, children); IsParsed(t, false) && IsParsed(t, !block) && Has(tokens, h, TreeTokens(t))
    requires h + |TreeTokens(Branch(e, children))| < |tokens|
    ensures
      var t := Branch(e, children);
      Node(tokens, h, block, indentless, ds) == Read(Flatten(t), h + |TreeTokens(t)|)
    decreases children, 3
  {
    hide PropertiesAt, TagOf, PropertyTokens, Children, CollectionTokens;
    var s, c := PropertyTokens(e.anchor, e.tag), CollectionTokens(e, children);
    HasParts(tokens, h, s, c);
    CollectionStarts(e, children);
    assert tokens[h + |s| + 0] == StartToken(e);
    PropertiesRead(tokens, h, e.anchor, e.tag, ds);
    NoProperties(e.anchor, e.tag);
    CollectionPrinted(tokens, h + |s|, e, children, ds);
  }

  lemma CollectionStarts(e: Event, ts: seq<Tree>)
    requires e.SequenceStart? || (e.MappingStart? && |ts| % 2 == 0)
    requires AreParsed(ts, e.style.Flow?)
    ensures CollectionTokens(e, ts) != [] && CollectionTokens(e, ts)[0] == StartToken(e)
  {
  }

  lemma MayFollowIs(token: Token, indentless: bool)
    requires MayFollow(token, indentless)
    ensures !token.ScalarToken? && !token.AnchorToken? && !token.TagToken?
    ensures CollectionState(token, true, indentless).None? && CollectionState(token, false, indentless).None?
  {
  }

  lemma NoProperties(anchor: Option<string>, tag: Option<string>)
    ensures PropertyTokens(anchor, tag) == [] <==> anchor.None? && tag.None?
  {
  }

  lemma {:induction false} CollectionPrinted(tokens: seq<Token>, h: nat, e: Event, ts: seq<Tree>, ds: seq<TagDirective>)
    requires e.SequenceStart? || (e.MappingStart? && |ts| % 2 == 0)
    requires AreParsed(ts, e.style.Flow?) && Has(tokens, h, CollectionTokens(e, ts)) && h + |CollectionTokens(e, ts)| < |tokens|
    ensures
      var k := CollectionState(StartToken(e), true, false);
      && k.Some?
      && Children(tokens, h, k.value, ds) == Read(FlattenAll(ts) + [EndOf(e)], h + |CollectionTokens(e, ts)|)
    decreases ts, 2
  {
    hide EntryTokens, PairTokens, FlowEntryTokens, FlowPairTokens, IsParsed, FlattenAll, BlockEntries, BlockPairs, FlowEntries, FlowPairs, Has;
    Looser(ts, e.style.Flow?);
    var rest :=
      if e.SequenceStart? then (if e.style.Flow? then FlowEntryTokens(ts, true) else EntryTokens(ts))
      else if e.style.Flow? then FlowPairTokens(ts, true) else PairTokens(ts);
    HasParts(tokens, h, [StartToken(e)], rest);
    if e.SequenceStart? {
      if e.style.Flow? {
        FlowEntriesPrinted(tokens, h + 1, ts, true, ds);
      } else {
        EntriesPrinted(tokens, h + 1, ts, ds);
      }
    } else if e.style.Flow? {
      FlowPairsPrinted(tokens, h + 1, ts, true, ds);
    } else {
      PairsPrinted(tokens, h + 1, ts, ds);
    }
  }

  lemma {:induction false} EntriesPrinted(tokens: seq<Token>, h: nat, ts: seq<Tree>, ds: seq<TagDirective>)
    requires AreParsed(ts, false) && Has(tokens, h, EntryTokens(ts)) && h + |EntryTokens(ts)| < |tokens|
    ensures BlockEntries(tokens, h, ds) == Read(FlattenAll(ts) + [SequenceEnd], h + |EntryTokens(ts)|)
    decreases ts, 0
  {
    hide TreeTokens, IsParsed, Node, Flatten, MayFollow;
    MarksFollow();
    assert tokens[h + 0] == EntryTokens(ts)[0];
    if ts != [] {
      var first, rest := TreeTokens(ts[0]), EntryTokens(ts[1..]);
      HasParts(tokens, h, [BlockEntryToken], first + rest);
      HasParts(tokens, h + 1, first, rest);
      assert tokens[h + 1 + |first| + 0] == rest[0];
      TreeStarts(ts[0]);
      assert tokens[h + 1 + 0] == first[0];
      NodePrinted(tokens, h + 1, ts[0], true, false, ds);
      EntriesPrinted(tokens, h + 1 + |first|, ts[1..], ds);
      Regrouped(Flatten(ts[0]), FlattenAll(ts[1..]), SequenceEnd);
    }
  }

  lemma Regrouped(a: seq<Event>, b: seq<Event>, e: Event)
    ensures a + (b + [e]) == a + b + [e]
  {
  }

  /** A key and a value that are both there. */
  lemma PairIs(tokens: seq<Token>, h: nat, key: seq<Event>, atValue: nat, value: seq<Event>, next: nat, ds: seq<TagDirective>)
    requires h + 1 < |tokens| && tokens[h].KeyToken? && StartsNode(tokens[h + 1])
    requires Node(tokens, h + 1, true, true, ds) == Read(key, atValue)
    requires atValue + 1 < |tokens| && tokens[atValue].ValueToken? && StartsNode(tokens[atValue + 1])
    requires Node(tokens, atValue + 1, true, true, ds) == Read(value, next) && next <= |tokens|
    ensures BlockPairs(tokens, h, ds) == Then(key, Then(value, BlockPairs(tokens, next, ds)))
  {
    hide Node;
    assert BlockValue(tokens, atValue, ds) == Then(value, BlockPairs(tokens, next, ds));
  }

  lemma FlowPairIs(tokens: seq<Token>, h: nat, first: bool, key: seq<Event>, atValue: nat, value: seq<Event>, next: nat,
                   ds: seq<TagDirective>)
    requires
      var at := if first then h else h + 1;
      && at + 1 < |tokens| && (first || tokens[h].FlowEntryToken?) && tokens[at].KeyToken? && StartsNode(tokens[at + 1])
      && Node(tokens, at + 1, false, false, ds) == Read(key, atValue)
    requires atValue + 1 < |tokens| && tokens[atValue].ValueToken? && StartsNode(tokens[atValue + 1])
    requires Node(tokens, atValue + 1, false, false, ds) == Read(value, next) && next <= |tokens|
    ensures FlowPairs(tokens, h, first, ds) == Then(key, Then(value, FlowPairs(tokens, next, false, ds)))
  {
    hide Node;
    var rest := FlowPairs(tokens, next, false, ds);
    assert FlowValue(tokens, atValue, false, ds) == Then(value, rest);
    assert FlowPair(tokens, if first then h else h + 1, ds) == Then(key, Then(value, rest));
  }

  lemma NoPairs(tokens: seq<Token>, h: nat, ds: seq<TagDirective>)
    requires Has(tokens, h, PairTokens([]))
    ensures BlockPairs(tokens, h, ds) == Read([MappingEnd], h + 1) && |PairTokens([])| == 1
  {
    assert tokens[h + 0] == PairTokens([])[0];
  }

  lemma PairTokensAre(ts: seq<Tree>)
    requires AreParsed(ts, false) && |ts| % 2 == 0
    ensures PairTokens(ts) != [] && (PairTokens(ts)[0].KeyToken? || PairTokens(ts)[0].BlockEndToken?)
    ensures ts != [] ==>
      PairTokens(ts) == [KeyToken] + (TreeTokens(ts[0]) + ([ValueToken] + (TreeTokens(ts[1]) + PairTokens(ts[2..]))))
  {
    hide TreeTokens, IsParsed;
  }

  lemma {:induction false} PairsPrinted(tokens: seq<Token>, h: nat, ts: seq<Tree>, ds: seq<TagDirective>)
    requires AreParsed(ts, false) && |ts| % 2 == 0 && Has(tokens, h, PairTokens(ts)) && h + |PairTokens(ts)| < |tokens|
    ensures BlockPairs(tokens, h, ds) == Read(FlattenAll(ts) + [MappingEnd], h + |PairTokens(ts)|)
    decreases ts, 1
  {
    hide TreeTokens, IsParsed, Flatten, BlockPairs, PairTokens, Has;
    if ts == [] {
      NoPairs(tokens, h, ds);
    } else {
      PairTokensAre(ts);
      PairTokensAre(ts[2..]);
      PairPrinted(tokens, h, ts, PairTokens(ts[2..]), ds);
      PairsPrinted(tokens, h + 2 + |TreeTokens(ts[0])| + |TreeTokens(ts[1])|, ts[2..], ds);
      PairFlattens(ts, MappingEnd);
    }
  }

  lemma {:induction false} PairPrinted(tokens: seq<Token>, h: nat, ts: seq<Tree>, rest: seq<Token>, ds: seq<TagDirective>)
    requires |ts| >= 2 && AreParsed(ts, false) && rest != [] && (rest[0].KeyToken? || rest[0].BlockEndToken?)
    requires Has(tokens, h, [KeyToken] + (TreeTokens(ts[0]) + ([ValueToken] + (TreeTokens(ts[1]) + rest))))
    ensures
      var next := h + 2 + |TreeTokens(ts[0])| + |TreeTokens(ts[1])|;
      && Has(tokens, next, rest)
      && BlockPairs(tokens, h, ds) == Then(Flatten(ts[0]), Then(Flatten(ts[1]), BlockPairs(tokens, next, ds)))
    decreases ts, 0
  {
    hide TreeTokens, IsParsed, Node, Flatten, MayFollow, StartsNode, BlockPairs;
    MarksFollow();
    var key, value := TreeTokens(ts[0]), TreeTokens(ts[1]);
    TreeStarts(ts[0]);
    TreeStarts(ts[1]);
    PairHas(tokens, h, key, value, rest);
    assert tokens[h + 2 + |key| + |value| + 0] == rest[0];
    NodePrinted(tokens, h + 1, ts[0], true, true, ds);
    NodePrinted(tokens, h + 2 + |key|, ts[1], true, true, ds);
    PairIs(tokens, h, Flatten(ts[0]), h + 1 + |key|, Flatten(ts[1]), h + 2 + |key| + |value|, ds);
  }

  lemma PairHas(tokens: seq<Token>, h: nat, key: seq<Token>, value: seq<Token>, rest: seq<Token>)
    requires Has(tokens, h, [KeyToken] + (key + ([ValueToken] + (value + rest)))) && key != [] && value != []
    ensures tokens[h] == KeyToken && Has(tokens, h + 1, key) && tokens[h + 1] == key[0]
    ensures tokens[h + 1 + |key|] == ValueToken
    ensures Has(tokens, h + 2 + |key|, value) && tokens[h + 2 + |key|] == value[0]
    ensures Has(tokens, h + 2 + |key| + |value|, rest)
  {
    HasParts(tokens, h, [KeyToken], key + ([ValueToken] + (value + rest)));
    HasParts(tokens, h + 1, key, [ValueToken] + (value + rest));
    HasParts(tokens, h + 1 + |key|, [ValueToken], value + rest);
    HasParts(tokens, h + 2 + |key|, value, rest);
    assert tokens[h + 0] == [KeyToken][0] && tokens[h + 1 + 0] == key[0];
    assert tokens[h + 1 + |key| + 0] == [ValueToken][0] && tokens[h + 2 + |key| + 0] == value[0];
  }

  lemma PairRegroups(a: seq<Event>, b: seq<Event>, c: seq<Event>, e: Event)
    ensures a + (b + (c + [e])) == (a + (b + c)) + [e]
  {
  }

  lemma PairFlattens(ts: seq<Tree>, e: Event)
    requires |ts| >= 2
    ensures Flatten(ts[0]) + (Flatten(ts[1]) + (FlattenAll(ts[2..]) + [e])) == FlattenAll(ts) + [e]
  {
    hide Flatten;
    assert ts[1..][1..] == ts[2..] && ts[1..][0] == ts[1];
    PairRegroups(Flatten(ts[0]), Flatten(ts[1]), FlattenAll(ts[2..]), e);
  }

  lemma FlowEntryTokensAre(ts: seq<Tree>, first: bool)
    requires AreParsed(ts, false)
    ensures FlowEntryTokens(ts, false) != []
    ensures FlowEntryTokens(ts, false)[0].FlowEntryToken? || FlowEntryTokens(ts, false)[0].FlowSequenceEndToken?
    ensures ts == [] ==> FlowEntryTokens(ts, first) == [FlowSequenceEndToken]
    ensures ts != [] ==>
      FlowEntryTokens(ts, first) == (if first then [] else [FlowEntryToken]) + (TreeTokens(ts[0]) + FlowEntryTokens(ts[1..], false))
  {
    hide TreeTokens, IsParsed;
  }

  /** An entry that is there. */
  lemma FlowEntryIs(tokens: seq<Token>, h: nat, first: bool, es: seq<Event>, next: nat, ds: seq<TagDirective>)
    requires
      var at := if first then h else h + 1;
      && at < |tokens| && (first || tokens[h].FlowEntryToken?) && StartsNode(tokens[at])
      && Node(tokens, at, false, false, ds) == Read(es, next) && next <= |tokens|
    ensures FlowEntries(tokens, h, first, ds) == Then(es, FlowEntries(tokens, next, false, ds))
  {
    hide Node;
    var rest := FlowEntries(tokens, next, false, ds);
    assert FlowEntry(tokens, if first then h else h + 1, ds) == Then(es, rest);
  }

  lemma NoFlowEntries(tokens: seq<Token>, h: nat, first: bool, ds: seq<TagDirective>)
    requires Has(tokens, h, [FlowSequenceEndToken])
    ensures FlowEntries(tokens, h, first, ds) == Read([SequenceEnd], h + 1)
  {
    assert tokens[h + 0] == [FlowSequenceEndToken][0];
  }

  lemma {:induction false} FlowEntriesPrinted(tokens: seq<Token>, h: nat, ts: seq<Tree>, first: bool, ds: seq<TagDirective>)
    requires AreParsed(ts, true) && AreParsed(ts, false)
    requires Has(tokens, h, FlowEntryTokens(ts, first)) && h + |FlowEntryTokens(ts, first)| < |tokens|
    ensures FlowEntries(tokens, h, first, ds) == Read(FlattenAll(ts) + [SequenceEnd], h + |FlowEntryTokens(ts, first)|)
    decreases ts, 0
  {
    hide TreeTokens, IsParsed, Node, Flatten, MayFollow, StartsNode, FlowEntries, FlowEntryTokens;
    MarksFollow();
    FlowEntryTokensAre(ts, first);
    if ts == [] {
      NoFlowEntries(tokens, h, first, ds);
    } else {
      FlowEntryTokensAre(ts[1..], false);
      var before := if first then [] else [FlowEntryToken];
      var entry, rest := TreeTokens(ts[0]), FlowEntryTokens(ts[1..], false);
      HasParts(tokens, h, before, entry + rest);
      assert !first ==> tokens[h + 0] == before[0];
      var at := h + |before|;
      HasParts(tokens, at, entry, rest);
      assert tokens[at + |entry| + 0] == rest[0];
      TreeStarts(ts[0]);
      assert tokens[at + 0] == entry[0];
      NodePrinted(tokens, at, ts[0], false, false, ds);
      FlowEntryIs(tokens, h, first, Flatten(ts[0]), at + |entry|, ds);
      FlowEntriesPrinted(tokens, at + |entry|, ts[1..], false, ds);
      Regrouped(Flatten(ts[0]), FlattenAll(ts[1..]), SequenceEnd);
    }
  }

  lemma NoFlowPairs(tokens: seq<Token>, h: nat, first: bool, ds: seq<TagDirective>)
    requires Has(tokens, h, FlowPairTokens([], first))
    ensures FlowPairs(tokens, h, first, ds) == Read([MappingEnd], h + 1) && |FlowPairTokens([], first)| == 1
  {
    assert tokens[h + 0] == FlowPairTokens([], first)[0];
  }

  lemma FlowPairTokensAre(ts: seq<Tree>, first: bool)
    requires AreParsed(ts, false) && |ts| % 2 == 0
    ensures FlowPairTokens(ts, false) != []
    ensures FlowPairTokens(ts, false)[0].FlowEntryToken? || FlowPairTokens(ts, false)[0].FlowMappingEndToken?
    ensures ts != [] ==>
      FlowPairTokens(ts, first) ==
      (if first then [] else [FlowEntryToken]) +
      ([KeyToken] + (TreeTokens(ts[0]) + ([ValueToken] + (TreeTokens(ts[1]) + FlowPairTokens(ts[2..], false)))))
  {
    hide TreeTokens, IsParsed;
  }

  lemma {:induction false} FlowPairsPrinted(tokens: seq<Token>, h: nat, ts: seq<Tree>, first: bool, ds: seq<TagDirective>)
    requires AreParsed(ts, true) && AreParsed(ts, false) && |ts| % 2 == 0
    requires Has(tokens, h, FlowPairTokens(ts, first)) && h + |FlowPairTokens(ts, first)| < |tokens|
    ensures FlowPairs(tokens, h, first, ds) == Read(FlattenAll(ts) + [MappingEnd], h + |FlowPairTokens(ts, first)|)
    decreases ts, 1
  {
    hide TreeTokens, IsParsed, Node, Flatten, MayFollow, StartsNode, FlowPairs, FlowPairTokens, Has;
    if ts == [] {
      NoFlowPairs(tokens, h, first, ds);
    } else {
      FlowPairTokensAre(ts, first);
      FlowPairTokensAre(ts[2..], false);
      FlowPairPrinted(tokens, h, ts, FlowPairTokens(ts[2..], false), first, ds);
      var next := h + (if first then 0 else 1) + 2 + |TreeTokens(ts[0])| + |TreeTokens(ts[1])|;
      FlowPairsPrinted(tokens, next, ts[2..], false, ds);
      PairFlattens(ts, MappingEnd);
    }
  }

  lemma {:induction false} FlowPairPrinted(
    tokens: seq<Token>, h: nat, ts: seq<Tree>, rest: seq<Token>, first: bool, ds: seq<TagDirective>)
    requires |ts| >= 2 && AreParsed(ts, true) && AreParsed(ts, false)
    requires rest != [] && (rest[0].FlowEntryToken? || rest[0].FlowMappingEndToken?)
    requires
      var before := if first then [] else [FlowEntryToken];
      Has(tokens, h, before + ([KeyToken] + (TreeTokens(ts[0]) + ([ValueToken] + (TreeTokens(ts[1]) + rest)))))
    ensures
      var next := h + (if first then 0 else 1) + 2 + |TreeTokens(ts[0])| + |TreeTokens(ts[1])|;
      && Has(tokens, next, rest)
      && FlowPairs(tokens, h, first, ds) == Then(Flatten(ts[0]), Then(Flatten(ts[1]), FlowPairs(tokens, next, false, ds)))
    decreases ts, 0
  {
    hide TreeTokens, IsParsed, Node, Flatten, MayFollow, StartsNode, FlowPairs;
    MarksFollow();
    var before := if first then [] else [FlowEntryToken];
    var key, value := TreeTokens(ts[0]), TreeTokens(ts[1]);
    HasParts(tokens, h, before, [KeyToken] + (key + ([ValueToken] + (value + rest))));
    assert !first ==> tokens[h + 0] == before[0];
    var at := h + |before|;
    TreeStarts(ts[0]);
    TreeStarts(ts[1]);
    PairHas(tokens, at, key, value, rest);
    assert tokens[at + 2 + |key| + |value| + 0] == rest[0];
    NodePrinted(tokens, at + 1, ts[0], false, false, ds);
    NodePrinted(tokens, at + 2 + |key|, ts[1], false, false, ds);
    FlowPairIs(tokens, h, first, Flatten(ts[0]), at + 1 + |key|, Flatten(ts[1]), at + 2 + |key| + |value|, ds);
  }

  // ---- Documents ----

  function DirectiveTokens(ds: seq<TagDirective>): seq<Token> {
    if ds == [] then [DocumentStartToken] else [TagDirectiveToken(ds[0])] + DirectiveTokens(ds[1..])
  }

  function StartTokens(e: Event): seq<Token>
    requires e.DocumentStart?
  {
    if e.implicit then []
    else
      (if e.version.Some? then [VersionDirectiveToken(e.version.value.major, e.version.value.minor)] else [])
      + DirectiveTokens(e.tagDirectives)
  }

  function DocumentTokens(docs: seq<Document>): seq<Token>
    requires AreParsedDocuments(docs, true)
  {
    if docs == [] then [StreamEndToken]
    else
      StartTokens(docs[0].start) +
      (TreeTokens(docs[0].root) + ((if docs[0].end.implicit then [] else [DocumentEndToken]) + DocumentTokens(docs[1..])))
  }

  lemma {:induction false} DirectivesPrinted(
    tokens: seq<Token>, h: nat, version: Option<Version>, ds: seq<TagDirective>, more: seq<TagDirective>)
    requires Has(tokens, h, DirectiveTokens(more)) && DistinctHandles(ds + more)
    ensures |DirectiveTokens(more)| > 0
    ensures HeaderFrom(tokens, h, version, ds) == Header(h + |DirectiveTokens(more)| - 1, version, ds + more)
    ensures tokens[h + |DirectiveTokens(more)| - 1].DocumentStartToken? && (IsDirective(tokens[h]) || tokens[h].DocumentStartToken?)
    decreases |more|
  {
    assert tokens[h + 0] == DirectiveTokens(more)[0];
    if more == [] {
      assert ds + more == ds;
    } else {
      HasParts(tokens, h, [TagDirectiveToken(more[0])], DirectiveTokens(more[1..]));
      assert ds + more == (ds + [more[0]]) + more[1..];
      assert forall i | 0 <= i < |ds| :: (ds + more)[i] == ds[i];
      assert (ds + more)[|ds|] == more[0];
      DirectivesPrinted(tokens, h + 1, version, ds + [more[0]], more[1..]);
    }
  }

  lemma HeaderPrinted(tokens: seq<Token>, h: nat, e: Event)
    requires e.DocumentStart? && !e.implicit && Has(tokens, h, StartTokens(e))
    requires (e.version.Some? ==> IsKnown(e.version.value)) && DistinctHandles(e.tagDirectives)
    ensures |StartTokens(e)| > 0
    ensures HeaderFrom(tokens, h, None, []) == Header(h + |StartTokens(e)| - 1, e.version, e.tagDirectives)
    ensures tokens[h + |StartTokens(e)| - 1].DocumentStartToken? && (IsDirective(tokens[h]) || tokens[h].DocumentStartToken?)
  {
    hide DirectiveTokens;
    var v := if e.version.Some? then [VersionDirectiveToken(e.version.value.major, e.version.value.minor)] else [];
    HasParts(tokens, h, v, DirectiveTokens(e.tagDirectives));
    assert e.version.Some? ==> tokens[h + 0] == v[0];
    assert [] + e.tagDirectives == e.tagDirectives;
    DirectivesPrinted(tokens, h + |v|, e.version, [], e.tagDirectives);
  }

  /** What stands first among the tokens of some documents. */
  lemma DocumentsStart(docs: seq<Document>)
    requires AreParsedDocuments(docs, true)
    ensures DocumentTokens(docs) != []
    ensures AreParsedDocuments(docs, false) ==>
      var token := DocumentTokens(docs)[0];
      token.StreamEndToken? || IsDirective(token) || token.DocumentStartToken?
  {
    hide TreeTokens;
    if docs != [] {
      TreeStarts(docs[0].root);
      if !docs[0].start.implicit {
        StartStarts(docs[0].start);
      }
    }
  }

  lemma StartStarts(e: Event)
    requires e.DocumentStart? && !e.implicit
    ensures StartTokens(e) != [] && (IsDirective(StartTokens(e)[0]) || StartTokens(e)[0].DocumentStartToken?)
  {
  }

  lemma {:induction false} DocumentsPrinted(tokens: seq<Token>, h: nat, docs: seq<Document>, first: bool)
    requires AreParsedDocuments(docs, true) && AreParsedDocuments(docs, first)
    requires Has(tokens, h, DocumentTokens(docs)) && h + |DocumentTokens(docs)| == |tokens|
    ensures Documents(tokens, h, first) == Read(EventsOf(docs), |tokens|)
    decreases |docs|
  {
    hide TreeTokens, IsParsed, Grammar.Document, HeaderFrom, WithDefaults, Flatten, StartTokens, CollectionState;
    DocumentsStart(docs);
    assert tokens[h + 0] == DocumentTokens(docs)[0];
    if docs != [] {
      var d := docs[0];
      var start, root := StartTokens(d.start), TreeTokens(d.root);
      var end := if d.end.implicit then [] else [DocumentEndToken];
      var rest := root + (end + DocumentTokens(docs[1..]));
      HasParts(tokens, h, start, rest);
      TreeStarts(d.root);
      assert tokens[h + |start| + 0] == rest[0] == root[0];
      if d.start.implicit {
        ImplicitIs(tokens, h + |start|, root, d.start);
        DocumentPrinted(tokens, h, docs, false, []);
      } else {
        HeaderPrinted(tokens, h, d.start);
        DocumentPrinted(tokens, h + |start|, docs, true, d.start.tagDirectives);
      }
    }
  }

  lemma ImplicitIs(tokens: seq<Token>, h: nat, root: seq<Token>, e: Event)
    requires e.DocumentStart? && e.implicit && h < |tokens| && root != [] && tokens[h] == root[0] && StartsNode(root[0])
    ensures StartTokens(e) == [] && HeaderFrom(tokens, h, None, []) == Header(h, None, [])
    ensures !IsDirective(tokens[h]) && !tokens[h].DocumentStartToken? && !tokens[h].StreamEndToken?
  {
  }

  lemma {:induction false} DocumentPrinted(tokens: seq<Token>, h: nat, docs: seq<Document>, mayBeEmpty: bool, ds: seq<TagDirective>)
    requires docs != [] && AreParsedDocuments(docs, true)
    requires
      var rest := TreeTokens(docs[0].root) + ((if docs[0].end.implicit then [] else [DocumentEndToken]) + DocumentTokens(docs[1..]));
      Has(tokens, h, rest) && h + |rest| == |tokens|
    ensures Grammar.Document(tokens, h, mayBeEmpty, WithDefaults(ds)) ==
            Read(Flatten(docs[0].root) + [docs[0].end] + EventsOf(docs[1..]), |tokens|)
    decreases |docs|, 0
  {
    hide TreeTokens, IsParsed, HeaderFrom, WithDefaults, Flatten, DocumentTokens, Node;
    var d, more := docs[0], DocumentTokens(docs[1..]);
    var root := TreeTokens(d.root);
    var end := if d.end.implicit then [] else [DocumentEndToken];
    HasParts(tokens, h, root, end + more);
    HasParts(tokens, h + |root|, end, more);
    DocumentsStart(docs[1..]);
    assert tokens[h + |root| + |end| + 0] == more[0];
    assert !d.end.implicit ==> tokens[h + |root| + 0] == end[0];
    TreeStarts(d.root);
    assert tokens[h + 0] == root[0];
    NodePrinted(tokens, h, d.root, true, false, WithDefaults(ds));
    DocumentsPrinted(tokens, h + |root| + |end|, docs[1..], false);
  }

  /** Every stream of events that the parser could make is the reading of some tokens. */
  lemma PrintedIsRead(docs: seq<Document>)
    requires AreParsedDocuments(docs, true)
    ensures
      var tokens := [StreamStartToken] + DocumentTokens(docs);
      StreamOf(tokens) == Read([StreamStart] + EventsOf(docs), |tokens|)
  {
    hide Documents, DocumentTokens;
    var tokens := [StreamStartToken] + DocumentTokens(docs);
    DocumentsPrinted(tokens, 1, docs, true);
  }

  // ---- What is read could have been printed ----

  lemma Cons(t: Tree, ts: seq<Tree>, e: Event, flow: bool) returns (more: seq<Tree>)
    requires IsParsed(t, flow) && AreParsed(ts, flow)
    ensures |more| == |ts| + 1 && AreParsed(more, flow)
    ensures FlattenAll(more) + [e] == Flatten(t) + (FlattenAll(ts) + [e])
  {
    more := [t] + ts;
    assert more[1..] == ts;
    hide IsParsed, Flatten;
  }

  lemma EmptyIsParsed(flow: bool)
    ensures IsParsed(Leaf(EMPTY_SCALAR), flow) && Flatten(Leaf(EMPTY_SCALAR)) == [EMPTY_SCALAR]
  {
  }

  lemma {:induction false} NodeIsParsed(tokens: seq<Token>, h: nat, block: bool, indentless: bool, ds: seq<TagDirective>)
    returns (t: Tree)
    requires h <= |tokens| && (indentless ==> block) && Node(tokens, h, block, indentless, ds).Read?
    ensures IsParsed(t, !block) && Flatten(t) == Node(tokens, h, block, indentless, ds).events
    decreases |tokens| - h, 4
  {
    hide PropertiesAt, TagOf, Content;
    if tokens[h].AliasToken? {
      t := Leaf(Alias(Some(tokens[h].name)));
    } else {
      var p, tag := PropertiesAt(tokens, h), TagOf(tokens, h, ds);
      t := ContentIsParsed(tokens, p.next, block, indentless, p.anchor, tag, ds);
    }
  }

  lemma {:induction false} ContentIsParsed(
    tokens: seq<Token>, h: nat, block: bool, indentless: bool, anchor: Option<string>, tag: Option<string>, ds: seq<TagDirective>)
    returns (t: Tree)
    requires h < |tokens| && (indentless ==> block) && Content(tokens, h, block, indentless, anchor, tag, ds).Read?
    ensures IsParsed(t, !block) && Flatten(t) == Content(tokens, h, block, indentless, anchor, tag, ds).events
    decreases |tokens| - h, 3
  {
    hide Children;
    var r := Content(tokens, h, block, indentless, anchor, tag, ds);
    var k := CollectionState(tokens[h], block, indentless);
    if tokens[h].ScalarToken? || k.None? {
      t := Leaf(r.events[0]);
    } else {
      var e := CollectionStart(k.value, anchor, tag, IsImplied(tag));
      var ts := ChildrenAreParsed(tokens, h, k.value, ds, e);
      t := Branch(e, ts);
    }
  }

  /** The children of a collection as its start event announces them. */
  lemma {:induction false} ChildrenAreParsed(tokens: seq<Token>, h: nat, k: State, ds: seq<TagDirective>, e: Event)
    returns (ts: seq<Tree>)
    requires h < |tokens| && (IsFirst(k) || k.IndentlessSequenceEntryState?) && Children(tokens, h, k, ds).Read?
    requires e.SequenceStart? || e.MappingStart?
    requires e == CollectionStart(k, e.anchor, e.tag, e.implicit)
    ensures AreParsed(ts, e.style.Flow?) && (e.MappingStart? ==> |ts| % 2 == 0)
    ensures Children(tokens, h, k, ds).events == FlattenAll(ts) + [EndOf(e)]
    decreases |tokens| - h, 2
  {
    hide BlockEntries, BlockPairs, FlowEntries, FlowPairs, IndentlessEntries, IsParsed, FlattenAll;
    match k {
      case BlockSequenceFirstEntryState => ts := EntriesAreParsed(tokens, h + 1, ds);
      case BlockMappingFirstKeyState => ts := PairsAreParsed(tokens, h + 1, ds);
      case FlowSequenceFirstEntryState => ts := FlowEntriesAreParsed(tokens, h + 1, true, ds);
      case FlowMappingFirstKeyState => ts := FlowPairsAreParsed(tokens, h + 1, true, ds);
      case IndentlessSequenceEntryState => ts := IndentlessAreParsed(tokens, h, ds);
    }
  }

  lemma {:induction false} PartIsParsed(tokens: seq<Token>, h: nat, block: bool, indentless: bool, isEmpty: bool, ds: seq<TagDirective>)
    returns (t: Tree)
    requires h <= |tokens| && (indentless ==> block) && Part(tokens, h, block, indentless, isEmpty, ds).Read?
    ensures IsParsed(t, !block) && Flatten(t) == Part(tokens, h, block, indentless, isEmpty, ds).events
    decreases |tokens| - h, 5
  {
    hide Node;
    if isEmpty {
      EmptyIsParsed(!block);
      t := Leaf(EMPTY_SCALAR);
    } else {
      t := NodeIsParsed(tokens, h, block, indentless, ds);
    }
  }

  lemma {:induction false} EntriesAreParsed(tokens: seq<Token>, h: nat, ds: seq<TagDirective>) returns (ts: seq<Tree>)
    requires h <= |tokens| && BlockEntries(tokens, h, ds).Read?
    ensures AreParsed(ts, false) && BlockEntries(tokens, h, ds).events == FlattenAll(ts) + [SequenceEnd]
    decreases |tokens| - h, 0
  {
    hide Part, IsParsed, Flatten;
    ts := [];
    if !tokens[h].BlockEndToken? {
      var t := PartIsParsed(tokens, h + 1, true, false, EndsBlockEntry(tokens[h + 1]), ds);
      ts := EntriesAreParsed(tokens, Part(tokens, h + 1, true, false, EndsBlockEntry(tokens[h + 1]), ds).next, ds);
      ts := Cons(t, ts, SequenceEnd, false);
    }
  }

  lemma {:induction false} IndentlessAreParsed(tokens: seq<Token>, h: nat, ds: seq<TagDirective>) returns (ts: seq<Tree>)
    requires h <= |tokens| && IndentlessEntries(tokens, h, ds).Read?
    ensures AreParsed(ts, false) && IndentlessEntries(tokens, h, ds).events == FlattenAll(ts) + [SequenceEnd]
    decreases |tokens| - h, 0
  {
    hide Part, IsParsed, Flatten;
    ts := [];
    if tokens[h].BlockEntryToken? {
      var t := PartIsParsed(tokens, h + 1, true, false, EndsIndentlessEntry(tokens[h + 1]), ds);
      ts := IndentlessAreParsed(tokens, Part(tokens, h + 1, true, false, EndsIndentlessEntry(tokens[h + 1]), ds).next, ds);
      ts := Cons(t, ts, SequenceEnd, false);
    }
  }

  lemma {:induction false} PairsAreParsed(tokens: seq<Token>, h: nat, ds: seq<TagDirective>) returns (ts: seq<Tree>)
    requires h <= |tokens| && BlockPairs(tokens, h, ds).Read?
    ensures AreParsed(ts, false) && |ts| % 2 == 0 && BlockPairs(tokens, h, ds).events == FlattenAll(ts) + [MappingEnd]
    decreases |tokens| - h, 0
  {
    hide Part, IsParsed, Flatten, BlockValue;
    ts := [];
    if !tokens[h].BlockEndToken? {
      var t := PartIsParsed(tokens, h + 1, true, true, EndsBlockPart(tokens[h + 1]), ds);
      ts := ValueIsParsed(tokens, Part(tokens, h + 1, true, true, EndsBlockPart(tokens[h + 1]), ds).next, ds);
      ts := Cons(t, ts, MappingEnd, false);
    }
  }

  lemma {:induction false} ValueIsParsed(tokens: seq<Token>, h: nat, ds: seq<TagDirective>) returns (ts: seq<Tree>)
    requires h <= |tokens| && BlockValue(tokens, h, ds).Read?
    ensures AreParsed(ts, false) && |ts| % 2 == 1 && BlockValue(tokens, h, ds).events == FlattenAll(ts) + [MappingEnd]
    decreases |tokens| - h, 1
  {
    hide Part, IsParsed, Flatten, BlockPairs;
    if !tokens[h].ValueToken? {
      ts := PairsAreParsed(tokens, h, ds);
      EmptyIsParsed(false);
      ts := Cons(Leaf(EMPTY_SCALAR), ts, MappingEnd, false);
    } else {
      var t := PartIsParsed(tokens, h + 1, true, true, EndsBlockPart(tokens[h + 1]), ds);
      ts := PairsAreParsed(tokens, Part(tokens, h + 1, true, true, EndsBlockPart(tokens[h + 1]), ds).next, ds);
      ts := Cons(t, ts, MappingEnd, false);
    }
  }

  lemma {:induction false} FlowEntriesAreParsed(tokens: seq<Token>, h: nat, first: bool, ds: seq<TagDirective>) returns (ts: seq<Tree>)
    requires h <= |tokens| && FlowEntries(tokens, h, first, ds).Read?
    ensures AreParsed(ts, true) && FlowEntries(tokens, h, first, ds).events == FlattenAll(ts) + [SequenceEnd]
    decreases |tokens| - h, if first then 7 else 0
  {
    hide IsParsed, Flatten, FlowEntry;
    ts := [];
    if !tokens[h].FlowSequenceEndToken? {
      ts := FlowEntryIsParsed(tokens, if first then h else h + 1, ds);
    }
  }

  lemma {:induction false} FlowEntryIsParsed(tokens: seq<Token>, h: nat, ds: seq<TagDirective>) returns (ts: seq<Tree>)
    requires h < |tokens| && FlowEntry(tokens, h, ds).Read?
    ensures AreParsed(ts, true) && FlowEntry(tokens, h, ds).events == FlattenAll(ts) + [SequenceEnd]
    decreases |tokens| - h, 6
  {
    hide IsParsed, Flatten, FlowEntries, Pair, Node;
    if tokens[h].KeyToken? {
      var k, v;
      k, v, ts := PairIsParsed(tokens, h + 1, ds);
      var pair := PairTree(k, v);
      ts := Cons(pair, ts, SequenceEnd, true);
      assert Flatten(pair) == [MappingStart(None, None, true, Flow)] + (Flatten(k) + Flatten(v) + [MappingEnd]);
    } else if tokens[h].FlowSequenceEndToken? {
      ts := [];
    } else {
      var t := NodeIsParsed(tokens, h, false, false, ds);
      ts := FlowEntriesAreParsed(tokens, Node(tokens, h, false, false, ds).next, false, ds);
      ts := Cons(t, ts, SequenceEnd, true);
    }
  }

  /** A single pair is a mapping. */
  lemma PairTree(k: Tree, v: Tree) returns (t: Tree)
    requires IsParsed(k, true) && IsParsed(v, true)
    ensures IsParsed(t, true)
    ensures Flatten(t) == [MappingStart(None, None, true, Flow)] + (Flatten(k) + Flatten(v) + [MappingEnd])
  {
    var ts := [k, v];
    assert ts[1..] == [v] && [v][1..] == [] && FlattenAll([]) == [];
    assert FlattenAll(ts) == Flatten(k) + FlattenAll([v]) && FlattenAll([v]) == Flatten(v) + [];
    t := Branch(MappingStart(None, None, true, Flow), ts);
  }

  lemma {:induction false} PairIsParsed(tokens: seq<Token>, h: nat, ds: seq<TagDirective>) returns (k: Tree, v: Tree, ts: seq<Tree>)
    requires h <= |tokens| && Pair(tokens, h, ds).Read?
    ensures IsParsed(k, true) && IsParsed(v, true) && AreParsed(ts, true)
    ensures Pair(tokens, h, ds).events == Flatten(k) + Flatten(v) + [MappingEnd] + (FlattenAll(ts) + [SequenceEnd])
    decreases |tokens| - h, 6
  {
    hide IsParsed, Flatten, FlattenAll, PairValue, Node;
    if tokens[h].ValueToken? || EndsFlowSequencePart(tokens[h]) {
      EmptyIsParsed(true);
      k := Leaf(EMPTY_SCALAR);
      v, ts := PairValueIsParsed(tokens, h + 1, ds);
    } else {
      k := NodeIsParsed(tokens, h, false, false, ds);
      v, ts := PairValueIsParsed(tokens, Node(tokens, h, false, false, ds).next, ds);
    }
  }

  lemma {:induction false} PairValueIsParsed(tokens: seq<Token>, h: nat, ds: seq<TagDirective>) returns (v: Tree, ts: seq<Tree>)
    requires h <= |tokens| && PairValue(tokens, h, ds).Read?
    ensures IsParsed(v, true) && AreParsed(ts, true)
    ensures PairValue(tokens, h, ds).events == Flatten(v) + [MappingEnd] + (FlattenAll(ts) + [SequenceEnd])
    decreases |tokens| - h, 2
  {
    hide IsParsed, Flatten, FlattenAll, Part, FlowEntries;
    if !tokens[h].ValueToken? {
      EmptyIsParsed(true);
      v := Leaf(EMPTY_SCALAR);
      ts := FlowEntriesAreParsed(tokens, h, false, ds);
    } else {
      var isEmpty := EndsFlowSequencePart(tokens[h + 1]);
      v := PartIsParsed(tokens, h + 1, false, false, isEmpty, ds);
      ts := FlowEntriesAreParsed(tokens, Part(tokens, h + 1, false, false, isEmpty, ds).next, false, ds);
    }
  }

  lemma {:induction false} FlowPairsAreParsed(tokens: seq<Token>, h: nat, first: bool, ds: seq<TagDirective>) returns (ts: seq<Tree>)
    requires h <= |tokens| && FlowPairs(tokens, h, first, ds).Read?
    ensures AreParsed(ts, true) && |ts| % 2 == 0 && FlowPairs(tokens, h, first, ds).events == FlattenAll(ts) + [MappingEnd]
    decreases |tokens| - h, if first then 7 else 0
  {
    hide IsParsed, Flatten, FlowPair;
    ts := [];
    if !tokens[h].FlowMappingEndToken? {
      ts := FlowPairIsParsed(tokens, if first then h else h + 1, ds);
    }
  }

  lemma {:induction false} FlowPairIsParsed(tokens: seq<Token>, h: nat, ds: seq<TagDirective>) returns (ts: seq<Tree>)
    requires h < |tokens| && FlowPair(tokens, h, ds).Read?
    ensures AreParsed(ts, true) && |ts| % 2 == 0 && FlowPair(tokens, h, ds).events == FlattenAll(ts) + [MappingEnd]
    decreases |tokens| - h, 6
  {
    hide IsParsed, Flatten, FlowValue, Node, Part;
    if tokens[h].FlowMappingEndToken? {
      ts := [];
    } else if !tokens[h].KeyToken? {
      var t := NodeIsParsed(tokens, h, false, false, ds);
      ts := FlowValueIsParsed(tokens, Node(tokens, h, false, false, ds).next, true, ds);
      ts := Cons(t, ts, MappingEnd, true);
    } else {
      var isEmpty := tokens[h + 1].ValueToken? || EndsFlowMappingPart(tokens[h + 1]);
      var t := PartIsParsed(tokens, h + 1, false, false, isEmpty, ds);
      ts := FlowValueIsParsed(tokens, Part(tokens, h + 1, false, false, isEmpty, ds).next, false, ds);
      ts := Cons(t, ts, MappingEnd, true);
    }
  }

  lemma {:induction false} FlowValueIsParsed(tokens: seq<Token>, h: nat, empty: bool, ds: seq<TagDirective>) returns (ts: seq<Tree>)
    requires h <= |tokens| && FlowValue(tokens, h, empty, ds).Read?
    ensures AreParsed(ts, true) && |ts| % 2 == 1 && FlowValue(tokens, h, empty, ds).events == FlattenAll(ts) + [MappingEnd]
    decreases |tokens| - h, 1
  {
    hide IsParsed, Flatten, FlowPairs, Part;
    if empty || !tokens[h].ValueToken? {
      EmptyIsParsed(true);
      ts := FlowPairsAreParsed(tokens, h, false, ds);
      ts := Cons(Leaf(EMPTY_SCALAR), ts, MappingEnd, true);
    } else {
      var isEmpty := EndsFlowMappingPart(tokens[h + 1]);
      var t := PartIsParsed(tokens, h + 1, false, false, isEmpty, ds);
      ts := FlowPairsAreParsed(tokens, Part(tokens, h + 1, false, false, isEmpty, ds).next, false, ds);
      ts := Cons(t, ts, MappingEnd, true);
    }
  }

  lemma {:induction false} HeaderIsParsed(tokens: seq<Token>, h: nat, version: Option<Version>, ds: seq<TagDirective>)
    requires HeaderFrom(tokens, h, version, ds).Header? && DistinctHandles(ds) && (version.Some? ==> IsKnown(version.value))
    ensures
      var header := HeaderFrom(tokens, h, version, ds);
      DistinctHandles(header.directives) && (header.version.Some? ==> IsKnown(header.version.value))
    decreases |tokens| - h
  {
    match tokens[h] {
      case VersionDirectiveToken(major, minor) => HeaderIsParsed(tokens, h + 1, Some(Version(major, minor)), ds);
      case TagDirectiveToken(d) =>
        assert forall i | 0 <= i < |ds| :: ds[i].handle != d.handle;
        HeaderIsParsed(tokens, h + 1, version, ds + [d]);
      case _ =>
    }
  }

  lemma {:induction false} DocumentsAreParsed(tokens: seq<Token>, h: nat, first: bool) returns (docs: seq<Document>)
    requires h <= |tokens| && Documents(tokens, h, first).Read?
    ensures AreParsedDocuments(docs, first) && EventsOf(docs) == Documents(tokens, h, first).events
    decreases |tokens| - h, if first then 8 else 0
  {
    hide HeaderFrom, Grammar.Document, WithDefaults, Flatten, IsParsed, SkipEnds;
    var h' := if first then h else SkipEnds(tokens, h);
    if tokens[h'].StreamEndToken? {
      docs := [];
    } else {
      HeaderIsParsed(tokens, h', None, []);
      var header := HeaderFrom(tokens, h', None, []);
      var bare := first && !IsDirective(tokens[h']) && !tokens[h'].DocumentStartToken?;
      var start := if bare then DocumentStart(None, [], true) else DocumentStart(header.version, header.directives, false);
      var at := if bare then header.next else header.next + 1;
      var root, end, more := DocumentIsParsed(tokens, at, !bare, WithDefaults(header.directives));
      docs := [Document(start, root, end)] + more;
      assert docs[1..] == more;
    }
  }

  lemma {:induction false} DocumentIsParsed(tokens: seq<Token>, h: nat, mayBeEmpty: bool, ds: seq<TagDirective>)
    returns (root: Tree, end: Event, more: seq<Document>)
    requires h <= |tokens| && Grammar.Document(tokens, h, mayBeEmpty, ds).Read?
    ensures IsParsed(root, false) && end.DocumentEnd? && AreParsedDocuments(more, false)
    ensures Grammar.Document(tokens, h, mayBeEmpty, ds).events == Flatten(root) + [end] + EventsOf(more)
    decreases |tokens| - h, 7
  {
    hide Part, Flatten, IsParsed, Documents;
    var isEmpty := mayBeEmpty && EndsDocumentContent(tokens[h]);
    root := PartIsParsed(tokens, h, true, false, isEmpty, ds);
    var next := Part(tokens, h, true, false, isEmpty, ds).next;
    var explicit := tokens[next].DocumentEndToken?;
    end := DocumentEnd(!explicit);
    more := DocumentsAreParsed(tokens, if explicit then next + 1 else next, false);
  }

  ghost predicate IsParsedStream(events: seq<Event>) {
    exists docs :: AreParsedDocuments(docs, true) && events == [StreamStart] + EventsOf(docs)
  }

  /** Exactly which complete streams of events the parser can make. */
  lemma ParserRange(events: seq<Event>)
    ensures (exists tokens :: StreamOf(tokens).Read? && StreamOf(tokens).events == events) <==> IsParsedStream(events)
  {
    if tokens :| StreamOf(tokens).Read? && StreamOf(tokens).events == events {
      var docs := DocumentsAreParsed(tokens, 1, true);
    }
    if docs :| AreParsedDocuments(docs, true) && events == [StreamStart] + EventsOf(docs) {
      PrintedIsRead(docs);
      var tokens := [StreamStartToken] + DocumentTokens(docs);
      assert StreamOf(tokens).Read? && StreamOf(tokens).events == events;
    }
  }
}
