/** The token queue of the scanner: simple keys that are inserted into a queue while it is being
    drained, the indentation levels that make the block tokens, and what each step does to them. */
module TokenQueue {
  import opened Events
  import opened Tokens

  /** A token as it stands in the text, whether a line break was passed before it, or, for a
      plain scalar, behind it, and whether its text is malformed. */
  datatype Lexeme = Lexeme(token: Token, afterBreak: bool, beforeBreak: bool, bad: bool)

  predicate IsLexeme(l: Lexeme) {
    && !IsAdded(l.token) && !l.token.kind.StreamStart?
    && if l.token.kind.StreamEnd? then l.token.start == l.token.end else Precedes(l.token.start, l.token.end)
  }

  /** A text as the scanner meets it: tokens one behind the other, the end of the stream last. */
  predicate IsInput(lexemes: seq<Lexeme>, from: Mark) {
    && lexemes != []
    && (forall i | 0 <= i < |lexemes| :: IsLexeme(lexemes[i]))
    && (forall i | 0 <= i < |lexemes| :: lexemes[i].token.kind.StreamEnd? <==> i == |lexemes| - 1)
    && Reaches(from, lexemes[0].token.start)
    && (forall i | 0 < i < |lexemes| :: Reaches(lexemes[i - 1].token.end, lexemes[i].token.start))
  }

  /** The end of the stream is always on a new line. */
  function NextLine(m: Mark): Mark {
    if m.column != 0 then Mark(m.index, m.line + 1, 0) else m
  }

  function TokenOf(l: Lexeme): Token {
    var m := NextLine(l.token.start);
    if l.token.kind.StreamEnd? then Token(Kind.StreamEnd, m, m) else l.token
  }

  /** The tokens that stand in the text, up to a point. */
  function OwnBefore(lexemes: seq<Lexeme>, from: Mark, n: nat): seq<Token>
    requires n <= |lexemes|
  {
    if n == 0 then [Token(Kind.StreamStart, from, from)]
    else OwnBefore(lexemes, from, n - 1) + [TokenOf(lexemes[n - 1])]
  }

  /** The state of the scanner: all the tokens made so far, drained ones included, how many were
      drained, the possible simple key of each flow level, the enclosing indentation levels, the
      current one, and the position. */
  datatype Queue = Queue(
    made: seq<Token>, parsed: nat, keys: seq<SimpleKey>, indents: seq<int>, indent: int, flowLevel: nat, mark: Mark)

  // ---- The invariant ----

  /** The token that a possible key begins with is where the key says, and has no KEY yet. */
  predicate KeyFits(k: SimpleKey, made: seq<Token>) {
    k.possible ==>
      && k.number < |made| && made[k.number].start == k.mark && BeginsKey(made[k.number])
      && (k.number > 0 ==> !IsSimpleKey(made[k.number - 1]))
  }

  /** Possible keys begin at tokens that are still in the queue, each level behind the last. */
  predicate KeysFit(q: Queue) {
    && (forall i | 0 <= i < |q.keys| :: KeyFits(q.keys[i], q.made))
    && (forall i | 0 <= i < |q.keys| && q.keys[i].possible :: q.parsed <= q.keys[i].number && Precedes(q.keys[i].mark, q.mark))
    && (forall i, j | 0 <= i < j < |q.keys| && q.keys[i].possible && q.keys[j].possible :: q.keys[i].number < q.keys[j].number)
  }

  predicate Rising(s: seq<int>) {
    forall i, j | 0 <= i < j < |s| :: s[i] < s[j]
  }

  function Levels(q: Queue): seq<int> {
    q.indents + [q.indent]
  }

  /** The indentation levels rise from -1 and are the columns of the open block collections. */
  predicate LevelsFit(q: Queue) {
    && Rising(Levels(q)) && Levels(q)[0] == -1
    && Open(q.made) == Some(Levels(q)[1..])
  }

  predicate Fits(q: Queue) {
    && q.parsed <= |q.made|
    && |q.keys| == q.flowLevel + 1
    && KeysFit(q) && LevelsFit(q) && KeysPlaced(q.made)
  }

  /** A possible key outside the flow collections is indented enough, and no block token follows
      its beginning. */
  predicate BottomFits(q: Queue) {
    q.keys != [] && q.keys[0].possible ==>
      q.indent <= q.keys[0].mark.column && q.keys[0].number <= |q.made| && NoBlockTokens(q.made[q.keys[0].number..])
  }

  // ---- What the steps keep ----

  lemma Advance(q: Queue, m: Mark)
    requires Fits(q) && BottomFits(q) && Reaches(q.mark, m)
    ensures Fits(q.(mark := m)) && BottomFits(q.(mark := m))
  {
    hide KeyFits, KeysPlaced, Open;
  }

  predicate Fewer(keys: seq<SimpleKey>, fewer: seq<SimpleKey>) {
    |fewer| == |keys| && forall i | 0 <= i < |keys| :: fewer[i] == keys[i] || !fewer[i].possible
  }

  lemma FewerFit(q: Queue, fewer: seq<SimpleKey>)
    requires Fits(q) && Fewer(q.keys, fewer)
    ensures Fits(q.(keys := fewer))
    ensures BottomFits(q) || (fewer != [] && !fewer[0].possible) ==> BottomFits(q.(keys := fewer))
  {
    var r := q.(keys := fewer);
    forall i | 0 <= i < |fewer|
      ensures KeyFits(fewer[i], q.made)
    {
      if fewer[i].possible {
        assert KeyFits(q.keys[i], q.made);
      }
    }
    hide KeyFits, KeysPlaced, Open;
    assert LevelsFit(r);
  }

  lemma KeysFitMore(q: Queue, t: Token)
    requires KeysFit(q)
    ensures KeysFit(q.(made := q.made + [t]))
  {
    var r := q.(made := q.made + [t]);
    forall i | 0 <= i < |q.keys|
      ensures KeyFits(r.keys[i], r.made)
    {
      assert KeyFits(q.keys[i], q.made);
    }
  }

  /** A token from the text is appended. */
  lemma AppendOwn(q: Queue, t: Token)
    requires Fits(q) && BottomFits(q) && !IsAdded(t)
    ensures Fits(q.(made := q.made + [t])) && BottomFits(q.(made := q.made + [t]))
    ensures Own(q.made + [t]) == Own(q.made) + [t]
  {
    var r := q.(made := q.made + [t]);
    KeysFitMore(q, t);
    OpenSnoc(q.made, t);
    OwnSnoc(q.made, t);
    PlacedSnoc(q.made, t);
    if q.keys[0].possible {
      var n := q.keys[0].number;
      assert r.made[n..] == q.made[n..] + [t];
    }
    hide KeysFit, Open, Own, KeysPlaced;
    assert LevelsFit(r);
  }

  /** A key may begin at a token that is appended. */
  lemma AppendKey(q: Queue, t: Token, required: bool)
    requires Fits(q) && BottomFits(q) && BeginsKey(t) && Reaches(q.mark, t.start) && Precedes(t.start, t.end)
    requires |q.keys| == 1 ==> q.indent <= t.start.column
    ensures
      var top := SimpleKey(true, required, |q.made|, t.start);
      var r := q.(made := q.made + [t], keys := q.keys[|q.keys| - 1 := top], mark := t.end);
      Fits(r) && BottomFits(r)
  {
    hide KeysFit, KeysPlaced, Open, Own;
    var none := q.keys[|q.keys| - 1 := NO_KEY];
    var q1 := q.(keys := none);
    FewerFit(q, none);
    AppendOwn(q1, t);
    var q2 := q1.(made := q.made + [t], mark := t.end);
    assert Reaches(q.mark, t.end);
    Advance(q1.(made := q.made + [t]), t.end);
    var top := SimpleKey(true, required, |q.made|, t.start);
    var r := q2.(keys := q.keys[|q.keys| - 1 := top]);
    assert r == q.(made := q.made + [t], keys := q.keys[|q.keys| - 1 := top], mark := t.end);
    assert q2.keys[|q.keys| - 1 := top] == r.keys;
    TopKeyFits(q1, q2, top);
    assert LevelsFit(r);
    if |q.keys| == 1 {
      assert r.made[|q.made|..] == [t];
    } else {
      assert r.keys[0] == q2.keys[0];
    }
  }

  lemma {:induction false} OwnKey(made: seq<Token>, t: Token)
    requires BeginsKey(t)
    ensures Own(made + [t]) == Own(made) + [t]
  {
    hide Own;
    OwnSnoc(made, t);
  }

  lemma TopKeyFits(q1: Queue, q2: Queue, top: SimpleKey)
    requires Fits(q1) && KeysFit(q2) && q2.keys == q1.keys && |q1.keys| > 0 && q2.parsed == q1.parsed
    requires !q1.keys[|q1.keys| - 1].possible
    requires |q2.made| == |q1.made| + 1 && q2.made[..|q1.made|] == q1.made
    requires top.possible && top.number == |q1.made| && BeginsKey(q2.made[|q1.made|]) && q2.made[|q1.made|].start == top.mark
    requires Precedes(top.mark, q2.mark)
    ensures KeysFit(q2.(keys := q2.keys[|q2.keys| - 1 := top]))
  {
    var r := q2.(keys := q2.keys[|q2.keys| - 1 := top]);
    if |q1.made| > 0 {
      var last := |q1.made| - 1;
      assert q2.made[last] == q2.made[..|q1.made|][last];
      assert !IsSimpleKey(q1.made[last]);
    }
    forall i | 0 <= i < |r.keys|
      ensures KeyFits(r.keys[i], r.made)
      ensures r.keys[i].possible && i < |r.keys| - 1 ==> r.keys[i].number < top.number
    {
      if i < |r.keys| - 1 {
        assert r.keys[i] == q2.keys[i] && KeyFits(q1.keys[i], q1.made) && KeyFits(q2.keys[i], q2.made);
      }
    }
  }

  lemma PushLevel(q: Queue)
    requires Fits(q) && BottomFits(q)
    ensures
      var r := q.(keys := q.keys + [NO_KEY], flowLevel := q.flowLevel + 1);
      Fits(r) && BottomFits(r)
  {
    var r := q.(keys := q.keys + [NO_KEY], flowLevel := q.flowLevel + 1);
    hide KeysPlaced, Open;
    assert LevelsFit(r);
  }

  lemma PopLevel(q: Queue)
    requires Fits(q) && BottomFits(q) && q.flowLevel > 0
    ensures
      var r := q.(keys := q.keys[..|q.keys| - 1], flowLevel := q.flowLevel - 1);
      Fits(r) && BottomFits(r)
  {
    var r := q.(keys := q.keys[..|q.keys| - 1], flowLevel := q.flowLevel - 1);
    hide KeysPlaced, Open;
    assert LevelsFit(r);
  }

  /** A deeper level opens a block collection. */
  lemma AppendStart(q: Queue, t: Token)
    requires Fits(q) && OpensBlock(t) && q.indent < t.start.column
    ensures
      var r := q.(made := q.made + [t], indents := q.indents + [q.indent], indent := t.start.column);
      Fits(r) && Own(r.made) == Own(q.made)
  {
    var r := q.(made := q.made + [t], indents := q.indents + [q.indent], indent := t.start.column);
    KeysFitMore(q, t);
    OpenSnoc(q.made, t);
    OwnSnoc(q.made, t);
    PlacedSnoc(q.made, t);
    RisingSnoc(q, t.start.column);
    hide KeysFit, KeyFits, Open, Own, KeysPlaced;
    assert KeysFit(r) by { SameKeys(q.(made := q.made + [t]), r); }
  }

  lemma SameKeys(q: Queue, r: Queue)
    requires KeysFit(q) && r.keys == q.keys && r.made == q.made && r.parsed == q.parsed && r.mark == q.mark
    ensures KeysFit(r)
  {
  }

  lemma RisingSnoc(q: Queue, column: int)
    requires Rising(Levels(q)) && q.indent < column && Levels(q)[0] == -1
    ensures Rising(Levels(q) + [column]) && (Levels(q) + [column])[1..] == Levels(q)[1..] + [column]
    ensures (Levels(q) + [column])[0] == -1
  {
    assert Levels(q)[|q.indents|] == q.indent;
  }

  /** A shallower line closes one. */
  lemma AppendEnd(q: Queue, t: Token)
    requires Fits(q) && t.kind.BlockEnd? && q.indent > -1
    ensures q.indents != []
    ensures
      var n := |q.indents| - 1;
      var r := q.(made := q.made + [t], indents := q.indents[..n], indent := q.indents[n]);
      Fits(r) && Own(r.made) == Own(q.made)
  {
    hide KeysFit, KeyFits, Open, Own, KeysPlaced;
    assert Levels(q)[|q.indents|] == q.indent;
    var n := |q.indents| - 1;
    var r := q.(made := q.made + [t], indents := q.indents[..n], indent := q.indents[n]);
    KeysFitMore(q, t);
    OpenSnoc(q.made, t);
    OwnSnoc(q.made, t);
    PlacedSnoc(q.made, t);
    assert Levels(r) == Levels(q)[..n + 1];
    assert Levels(q)[1..][..n] == Levels(r)[1..];
    assert KeysFit(r) by { SameKeys(q.(made := q.made + [t]), r); }
  }

  /** A simple key is found: a KEY is put before its first token, and a BLOCK-MAPPING-START
      before that if the key is at a deeper level. */
  function WithSimpleKey(q: Queue): seq<Token>
    requires q.keys != [] && q.keys[|q.keys| - 1].number <= |q.made|
  {
    var k := q.keys[|q.keys| - 1];
    var made := Insert(q.made, k.number, Token(Key, k.mark, k.mark));
    if q.flowLevel == 0 && q.indent < k.mark.column
    then Insert(made, k.number, Token(BlockMappingStart, k.mark, k.mark))
    else made
  }

  lemma InsertedKeysFit(q: Queue, n: nat, t: Token)
    requires KeysFit(q) && n <= |q.made|
    requires forall i | 0 <= i < |q.keys| && q.keys[i].possible :: q.keys[i].number < n
    ensures KeysFit(q.(made := Insert(q.made, n, t)))
  {
    var r := q.(made := Insert(q.made, n, t));
    forall i | 0 <= i < |q.keys|
      ensures KeyFits(r.keys[i], r.made)
    {
      assert KeyFits(q.keys[i], q.made);
    }
  }

  lemma InsertKey(q: Queue)
    requires Fits(q) && q.keys[|q.keys| - 1].possible
    ensures
      var k := q.keys[|q.keys| - 1];
      var key := Token(Key, k.mark, k.mark);
      var r := q.(made := Insert(q.made, k.number, key), keys := q.keys[|q.keys| - 1 := k.(possible := false)]);
      && k.number < |q.made|
      && Fits(r) && Own(r.made) == Own(q.made)
      && (forall i | 0 <= i < |r.keys| && r.keys[i].possible :: r.keys[i].number < k.number)
  {
    var top := |q.keys| - 1;
    var k := q.keys[top];
    assert KeyFits(k, q.made);
    var key := Token(Key, k.mark, k.mark);
    var keys := q.keys[top := k.(possible := false)];
    FewerFit(q, keys);
    var q1 := q.(keys := keys);
    InsertedKeysFit(q1, k.number, key);
    OpenInsertOther(q.made, k.number, key);
    OwnInsert(q.made, k.number, key);
    PlacedInsert(q.made, k.number, key);
    var r := q1.(made := Insert(q.made, k.number, key));
    hide KeysFit, KeyFits, Open, Own, KeysPlaced, Insert;
    assert LevelsFit(r);
  }

  /** The state once the simple key is in its place. */
  function KeyFound(q: Queue): Queue
    requires q.keys != [] && q.keys[|q.keys| - 1].number <= |q.made|
  {
    var k := q.keys[|q.keys| - 1];
    var r := q.(made := WithSimpleKey(q), keys := q.keys[|q.keys| - 1 := k.(possible := false)]);
    if q.flowLevel == 0 && q.indent < k.mark.column
    then r.(indents := q.indents + [q.indent], indent := k.mark.column) else r
  }

  lemma KeyFoundFits(q: Queue)
    requires Fits(q) && BottomFits(q) && q.keys[|q.keys| - 1].possible
    ensures q.keys[|q.keys| - 1].number < |q.made|
    ensures Fits(KeyFound(q)) && BottomFits(KeyFound(q)) && Own(KeyFound(q).made) == Own(q.made)
  {
    hide KeysFit, LevelsFit, KeysPlaced, Own, Open, Insert;
    InsertKey(q);
    var k := q.keys[|q.keys| - 1];
    var n, key := k.number, Token(Key, k.mark, k.mark);
    InsertLength(q.made, n, key);
    var r := q.(made := Insert(q.made, n, key), keys := q.keys[|q.keys| - 1 := k.(possible := false)]);
    if q.flowLevel == 0 && q.indent < k.mark.column {
      BeforeKey(q);
      InsertStart(r, n, Token(BlockMappingStart, k.mark, k.mark));
    } else if q.flowLevel > 0 && q.keys[0].possible {
      assert r.keys[0] == q.keys[0] && r.keys[0].number < n;
      NoneInserted(q.made, q.keys[0].number, n, key);
    }
  }

  lemma InsertLength(s: seq<Token>, n: nat, t: Token)
    requires n <= |s|
    ensures |Insert(s, n, t)| == |s| + 1
  {
  }

  lemma BeforeKey(q: Queue)
    requires Fits(q) && BottomFits(q) && |q.keys| == 1 && q.keys[0].possible
    ensures
      var n, key := q.keys[0].number, Token(Key, q.keys[0].mark, q.keys[0].mark);
      && n < |q.made|
      && NoBlockTokens(Insert(q.made, n, key)[n..])
      && (n > 0 ==> !IsSimpleKey(Insert(q.made, n, key)[n - 1]))
  {
    assert KeyFits(q.keys[0], q.made);
    var n, key := q.keys[0].number, Token(Key, q.keys[0].mark, q.keys[0].mark);
    assert Insert(q.made, n, key)[n..] == [key] + q.made[n..];
  }

  lemma NoneInserted(s: seq<Token>, b: nat, n: nat, t: Token)
    requires b <= n <= |s| && NoBlockTokens(s[b..]) && !IsBlockToken(t)
    ensures NoBlockTokens(Insert(s, n, t)[b..])
  {
    assert Insert(s, n, t)[b..] == Insert(s[b..], n - b, t);
  }

  lemma InsertStart(q: Queue, n: nat, t: Token)
    requires Fits(q) && n < |q.made| && OpensBlock(t) && q.indent < t.start.column
    requires NoBlockTokens(q.made[n..]) && (n > 0 ==> !IsSimpleKey(q.made[n - 1]))
    requires forall i | 0 <= i < |q.keys| && q.keys[i].possible :: q.keys[i].number < n
    ensures
      var r := q.(made := Insert(q.made, n, t), indents := q.indents + [q.indent], indent := t.start.column);
      Fits(r) && Own(r.made) == Own(q.made)
  {
    var r := q.(made := Insert(q.made, n, t), indents := q.indents + [q.indent], indent := t.start.column);
    InsertedKeysFit(q, n, t);
    OpenInsertStart(q.made, n, t);
    OwnInsert(q.made, n, t);
    PlacedInsert(q.made, n, t);
    RisingSnoc(q, t.start.column);
    hide KeysFit, KeyFits, Open, Own, KeysPlaced, Insert;
    assert KeysFit(r) by { SameKeys(q.(made := Insert(q.made, n, t)), r); }
  }

  lemma FirstFits(m: Mark)
    ensures
      var q := Queue([], 0, [NO_KEY], [], -1, 0, m);
      Fits(q) && BottomFits(q) && Own(q.made) == []
  {
    var q := Queue([], 0, [NO_KEY], [], -1, 0, m);
    assert Levels(q) == [-1];
    assert Levels(q)[1..] == [];
  }

  /** A key that is not stale is on the current line and short enough. */
  lemma KeyInReach(q: Queue, t: Token)
    requires Fits(q) && (forall i | 0 <= i < |q.keys| :: !IsStale(q.keys[i], q.mark)) && q.mark == t.start
    ensures
      var k := q.keys[|q.keys| - 1];
      k.possible ==>
        && q.parsed <= k.number < |q.made| && q.made[k.number].start == k.mark
        && k.mark.line == t.start.line && t.start.index <= k.mark.index + 1024
  {
    var k := q.keys[|q.keys| - 1];
    assert KeyFits(k, q.made) && !IsStale(k, q.mark);
  }

  lemma KeyInQueue(q: Queue)
    requires Fits(q) && q.keys[|q.keys| - 1].possible
    ensures q.parsed <= q.keys[|q.keys| - 1].number
  {
  }

  /** At the start of a line every possible key is stale. */
  lemma AllStale(q: Queue)
    requires Fits(q) && q.mark.column == 0
    ensures forall i | 0 <= i < |q.keys| && q.keys[i].possible :: IsStale(q.keys[i], q.mark)
  {
  }

  lemma LastLevels(q: Queue)
    requires Fits(q)
    ensures q.indent >= -1
    ensures q.indent == -1 ==> Open(q.made) == Some([])
  {
    assert Levels(q)[|q.indents|] == q.indent;
    if q.indents == [] {
      assert Levels(q)[1..] == [];
    }
  }

  lemma BottomDead(q: Queue)
    requires |q.keys| == 1 && !q.keys[0].possible
    ensures BottomFits(q)
  {
  }

  lemma {:induction false} NoEndBefore(lexemes: seq<Lexeme>, from: Mark, n: nat)
    requires IsInput(lexemes, from) && n < |lexemes|
    ensures forall t | t in OwnBefore(lexemes, from, n) :: !t.kind.StreamEnd?
    decreases n
  {
    if n > 0 {
      NoEndBefore(lexemes, from, n - 1);
    }
  }

  /** The end of the stream is the last token. */
  lemma {:induction false} EndIsLast(made: seq<Token>, lexemes: seq<Lexeme>, from: Mark, n: nat, i: nat)
    requires IsInput(lexemes, from) && n <= |lexemes| && Own(made) == OwnBefore(lexemes, from, n)
    requires n == |lexemes| ==> made != [] && made[|made| - 1].kind.StreamEnd?
    requires i < |made| && made[i].kind.StreamEnd?
    ensures n == |lexemes| && i == |made| - 1
  {
    OwnHas(made, i);
    if n < |lexemes| {
      NoEndBefore(lexemes, from, n);
    } else {
      var m, e := made[..|made| - 1], made[|made| - 1];
      assert made == m + [e];
      OwnSnoc(m, e);
      var before, last := OwnBefore(lexemes, from, n - 1), TokenOf(lexemes[n - 1]);
      assert Own(m) + [e] == before + [last];
      assert Own(m) == (Own(m) + [e])[..|Own(m)|] == (before + [last])[..|before|] == before;
      NoEndBefore(lexemes, from, n - 1);
      if i < |made| - 1 {
        OwnHas(m, i);
      }
    }
  }

  /** While a key is possible outside flow collections, the column is not smaller than the level. */
  lemma KeyHoldsLevel(q: Queue)
    requires Fits(q) && BottomFits(q) && forall i | 0 <= i < |q.keys| :: !IsStale(q.keys[i], q.mark)
    ensures q.keys[0].possible ==> q.indent <= q.mark.column
  {
    assert !IsStale(q.keys[0], q.mark);
  }

  /** The head of the queue may go if no possible key begins there. */
  lemma Drain(q: Queue)
    requires Fits(q) && BottomFits(q) && q.parsed < |q.made|
    requires forall i | 0 <= i < |q.keys| && q.keys[i].possible :: q.keys[i].number != q.parsed
    ensures Fits(q.(parsed := q.parsed + 1)) && BottomFits(q.(parsed := q.parsed + 1))
  {
    hide KeysPlaced, Open;
    assert LevelsFit(q.(parsed := q.parsed + 1));
  }

  // ---- The scanner ----

  /** A simple key must be on one line, and shorter than 1024 characters. */
  predicate IsStale(k: SimpleKey, m: Mark) {
    k.possible && (k.mark.line < m.line || k.mark.index + 1024 < m.index)
  }

  // ---- What each step does ----

  /** All that the scanner has done so far, as if no token had been handed over yet. */
  datatype Progress = Progress(
    made: seq<Token>, keys: seq<SimpleKey>, keyAllowed: bool, indents: seq<int>, indent: int, flowLevel: nat, mark: Mark)

  function Started(from: Mark): Progress {
    Progress([Token(Kind.StreamStart, from, from)], [NO_KEY], true, [], -1, 0, from)
  }

  function QueueOf(p: Progress): Queue {
    Queue(p.made, 0, p.keys, p.indents, p.indent, p.flowLevel, p.mark)
  }

  predicate Overdue(keys: seq<SimpleKey>, m: Mark) {
    exists i | 0 <= i < |keys| :: IsStale(keys[i], m) && keys[i].required
  }

  function Fresh(keys: seq<SimpleKey>, m: Mark): (r: seq<SimpleKey>)
    ensures |r| == |keys| && forall i | 0 <= i < |keys| :: r[i] == if IsStale(keys[i], m) then keys[i].(possible := false) else keys[i]
  {
    seq(|keys|, i requires 0 <= i < |keys| => if IsStale(keys[i], m) then keys[i].(possible := false) else keys[i])
  }

  function Appended(p: Progress, t: Token): Progress {
    p.(made := p.made + [t], mark := t.end)
  }

  function Dropped(p: Progress): Option<Progress> {
    if p.keys == [] then None
    else
      var top := |p.keys| - 1;
      if p.keys[top].possible && p.keys[top].required then None
      else Some(p.(keys := p.keys[top := p.keys[top].(possible := false)]))
  }

  function Saved(p: Progress): Option<Progress> {
    if !p.keyAllowed then Some(p)
    else if Dropped(p).None? then None
    else
      var key := SimpleKey(true, p.flowLevel == 0 && p.indent == p.mark.column, |p.made|, p.mark);
      Some(p.(keys := p.keys[|p.keys| - 1 := key]))
  }

  function Rolled(p: Progress, kind: Kind): Progress {
    if p.flowLevel == 0 && p.indent < p.mark.column then
      p.(made := p.made + [Token(kind, p.mark, p.mark)], indents := p.indents + [p.indent], indent := p.mark.column)
    else p
  }

  function Unrolled(p: Progress, column: int): Progress
    decreases |p.indents|
  {
    if p.flowLevel > 0 || p.indent <= column || p.indents == [] then p
    else
      var n := |p.indents| - 1;
      Unrolled(p.(made := p.made + [Token(BlockEnd, p.mark, p.mark)], indents := p.indents[..n], indent := p.indents[n]), column)
  }

  function KeyTaken(p: Progress, t: Token, beforeBreak: bool): Option<Progress> {
    match Saved(p)
    case None => None
    case Some(d) => Some(Appended(d, t).(keyAllowed := t.kind.PlainScalar? && beforeBreak))
  }

  function FlowOpened(p: Progress, t: Token): Option<Progress> {
    match Saved(p)
    case None => None
    case Some(d) => Some(Appended(d, t).(keys := d.keys + [NO_KEY], flowLevel := d.flowLevel + 1, keyAllowed := true))
  }

  function FlowClosed(p: Progress, t: Token): Option<Progress> {
    match Dropped(p)
    case None => None
    case Some(d) =>
      var e := if d.flowLevel > 0 then d.(flowLevel := d.flowLevel - 1, keys := d.keys[..|d.keys| - 1]) else d;
      Some(Appended(e.(keyAllowed := false), t))
  }

  /** A token behind which a key may stand, or may not. */
  function KeyEnded(p: Progress, t: Token, keyAllowed: bool): Option<Progress> {
    match Dropped(p)
    case None => None
    case Some(d) => Some(Appended(d.(keyAllowed := keyAllowed), t))
  }

  function BlockStart(t: Token): Kind {
    if t.kind.BlockEntry? then BlockSequenceStart else BlockMappingStart
  }

  function BlockMarked(p: Progress, t: Token): Option<Progress> {
    if p.flowLevel == 0 && !p.keyAllowed then None
    else KeyEnded(Rolled(p, BlockStart(t)), t, t.kind.BlockEntry? || p.flowLevel == 0)
  }

  function ValueMarked(p: Progress, t: Token): Option<Progress> {
    if p.keys == [] then None
    else if p.keys[|p.keys| - 1].possible then
      if p.keys[|p.keys| - 1].number > |p.made| then None
      else
        var q := KeyFound(QueueOf(p));
        Some(Appended(p.(made := q.made, keys := q.keys, indents := q.indents, indent := q.indent, keyAllowed := false), t))
    else if p.flowLevel == 0 && !p.keyAllowed then None
    else Some(Appended(Rolled(p, BlockMappingStart).(keyAllowed := p.flowLevel == 0), t))
  }

  function Finished(p: Progress): Option<Progress> {
    var m := NextLine(p.mark);
    KeyEnded(Unrolled(p.(mark := m), -1), Token(Kind.StreamEnd, m, m), false)
  }

  function Dispatched(p: Progress, l: Lexeme): Option<Progress> {
    var t := l.token;
    if l.bad then None
    else
      match t.kind
      case StreamEnd => Finished(p)
      case Directive | DocumentStart | DocumentEnd => KeyEnded(Unrolled(p, -1), t, false)
      case FlowSequenceStart | FlowMappingStart => FlowOpened(p, t)
      case FlowSequenceEnd | FlowMappingEnd => FlowClosed(p, t)
      case FlowEntry | BlockScalar => KeyEnded(p, t, true)
      case BlockEntry | Key => BlockMarked(p, t)
      case Value => ValueMarked(p, t)
      case _ => KeyTaken(p, t, l.beforeBreak)
  }

  /** One more token of the text; None is an error. */
  function Fetched(p: Progress, l: Lexeme): Option<Progress> {
    var m := l.token.start;
    if Overdue(p.keys, m) then None
    else
      var allowed := p.keyAllowed || (l.afterBreak && p.flowLevel == 0);
      Dispatched(Unrolled(p.(mark := m, keys := Fresh(p.keys, m), keyAllowed := allowed), m.column), l)
  }

  /** The first `n` tokens of the text, one after the other. */
  function Scanned(lexemes: seq<Lexeme>, from: Mark, n: nat): Option<Progress>
    requires n <= |lexemes|
  {
    if n == 0 then Some(Started(from))
    else
      match Scanned(lexemes, from, n - 1)
      case None => None
      case Some(p) => Fetched(p, lexemes[n - 1])
  }

  /** The tokens of a whole text, none of which is handed over before all are known. */
  function ScannedWhole(lexemes: seq<Lexeme>, from: Mark): Option<seq<Token>> {
    match Scanned(lexemes, from, |lexemes|)
    case None => None
    case Some(p) => if Overdue(p.keys, p.mark) then None else Some(p.made)
  }

  lemma UnrollsNone(p: Progress, column: int)
    requires p.flowLevel > 0 || p.indent <= column
    ensures Unrolled(p, column) == p
  {
  }

  lemma UnrollsOne(p: Progress, column: int)
    requires p.flowLevel == 0 && p.indent > column && p.indents != []
    ensures
      var n := |p.indents| - 1;
      var q := p.(made := p.made + [Token(BlockEnd, p.mark, p.mark)], indents := p.indents[..n], indent := p.indents[n]);
      Unrolled(p, column) == Unrolled(q, column)
  {
  }

  /** Finding a key does not depend on what was handed over. */
  lemma FoundIs(p: Progress, t: Token, q: Queue, r: Progress)
    requires q == QueueOf(p).(parsed := q.parsed) && p.keys != [] && p.keys[|p.keys| - 1].number <= |p.made|
    requires p.keys[|p.keys| - 1].possible
    requires QueueOf(r) == KeyFound(q).(parsed := 0) && !r.keyAllowed
    ensures ValueMarked(p, t) == Some(Appended(r, t))
  {
    hide Insert;
  }

  lemma NotFoundIs(p: Progress, t: Token)
    requires p.keys != [] && !p.keys[|p.keys| - 1].possible
    ensures ValueMarked(p, t) ==
      if p.flowLevel == 0 && !p.keyAllowed then None
      else Some(Appended(Rolled(p, BlockMappingStart).(keyAllowed := p.flowLevel == 0), t))
  {
  }

  lemma FoundMakes(q: Queue)
    requires Fits(q) && q.keys[|q.keys| - 1].possible
    ensures q.keys[|q.keys| - 1].number <= |q.made| && KeyFound(q).made == WithSimpleKey(q)
  {
    assert KeyFits(q.keys[|q.keys| - 1], q.made);
  }

  lemma HasKeys(q: Queue)
    requires Fits(q)
    ensures q.keys != []
  {
  }

  // ---- Keys that are found stale early ----

  lemma StaleStays(k: SimpleKey, m: Mark, later: Mark)
    requires Reaches(m, later) && IsStale(k, m)
    ensures IsStale(k, later)
  {
  }

  lemma OverdueStays(keys: seq<SimpleKey>, m: Mark, later: Mark)
    requires Reaches(m, later) && Overdue(keys, m)
    ensures Overdue(keys, later)
  {
    var i :| 0 <= i < |keys| && IsStale(keys[i], m) && keys[i].required;
    StaleStays(keys[i], m, later);
  }

  lemma FreshTwice(keys: seq<SimpleKey>, m: Mark, later: Mark)
    requires Reaches(m, later) && !Overdue(keys, m)
    ensures Overdue(Fresh(keys, m), later) <==> Overdue(keys, later)
    ensures Fresh(Fresh(keys, m), later) == Fresh(keys, later)
  {
    var early := Fresh(keys, m);
    forall i | 0 <= i < |keys|
      ensures (IsStale(early[i], later) && early[i].required) <==> (IsStale(keys[i], later) && keys[i].required)
      ensures Fresh(early, later)[i] == Fresh(keys, later)[i]
    {
      if IsStale(keys[i], m) {
        StaleStays(keys[i], m, later);
      }
    }
  }

  /** That makes no difference to the next token. */
  lemma KeptFetches(p: Progress, keys: seq<SimpleKey>, l: Lexeme)
    requires keys == p.keys || (keys == Fresh(p.keys, p.mark) && !Overdue(p.keys, p.mark))
    requires Reaches(p.mark, l.token.start)
    ensures Fetched(p.(keys := keys), l) == Fetched(p, l)
  {
    hide Overdue, Fresh, Dispatched, Unrolled;
    if keys != p.keys {
      FreshTwice(p.keys, p.mark, l.token.start);
    } else {
      assert p.(keys := keys) == p;
    }
  }

  lemma KeptOverdue(p: Progress, keys: seq<SimpleKey>)
    requires keys == p.keys || (keys == Fresh(p.keys, p.mark) && !Overdue(p.keys, p.mark))
    ensures Overdue(keys, p.mark) <==> Overdue(p.keys, p.mark)
    ensures Fresh(keys, p.mark) == Fresh(p.keys, p.mark)
  {
    if keys != p.keys {
      FreshTwice(p.keys, p.mark, p.mark);
    }
  }

  lemma {:induction false} FailsForGood(lexemes: seq<Lexeme>, from: Mark, n: nat, m: nat)
    requires n <= m <= |lexemes| && Scanned(lexemes, from, n).None?
    ensures Scanned(lexemes, from, m).None?
    decreases m
  {
    hide Fetched;
    if n < m {
      FailsForGood(lexemes, from, n, m - 1);
    }
  }

  lemma OverdueFails(lexemes: seq<Lexeme>, from: Mark, n: nat)
    requires n <= |lexemes| && Scanned(lexemes, from, n).Some?
    requires var p := Scanned(lexemes, from, n).value;
             Overdue(p.keys, p.mark) && (n < |lexemes| ==> Reaches(p.mark, lexemes[n].token.start))
    ensures ScannedWhole(lexemes, from).None?
  {
    hide Overdue, Unrolled, Dispatched;
    var p := Scanned(lexemes, from, n).value;
    if n < |lexemes| {
      OverdueStays(p.keys, p.mark, lexemes[n].token.start);
      assert Fetched(p, lexemes[n]).None?;
      FailsForGood(lexemes, from, n + 1, |lexemes|);
    }
  }
}
