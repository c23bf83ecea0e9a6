/** Every block entry and every key of a block mapping stands at the column of the innermost block
    collection that is open there, whatever was inserted into the queue later. */
module Alignment {
  import opened Events
  import opened Tokens
  import opened TokenQueue

  /** How many flow collections are open after some tokens; an end too many is passed over. */
  function Depth(s: seq<Token>): nat {
    if s == [] then 0
    else
      var d, kind := Depth(s[..|s| - 1]), s[|s| - 1].kind;
      if kind.FlowSequenceStart? || kind.FlowMappingStart? then d + 1
      else if (kind.FlowSequenceEnd? || kind.FlowMappingEnd?) && d > 0 then d - 1
      else d
  }

  predicate IsFlowToken(t: Token) {
    t.kind.FlowSequenceStart? || t.kind.FlowMappingStart? || t.kind.FlowSequenceEnd? || t.kind.FlowMappingEnd?
  }

  lemma {:induction false} DepthSnoc(s: seq<Token>, t: Token)
    ensures !IsFlowToken(t) ==> Depth(s + [t]) == Depth(s)
    ensures t.kind.FlowSequenceStart? || t.kind.FlowMappingStart? ==> Depth(s + [t]) == Depth(s) + 1
    ensures t.kind.FlowSequenceEnd? || t.kind.FlowMappingEnd? ==>
      Depth(s + [t]) == if Depth(s) > 0 then Depth(s) - 1 else 0
  {
    assert (s + [t])[..|s|] == s;
  }

  lemma SameDepth(s: seq<Token>, u: seq<Token>, t: Token)
    requires Depth(s) == Depth(u)
    ensures Depth(s + [t]) == Depth(u + [t])
  {
    hide Depth;
    DepthSnoc(s, t);
    DepthSnoc(u, t);
  }

  lemma {:induction false} DepthInsert(s: seq<Token>, n: nat, t: Token)
    requires n <= |s| && !IsFlowToken(t)
    ensures Depth(Insert(s, n, t)) == Depth(s)
    decreases |s|
  {
    hide Depth;
    if n == |s| {
      assert Insert(s, n, t) == s + [t];
      DepthSnoc(s, t);
    } else {
      var u, last := s[..|s| - 1], s[|s| - 1];
      assert Insert(s, n, t) == Insert(u, n, t) + [last] && s == u + [last];
      hide Insert;
      DepthInsert(u, n, t);
      SameDepth(Insert(u, n, t), u, last);
    }
  }

  /** The tokens that mark an item or a key of a block collection. */
  predicate MarksBlock(t: Token) {
    t.kind.BlockEntry? || t.kind.Key?
  }

  predicate InnermostAt(s: seq<Token>, column: nat) {
    Open(s).Some? && Open(s).value != [] && Open(s).value[|Open(s).value| - 1] == column
  }

  predicate AlignedAt(s: seq<Token>, j: nat)
    requires j < |s|
  {
    MarksBlock(s[j]) && Depth(s[..j]) == 0 ==> InnermostAt(s[..j], s[j].start.column)
  }

  predicate Aligned(s: seq<Token>) {
    forall j | 0 <= j < |s| :: AlignedAt(s, j)
  }

  /** Since the token `n` the text has not left the flow level `level`. */
  predicate StaysIn(s: seq<Token>, n: nat, level: nat) {
    n <= |s| && forall j | n <= j <= |s| :: Depth(s[..j]) >= level
  }

  /** No block entry and no key of a block mapping stands behind the token `n`. */
  predicate Quiet(s: seq<Token>, n: nat) {
    forall j | n <= j < |s| && MarksBlock(s[j]) :: Depth(s[..j]) > 0
  }

  predicate KeysTidy(made: seq<Token>, keys: seq<SimpleKey>) {
    && (forall i | 0 <= i < |keys| && keys[i].possible :: StaysIn(made, keys[i].number, i))
    && (keys != [] && keys[0].possible ==> Quiet(made, keys[0].number))
  }

  predicate Tidy(p: Progress) {
    && p.flowLevel == Depth(p.made) && |p.keys| == p.flowLevel + 1
    && Aligned(p.made) && KeysTidy(p.made, p.keys)
  }

  // ---- Appending ----

  lemma AlignedSnoc(s: seq<Token>, t: Token)
    requires Aligned(s) && (MarksBlock(t) && Depth(s) == 0 ==> InnermostAt(s, t.start.column))
    ensures Aligned(s + [t])
  {
    var r := s + [t];
    forall j | 0 <= j < |r| ensures AlignedAt(r, j) {
      assert r[..j] == s[..j];
      if j < |s| {
        assert AlignedAt(s, j);
      } else {
        assert s[..j] == s;
      }
    }
  }

  lemma StaysInSnoc(s: seq<Token>, n: nat, level: nat, t: Token)
    requires StaysIn(s, n, level) && Depth(s + [t]) >= level
    ensures StaysIn(s + [t], n, level)
  {
    var r := s + [t];
    forall j | n <= j <= |r| ensures Depth(r[..j]) >= level {
      if j <= |s| {
        assert r[..j] == s[..j];
      } else {
        assert r[..j] == r;
      }
    }
  }

  lemma QuietSnoc(s: seq<Token>, n: nat, t: Token)
    requires Quiet(s, n) && n <= |s| && (MarksBlock(t) ==> Depth(s) > 0)
    ensures Quiet(s + [t], n)
  {
    var r := s + [t];
    forall j | n <= j < |r| && MarksBlock(r[j]) ensures Depth(r[..j]) > 0 {
      assert r[..j] == s[..j];
      if j == |s| {
        assert s[..j] == s;
      }
    }
  }

  lemma KeysTidySnoc(made: seq<Token>, keys: seq<SimpleKey>, t: Token)
    requires KeysTidy(made, keys) && |keys| <= Depth(made + [t]) + 1
    requires keys != [] && keys[0].possible && MarksBlock(t) ==> Depth(made) > 0
    ensures KeysTidy(made + [t], keys)
  {
    hide StaysIn, Quiet, Depth;
    forall i | 0 <= i < |keys| && keys[i].possible ensures StaysIn(made + [t], keys[i].number, i) {
      StaysInSnoc(made, keys[i].number, i, t);
    }
    if keys != [] && keys[0].possible {
      StaysInIs(made, keys[0].number, 0);
      QuietSnoc(made, keys[0].number, t);
    }
  }

  lemma StaysInIs(s: seq<Token>, n: nat, level: nat)
    requires StaysIn(s, n, level)
    ensures n <= |s| && Depth(s[..n]) >= level
  {
  }

  lemma KeysTidyFewer(made: seq<Token>, keys: seq<SimpleKey>, fewer: seq<SimpleKey>)
    requires KeysTidy(made, keys) && |fewer| <= |keys| && forall i | 0 <= i < |fewer| :: fewer[i] == keys[i] || !fewer[i].possible
    ensures KeysTidy(made, fewer)
  {
    hide StaysIn, Quiet;
  }

  /** A token that is no flow token. */
  lemma TidySnoc(p: Progress, t: Token, m: Mark)
    requires Tidy(p) && !IsFlowToken(t)
    requires MarksBlock(t) && p.flowLevel == 0 ==> InnermostAt(p.made, t.start.column) && !p.keys[0].possible
    ensures Tidy(p.(made := p.made + [t], mark := m))
  {
    hide Depth, Aligned, KeysTidy, InnermostAt;
    DepthSnoc(p.made, t);
    AlignedSnoc(p.made, t);
    KeysTidySnoc(p.made, p.keys, t);
  }

  // ---- Inserting ----

  lemma AlignedInsert(s: seq<Token>, n: nat, t: Token)
    requires Aligned(s) && n <= |s| && !IsFlowToken(t) && Quiet(s, n)
    requires MarksBlock(t) && Depth(s[..n]) == 0 ==> InnermostAt(s[..n], t.start.column)
    ensures Aligned(Insert(s, n, t))
  {
    var r := Insert(s, n, t);
    forall j | 0 <= j < |r| ensures AlignedAt(r, j) {
      if j <= n {
        assert r[..j] == s[..j];
        assert j < n ==> AlignedAt(s, j);
      } else {
        assert r[..j] == Insert(s[..j - 1], n, t) && r[j] == s[j - 1];
        DepthInsert(s[..j - 1], n, t);
      }
    }
  }

  lemma QuietInsert(s: seq<Token>, b: nat, n: nat, t: Token)
    requires b <= n <= |s| && !IsFlowToken(t) && Quiet(s, b) && (MarksBlock(t) ==> Depth(s[..n]) > 0)
    ensures Quiet(Insert(s, n, t), b)
  {
    var r := Insert(s, n, t);
    forall j | b <= j < |r| && MarksBlock(r[j]) ensures Depth(r[..j]) > 0 {
      if j <= n {
        assert r[..j] == s[..j];
      } else {
        assert r[..j] == Insert(s[..j - 1], n, t) && r[j] == s[j - 1];
        DepthInsert(s[..j - 1], n, t);
      }
    }
  }

  lemma StaysInInsert(s: seq<Token>, b: nat, level: nat, n: nat, t: Token)
    requires StaysIn(s, b, level) && b <= n <= |s| && !IsFlowToken(t)
    ensures StaysIn(Insert(s, n, t), b, level)
  {
    var r := Insert(s, n, t);
    forall j | b <= j <= |r| ensures Depth(r[..j]) >= level {
      if j <= n {
        assert r[..j] == s[..j];
      } else {
        assert r[..j] == Insert(s[..j - 1], n, t);
        DepthInsert(s[..j - 1], n, t);
      }
    }
  }

  lemma KeysTidyInsert(made: seq<Token>, keys: seq<SimpleKey>, n: nat, t: Token)
    requires KeysTidy(made, keys) && n <= |made| && !IsFlowToken(t)
    requires forall i | 0 <= i < |keys| && keys[i].possible :: keys[i].number <= n
    requires keys != [] && keys[0].possible && MarksBlock(t) ==> Depth(made[..n]) > 0
    ensures KeysTidy(Insert(made, n, t), keys)
  {
    hide StaysIn, Quiet, Depth, Insert;
    forall i | 0 <= i < |keys| && keys[i].possible ensures StaysIn(Insert(made, n, t), keys[i].number, i) {
      StaysInInsert(made, keys[i].number, i, n, t);
    }
    if keys != [] && keys[0].possible {
      QuietInsert(made, keys[0].number, n, t);
    }
  }

  lemma {:induction false} OpenStays(s: seq<Token>, n: nat)
    requires n <= |s| && NoBlockTokens(s[n..])
    ensures Open(s[..n]) == Open(s)
    decreases |s|
  {
    if n == |s| {
      assert s[..n] == s;
    } else {
      var u, last := s[..|s| - 1], s[|s| - 1];
      assert s == u + [last] && last == s[n..][|s| - 1 - n] && u[..n] == s[..n];
      assert forall i | 0 <= i < |u[n..]| :: u[n..][i] == s[n..][i];
      OpenSnoc(u, last);
      OpenStays(u, n);
    }
  }

  lemma LevelInnermost(q: Queue, column: nat)
    requires LevelsFit(q) && q.indent == column
    ensures InnermostAt(q.made, column)
  {
    assert Levels(q)[|q.indents|] == q.indent;
    assert |q.indents| > 0;
  }

  /** The tokens of a simple key in a block: its KEY stands where its mapping begins. */
  lemma BottomKeyAligned(p: Progress)
    requires Fits(QueueOf(p)) && BottomFits(QueueOf(p)) && Tidy(p) && p.flowLevel == 0 && p.keys[0].possible
    ensures p.keys[0].number <= |p.made| && Aligned(WithSimpleKey(QueueOf(p)))
  {
    hide Depth, Open, KeysFit, KeysPlaced, AlignedAt, IsFlowToken;
    var k, q := p.keys[0], QueueOf(p);
    var n := k.number;
    var key, start := Token(Key, k.mark, k.mark), Token(BlockMappingStart, k.mark, k.mark);
    OpenStays(p.made, n);
    AddedAreNoFlow(k.mark);
    if p.indent < k.mark.column {
      var first := Insert(p.made, n, start);
      AlignedInsert(p.made, n, start);
      QuietBehind(p.made, n, start);
      assert first[..n + 1] == p.made[..n] + [start];
      OpenSnoc(p.made[..n], start);
      AlignedInsert(first, n + 1, key);
      assert Insert(first, n + 1, key) == WithSimpleKey(q);
    } else {
      LevelInnermost(q, k.mark.column);
      AlignedInsert(p.made, n, key);
    }
  }

  lemma AddedAreNoFlow(m: Mark)
    ensures !IsFlowToken(Token(Key, m, m)) && !IsFlowToken(Token(BlockMappingStart, m, m)) && !IsFlowToken(Token(BlockEnd, m, m))
  {
  }

  lemma QuietBehind(s: seq<Token>, n: nat, t: Token)
    requires Quiet(s, n) && n <= |s| && !IsFlowToken(t)
    ensures Quiet(Insert(s, n, t), n + 1)
  {
    var r := Insert(s, n, t);
    forall j | n + 1 <= j < |r| && MarksBlock(r[j]) ensures Depth(r[..j]) > 0 {
      assert r[..j] == Insert(s[..j - 1], n, t) && r[j] == s[j - 1];
      DepthInsert(s[..j - 1], n, t);
    }
  }

  /** Inside a flow collection nothing has to be aligned behind the key. */
  lemma FlowKeyTidy(p: Progress)
    requires Fits(QueueOf(p)) && Tidy(p) && p.flowLevel > 0 && p.keys[p.flowLevel].possible
    ensures
      var n := p.keys[p.flowLevel].number;
      n <= |p.made| && Depth(p.made[..n]) > 0 && Quiet(p.made, n)
  {
    hide Depth, KeysFit, LevelsFit, KeysPlaced, Aligned;
    assert StaysIn(p.made, p.keys[p.flowLevel].number, p.flowLevel);
  }

  lemma FoundTidy(p: Progress)
    requires Fits(QueueOf(p)) && BottomFits(QueueOf(p)) && Tidy(p) && p.keys[p.flowLevel].possible
    ensures p.keys[p.flowLevel].number <= |p.made|
    ensures
      var q := KeyFound(QueueOf(p));
      Tidy(p.(made := q.made, keys := q.keys))
  {
    hide Depth, LevelsFit, KeysPlaced, Quiet, StaysIn, Aligned, Insert, InnermostAt, BottomFits, IsFlowToken, KeyFits;
    var k, q := p.keys[p.flowLevel], QueueOf(p);
    var n, key, start := k.number, Token(Key, k.mark, k.mark), Token(BlockMappingStart, k.mark, k.mark);
    var keys := p.keys[p.flowLevel := k.(possible := false)];
    KeysTidyFewer(p.made, p.keys, keys);
    AddedAreNoFlow(k.mark);
    assert forall i | 0 <= i < |keys| && keys[i].possible :: keys[i] == p.keys[i] && keys[i].number <= n;
    if p.flowLevel == 0 {
      BottomKeyAligned(p);
    } else {
      FlowKeyTidy(p);
      AlignedInsert(p.made, n, key);
    }
    DepthInsert(p.made, n, key);
    KeysTidyInsert(p.made, keys, n, key);
    var made := Insert(p.made, n, key);
    if p.flowLevel == 0 && p.indent < k.mark.column {
      InsertLength(p.made, n, key);
      DepthInsert(made, n, start);
      KeysTidyInsert(made, keys, n, start);
    }
  }

  // ---- The steps ----

  lemma {:induction false} UnrolledTidy(p: Progress, column: int)
    requires Fits(QueueOf(p)) && Tidy(p) && column >= -1
    ensures var u := Unrolled(p, column);
            && Fits(QueueOf(u)) && Tidy(u) && u.keys == p.keys && u.flowLevel == p.flowLevel && u.mark == p.mark
            && u.keyAllowed == p.keyAllowed && (p.flowLevel == 0 ==> u.indent <= column)
    decreases |p.indents|
  {
    hide Fits, Tidy;
    if p.flowLevel == 0 && p.indent > column {
      var t := Token(BlockEnd, p.mark, p.mark);
      AppendEnd(QueueOf(p), t);
      AddedAreNoFlow(p.mark);
      TidySnoc(p, t, p.mark);
      var n := |p.indents| - 1;
      var q := p.(made := p.made + [t], indents := p.indents[..n], indent := p.indents[n]);
      TidyIs(p.(made := p.made + [t]), q);
      UnrolledTidy(q, column);
    }
  }

  lemma TidyIs(p: Progress, q: Progress)
    requires Tidy(p) && q.made == p.made && q.keys == p.keys && q.flowLevel == p.flowLevel
    ensures Tidy(q)
  {
  }

  lemma RolledTidy(p: Progress, kind: Kind)
    requires Fits(QueueOf(p)) && Tidy(p) && (kind.BlockSequenceStart? || kind.BlockMappingStart?)
    requires p.flowLevel == 0 ==> p.indent <= p.mark.column
    ensures var r := Rolled(p, kind);
            && Tidy(r) && r.keys == p.keys && r.flowLevel == p.flowLevel && r.mark == p.mark
            && (p.flowLevel == 0 ==> InnermostAt(r.made, p.mark.column))
  {
    hide KeysFit, LevelsFit, KeysPlaced, Tidy, InnermostAt;
    if p.flowLevel == 0 {
      var t := Token(kind, p.mark, p.mark);
      if p.indent < p.mark.column {
        AppendStart(QueueOf(p), t);
        TidySnoc(p, t, p.mark);
        TidyIs(p.(made := p.made + [t]), Rolled(p, kind));
      }
      LevelInnermost(QueueOf(Rolled(p, kind)), p.mark.column);
    }
  }

  lemma DroppedTidy(p: Progress)
    requires Tidy(p) && Dropped(p).Some?
    ensures var d := Dropped(p).value;
            Tidy(d) && d.made == p.made && d.flowLevel == p.flowLevel && !d.keys[p.flowLevel].possible
  {
    hide Depth, Aligned, KeysTidy;
    KeysTidyFewer(p.made, p.keys, Dropped(p).value.keys);
  }

  lemma KeyEndedTidy(p: Progress, t: Token, keyAllowed: bool)
    requires Tidy(p) && !IsFlowToken(t) && (MarksBlock(t) && p.flowLevel == 0 ==> InnermostAt(p.made, t.start.column))
    ensures var r := KeyEnded(p, t, keyAllowed); r.Some? ==> Tidy(r.value)
  {
    hide Tidy, InnermostAt, IsFlowToken, MarksBlock;
    if Dropped(p).Some? {
      DroppedTidy(p);
      var d := Dropped(p).value;
      TidySnoc(d, t, t.end);
      TidyIs(d.(made := d.made + [t], mark := t.end), KeyEnded(p, t, keyAllowed).value);
    }
  }

  /** A key may begin at the token. */
  lemma SavedTidy(p: Progress, t: Token)
    requires Tidy(p) && BeginsKey(t) && Saved(p).Some?
    ensures var d := Saved(p).value;
            d.made == p.made && d.flowLevel == p.flowLevel && |d.keys| == |p.keys|
            && KeysTidy(p.made + [t], d.keys) && Aligned(p.made + [t])
            && Depth(p.made + [t]) == p.flowLevel + (if IsFlowToken(t) then 1 else 0)
  {
    DepthSnoc(p.made, t);
    hide Depth, AlignedAt;
    AlignedSnoc(p.made, t);
    hide Aligned;
    KeysTidySnoc(p.made, p.keys, t);
    var d, made := Saved(p).value, p.made + [t];
    if p.keyAllowed {
      assert made[..|p.made|] == p.made && made[..|made|] == made;
      assert StaysIn(made, |p.made|, p.flowLevel);
      assert Quiet(made, |p.made|);
      hide StaysIn, Quiet;
      assert forall i | 0 <= i < p.flowLevel :: d.keys[i] == p.keys[i];
    }
  }

  lemma KeyTakenTidy(p: Progress, t: Token, beforeBreak: bool)
    requires Tidy(p) && BeginsKey(t) && !IsFlowToken(t)
    ensures var r := KeyTaken(p, t, beforeBreak); r.Some? ==> Tidy(r.value)
  {
    hide Depth, Aligned, KeysTidy, Saved;
    if Saved(p).Some? {
      SavedTidy(p, t);
    }
  }

  lemma FlowOpenedTidy(p: Progress, t: Token)
    requires Tidy(p) && (t.kind.FlowSequenceStart? || t.kind.FlowMappingStart?)
    ensures var r := FlowOpened(p, t); r.Some? ==> Tidy(r.value)
  {
    hide Depth, Aligned, StaysIn, Quiet, Saved;
    if Saved(p).Some? {
      SavedTidy(p, t);
      var d := Saved(p).value;
      assert KeysTidy(p.made + [t], d.keys + [NO_KEY]);
    }
  }

  lemma FlowClosedTidy(p: Progress, t: Token)
    requires Tidy(p) && (t.kind.FlowSequenceEnd? || t.kind.FlowMappingEnd?)
    ensures var r := FlowClosed(p, t); r.Some? ==> Tidy(r.value)
  {
    hide Depth, Aligned, StaysIn, Quiet, Dropped;
    if Dropped(p).Some? {
      DroppedTidy(p);
      var d := Dropped(p).value;
      var keys := if d.flowLevel > 0 then d.keys[..|d.keys| - 1] else d.keys;
      DepthSnoc(p.made, t);
      AlignedSnoc(p.made, t);
      KeysTidyFewer(p.made, d.keys, keys);
      KeysTidySnoc(p.made, keys, t);
    }
  }

  lemma ValueMarkedTidy(p: Progress, t: Token)
    requires Fits(QueueOf(p)) && BottomFits(QueueOf(p)) && Tidy(p) && t.kind.Value?
    requires p.flowLevel == 0 ==> p.indent <= p.mark.column
    ensures var r := ValueMarked(p, t); r.Some? ==> Tidy(r.value)
  {
    hide Fits, BottomFits, Tidy, KeyFound, Rolled;
    TidyKeys(p);
    if ValueMarked(p, t).Some? {
      if p.keys[|p.keys| - 1].possible {
        FoundTidy(p);
        var q := KeyFound(QueueOf(p));
        var f := p.(made := q.made, keys := q.keys);
        TidySnoc(f, t, t.end);
        TidyIs(f.(made := q.made + [t], mark := t.end), ValueMarked(p, t).value);
      } else {
        RolledTidy(p, BlockMappingStart);
        var f := Rolled(p, BlockMappingStart);
        TidySnoc(f, t, t.end);
        TidyIs(f.(made := f.made + [t], mark := t.end), ValueMarked(p, t).value);
      }
    }
  }

  lemma TidyKeys(p: Progress)
    requires Tidy(p)
    ensures |p.keys| == p.flowLevel + 1
  {
  }

  lemma DispatchedTidy(p: Progress, l: Lexeme)
    requires Fits(QueueOf(p)) && BottomFits(QueueOf(p)) && Tidy(p) && IsLexeme(l) && p.mark == l.token.start
    requires p.flowLevel == 0 ==> p.indent <= p.mark.column
    ensures var r := Dispatched(p, l); r.Some? ==> Tidy(r.value)
  {
    hide Fits, BottomFits, Tidy, InnermostAt, KeyEnded, BlockMarked, ValueMarked, KeyTaken, FlowOpened, FlowClosed, Unrolled, Rolled;
    var t := l.token;
    match t.kind {
      case StreamEnd => FinishedTidy(p);
      case Directive | DocumentStart | DocumentEnd =>
        UnrolledTidy(p, -1);
        KeyEndedTidy(Unrolled(p, -1), t, false);
      case FlowSequenceStart | FlowMappingStart => FlowOpenedTidy(p, t);
      case FlowSequenceEnd | FlowMappingEnd => FlowClosedTidy(p, t);
      case FlowEntry | BlockScalar => KeyEndedTidy(p, t, true);
      case BlockEntry | Key => BlockMarkedTidy(p, t);
      case Value => ValueMarkedTidy(p, t);
      case _ => KeyTakenTidy(p, t, l.beforeBreak);
    }
  }

  lemma BlockMarkedTidy(p: Progress, t: Token)
    requires Fits(QueueOf(p)) && Tidy(p) && (t.kind.BlockEntry? || t.kind.Key?) && p.mark == t.start
    requires p.flowLevel == 0 ==> p.indent <= p.mark.column
    ensures var r := BlockMarked(p, t); r.Some? ==> Tidy(r.value)
  {
    hide Fits, Tidy, InnermostAt, KeyEnded, Rolled;
    RolledTidy(p, BlockStart(t));
    KeyEndedTidy(Rolled(p, BlockStart(t)), t, t.kind.BlockEntry? || p.flowLevel == 0);
  }

  lemma FinishedTidy(p: Progress)
    requires Fits(QueueOf(p)) && BottomFits(QueueOf(p)) && Tidy(p)
    ensures var r := Finished(p); r.Some? ==> Tidy(r.value)
  {
    hide Fits, BottomFits, Tidy, InnermostAt, KeyEnded, Unrolled;
    var m := NextLine(p.mark);
    Advance(QueueOf(p), m);
    TidyIs(p, p.(mark := m));
    UnrolledTidy(p.(mark := m), -1);
    KeyEndedTidy(Unrolled(p.(mark := m), -1), Token(Kind.StreamEnd, m, m), false);
  }

  /** Each step of the scanner keeps the tokens aligned. */
  lemma FetchedTidy(p: Progress, l: Lexeme)
    requires Fits(QueueOf(p)) && BottomFits(QueueOf(p)) && Tidy(p) && IsLexeme(l) && Reaches(p.mark, l.token.start)
    ensures var r := Fetched(p, l); r.Some? ==> Tidy(r.value)
  {
    hide Fits, BottomFits, Dispatched, Unrolled, Depth, Aligned, KeysTidy, IsAdded, IsStale;
    var m := l.token.start;
    var keys := Fresh(p.keys, m);
    FreshIsFewer(p.keys, m);
    Advance(QueueOf(p), m);
    FewerFit(QueueOf(p).(mark := m), keys);
    KeysTidyFewer(p.made, p.keys, keys);
    var f := p.(mark := m, keys := keys, keyAllowed := p.keyAllowed || (l.afterBreak && p.flowLevel == 0));
    assert Tidy(f);
    hide Tidy;
    UnrolledTidy(f, m.column);
    KeyHoldsLevel(QueueOf(f));
    HoldsBottom(f);
    DispatchedTidy(Unrolled(f, m.column), l);
  }

  lemma FreshIsFewer(keys: seq<SimpleKey>, m: Mark)
    ensures Fewer(keys, Fresh(keys, m)) && forall i | 0 <= i < |keys| :: !IsStale(Fresh(keys, m)[i], m)
  {
  }

  lemma HoldsBottom(f: Progress)
    requires BottomFits(QueueOf(f)) && f.keys != [] && (f.keys[0].possible ==> f.indent <= f.mark.column)
    requires Unrolled(f, f.mark.column).keys == f.keys
    ensures BottomFits(QueueOf(Unrolled(f, f.mark.column)))
  {
  }

  lemma StartedTidy(from: Mark)
    ensures Tidy(Started(from))
  {
    var s := [Token(Kind.StreamStart, from, from)];
    assert s[..0] == [];
    DepthSnoc([], s[0]);
    assert [] + s == s;
  }

  lemma FreshTidy(p: Progress)
    requires Tidy(p)
    ensures Tidy(p.(keys := Fresh(p.keys, p.mark)))
  {
    hide Depth, Aligned, KeysTidy, Fresh;
    FreshIsFewer(p.keys, p.mark);
    KeysTidyFewer(p.made, p.keys, Fresh(p.keys, p.mark));
  }

  lemma UndrainedFits(q: Queue)
    requires Fits(q) && BottomFits(q)
    ensures Fits(q.(parsed := 0)) && BottomFits(q.(parsed := 0))
  {
    hide KeyFits, KeysPlaced, Open;
    assert LevelsFit(q.(parsed := 0));
  }
}
