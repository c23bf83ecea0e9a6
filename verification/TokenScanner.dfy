/** The scanner over the tokens of a text: it hands over each token as soon as nothing can be
    inserted before it any more. */
module TokenScanner {
  import opened Events
  import opened Tokens
  import opened TokenQueue
  import opened Alignment

  class Scanner {
    var tokens: seq<Token>
    var parsed: nat
    var keys: seq<SimpleKey>
    var keyAllowed: bool
    var indents: seq<int>
    var indent: int
    var flowLevel: nat
    var mark: Mark
    var started: bool
    ghost var drained: seq<Token>

    ghost function Made(): seq<Token>
      reads this
    {
      drained + tokens
    }

    ghost function Now(): Queue
      reads this
    {
      Queue(Made(), parsed, keys, indents, indent, flowLevel, mark)
    }

    ghost function All(): Progress
      reads this
    {
      Progress(Made(), keys, keyAllowed, indents, indent, flowLevel, mark)
    }

    /** A step was taken, or failed. */
    ghost predicate Reached(ok: bool, r: Option<Progress>)
      reads this
    {
      if ok then r == Some(All()) else r.None?
    }

    ghost predicate Valid()
      reads this
    {
      && parsed == |drained|
      && if started then Fits(Now()) && BottomFits(Now()) else Now() == Queue([], 0, [], [], -1, 0, mark)
    }

    /** The scanner is at the start of a token, in a block that is not deeper than it. */
    ghost predicate Ready(t: Token)
      reads this
    {
      && started && Valid() && mark == t.start && !IsAdded(t)
      && (flowLevel == 0 ==> indent <= mark.column)
      && (forall i | 0 <= i < |keys| :: !IsStale(keys[i], mark))
    }

    /** A token of the text was added to the queue, behind all the others of the text. */
    twostate predicate Took(t: Token)
      reads this
    {
      && started && Valid() && mark == t.end && tokens != []
      && Own(Made()) == Own(old(Made())) + [t]
      && drained == old(drained)
    }

    constructor (m: Mark)
      ensures Valid() && !started && drained == [] && mark == m
    {
      tokens, parsed, keys, keyAllowed, indents, indent, flowLevel := [], 0, [], false, [], -1, 0;
      mark, started, drained := m, false, [];
    }

    // ---- Simple keys ----

    /** Drops the keys that have become too long; fails if one of them was required. */
    method StaleKeys() returns (ok: bool)
      requires started && Valid()
      modifies this`keys
      ensures ok ==> Valid() && Fewer(old(keys), keys)
      ensures ok ==> forall i | 0 <= i < |keys| :: !IsStale(keys[i], mark)
      ensures ok <==> !Overdue(old(keys), mark)
      ensures ok ==> keys == Fresh(old(keys), mark)
    {
      ghost var q := Now();
      for i := 0 to |keys|
        invariant Fewer(old(keys), keys)
        invariant forall j | 0 <= j < i :: !IsStale(keys[j], mark)
        invariant forall j | i <= j < |keys| :: keys[j] == old(keys)[j]
        invariant forall j | 0 <= j < i :: keys[j] == Fresh(old(keys), mark)[j]
        invariant forall j | 0 <= j < i :: !(IsStale(old(keys)[j], mark) && old(keys)[j].required)
      {
        if IsStale(keys[i], mark) {
          if keys[i].required {
            return false;
          }
          keys := keys[i := keys[i].(possible := false)];
        }
      }
      FewerFit(q, keys);
      return true;
    }

    method RemoveKey() returns (ok: bool)
      requires keys != []
      modifies this`keys
      ensures Reached(ok, Dropped(old(All())))
    {
      var top := |keys| - 1;
      if keys[top].possible && keys[top].required {
        return false;
      }
      keys := keys[top := keys[top].(possible := false)];
      return true;
    }

    /** Notes that a key may begin at the token that comes next. */
    method SaveKey() returns (ok: bool)
      requires keys != [] && parsed == |drained|
      modifies this`keys
      ensures Reached(ok, Saved(old(All())))
    {
      ok := true;
      if keyAllowed {
        var key := SimpleKey(true, flowLevel == 0 && indent == mark.column, parsed + |tokens|, mark);
        ok := RemoveKey();
        if ok {
          keys := keys[|keys| - 1 := key];
          assert keys == old(keys)[|keys| - 1 := key];
        }
      }
    }

    // ---- Indentation ----

    /** Opens a block collection at a deeper column, at the end of the queue. */
    method RollIndent(column: nat, kind: Kind)
      requires started && parsed == |drained| && Fits(Now()) && column == mark.column
      requires kind.BlockSequenceStart? || kind.BlockMappingStart?
      modifies this`tokens, this`indents, this`indent
      ensures Fits(Now()) && Own(Made()) == Own(old(Made()))
      ensures All() == Rolled(old(All()), kind)
    {
      if flowLevel == 0 && indent < column {
        ghost var t := Token(kind, mark, mark);
        AppendStart(Now(), t);
        assert Made() + [t] == drained + (tokens + [t]);
        indents, indent := indents + [indent], column;
        tokens := tokens + [Token(kind, mark, mark)];
      }
    }

    /** Closes the block collections that are deeper than a column. */
    method UnrollIndent(column: int)
      requires started && parsed == |drained| && Fits(Now()) && column >= -1
      modifies this`tokens, this`indents, this`indent
      ensures Fits(Now()) && Own(Made()) == Own(old(Made()))
      ensures All() == Unrolled(old(All()), column)
      ensures flowLevel > 0 || old(indent) <= column ==> Now() == old(Now())
      ensures flowLevel == 0 ==> indent <= column
    {
      hide Fits, Own, Unrolled;
      if flowLevel > 0 {
        UnrollsNone(All(), column);
        return;
      }
      while indent > column
        invariant Fits(Now()) && Own(Made()) == Own(old(Made()))
        invariant old(indent) <= column ==> Now() == old(Now())
        invariant Unrolled(All(), column) == Unrolled(old(All()), column)
        decreases |indents|
      {
        ghost var t := Token(BlockEnd, mark, mark);
        AppendEnd(Now(), t);
        UnrollsOne(All(), column);
        assert Made() + [t] == drained + (tokens + [t]);
        tokens := tokens + [Token(BlockEnd, mark, mark)];
        indent, indents := indents[|indents| - 1], indents[..|indents| - 1];
      }
      UnrollsNone(All(), column);
    }

    // ---- Fetching tokens ----

    /** Appends a token of the text. */
    method Enqueue(t: Token)
      requires started && Valid() && Reaches(mark, t.end) && !IsAdded(t)
      modifies this`tokens, this`mark
      ensures Took(t) && tokens == old(tokens) + [t] && All() == Appended(old(All()), t)
    {
      AppendOwn(Now(), t);
      Advance(Now().(made := Made() + [t]), t.end);
      assert Made() + [t] == drained + (tokens + [t]);
      tokens, mark := tokens + [t], t.end;
    }

    method FetchStreamStart()
      requires !started && Valid()
      modifies this
      ensures started && Valid() && mark == old(mark) && drained == []
      ensures Own(Made()) == [Token(Kind.StreamStart, mark, mark)] && tokens != [] && All() == Started(mark)
    {
      hide Fits, BottomFits, Own;
      indent, keys, keyAllowed, started := -1, [NO_KEY], true, true;
      assert Made() == [];
      FirstFits(mark);
      var t := Token(Kind.StreamStart, mark, mark);
      ghost var before := Made();
      Enqueue(t);
      assert [] + [t] == [t];
    }

    /** Fetches an anchor, an alias, a tag, or a quoted or plain scalar. */
    method FetchKeyToken(t: Token, beforeBreak: bool) returns (ok: bool)
      requires Ready(t) && BeginsKey(t) && Precedes(t.start, t.end)
      modifies this
      ensures ok ==> Took(t)
      ensures Reached(ok, KeyTaken(old(All()), t, beforeBreak))
    {
      ok := QueueKeyToken(t);
      keyAllowed := t.kind.PlainScalar? && beforeBreak;
    }

    method QueueKeyToken(t: Token) returns (ok: bool)
      requires Ready(t) && BeginsKey(t) && Precedes(t.start, t.end)
      modifies this`keys, this`tokens, this`mark
      ensures ok ==> Took(t)
      ensures
        var saved := Saved(old(All()));
        if ok then saved.Some? && All() == Appended(saved.value, t) else saved.None?
    {
      hide KeysFit, KeyFits, LevelsFit, KeysPlaced, BottomFits, Own, Open, IsStale;
      ghost var q := Now();
      ok := SaveKey();
      if ok {
        assert q.made + [t] == drained + (tokens + [t]);
        if keyAllowed {
          AppendKey(q, t, flowLevel == 0 && indent == mark.column);
          OwnKey(q.made, t);
        } else {
          AppendOwn(q, t);
          Advance(q.(made := q.made + [t]), t.end);
        }
        tokens, mark := tokens + [t], t.end;
      }
    }

    method FetchFlowStart(t: Token) returns (ok: bool)
      requires Ready(t) && (t.kind.FlowSequenceStart? || t.kind.FlowMappingStart?) && Precedes(t.start, t.end)
      modifies this
      ensures ok ==> Took(t)
      ensures Reached(ok, FlowOpened(old(All()), t))
    {
      hide Fits, BottomFits, Own, IsAdded;
      ok := QueueKeyToken(t);
      if ok {
        PushLevel(Now());
        keys, flowLevel, keyAllowed := keys + [NO_KEY], flowLevel + 1, true;
      }
    }

    method FetchFlowEnd(t: Token) returns (ok: bool)
      requires Ready(t) && Reaches(t.start, t.end)
      modifies this
      ensures ok ==> Took(t)
      ensures Reached(ok, FlowClosed(old(All()), t))
    {
      hide KeysFit, LevelsFit, KeysPlaced, BottomFits, Own, IsStale;
      ok := DropKey();
      if ok {
        if flowLevel > 0 {
          PopLevel(Now());
          flowLevel, keys := flowLevel - 1, keys[..|keys| - 1];
        }
        keyAllowed := false;
        Enqueue(t);
      }
    }

    /** Fetches a flow entry or a block scalar. */
    method FetchAfterKey(t: Token) returns (ok: bool)
      requires Ready(t) && Reaches(t.start, t.end)
      modifies this
      ensures ok ==> Took(t)
      ensures Reached(ok, KeyEnded(old(All()), t, true))
    {
      ghost var q := Now();
      ok := RemoveKey();
      if ok {
        FewerFit(q, keys);
        keyAllowed := true;
        Enqueue(t);
      }
    }

    /** Fetches a block entry or the indicator of a complex key. */
    method FetchBlockIndicator(t: Token) returns (ok: bool)
      requires Ready(t) && (t.kind.BlockEntry? || t.kind.Key?) && Reaches(t.start, t.end)
      modifies this
      ensures ok ==> Took(t)
      ensures Reached(ok, BlockMarked(old(All()), t))
    {
      hide KeysFit, KeyFits, LevelsFit, KeysPlaced, Own, Open, IsStale;
      ok := flowLevel > 0 || keyAllowed;
      if ok {
        RollIndent(mark.column, if t.kind.BlockEntry? then BlockSequenceStart else BlockMappingStart);
        ok := DropKey();
        if ok {
          keyAllowed := t.kind.BlockEntry? || flowLevel == 0;
          Enqueue(t);
        }
      }
    }

    /** Fetches the indicator of a value.  A simple key gets its KEY, and its BLOCK-MAPPING-START
        if it needs one, before its first token; it is on the same line and short enough. */
    method FetchValue(t: Token) returns (ok: bool)
      requires Ready(t) && t.kind.Value? && Reaches(t.start, t.end)
      modifies this
      ensures ok ==> Took(t)
      ensures Reached(ok, ValueMarked(old(All()), t))
      ensures old(keys)[|old(keys)| - 1].possible ==>
        var k := old(keys)[|old(keys)| - 1];
        && ok
        && parsed <= k.number < |old(Made())| && old(Made())[k.number].start == k.mark
        && k.mark.line == t.start.line && t.start.index <= k.mark.index + 1024
        && Made() == WithSimpleKey(old(Now())) + [t]
    {
      hide Fits, BottomFits, Own, WithSimpleKey, ValueMarked, KeyFound, IsStale;
      KeyInReach(Now(), t);
      HasKeys(Now());
      ghost var p, q := All(), Now();
      if keys[|keys| - 1].possible {
        FoundMakes(q);
        PlaceKey();
        keyAllowed, ok := false, true;
        FoundIs(p, t, q, All());
      } else {
        NotFoundIs(p, t);
        ok := OpenValue();
      }
      if ok {
        Enqueue(t);
      }
    }

    /** Starts the value of a complex key. */
    method OpenValue() returns (ok: bool)
      requires started && Valid() && !keys[|keys| - 1].possible
      modifies this
      ensures ok <==> old(flowLevel) > 0 || old(keyAllowed)
      ensures ok ==> All() == Rolled(old(All()), BlockMappingStart).(keyAllowed := flowLevel == 0)
      ensures ok ==> started && Valid() && mark == old(mark) && drained == old(drained) && Own(Made()) == Own(old(Made()))
    {
      hide KeysFit, KeyFits, LevelsFit, KeysPlaced, BottomFits, Own, Open, IsStale;
      if flowLevel == 0 {
        if !keyAllowed {
          return false;
        }
        RollIndent(mark.column, BlockMappingStart);
        BottomDead(Now());
      }
      keyAllowed := flowLevel == 0;
      return true;
    }

    /** Puts the tokens of a simple key into the queue. */
    method PlaceKey()
      requires started && Valid() && keys[|keys| - 1].possible
      modifies this`tokens, this`keys, this`indents, this`indent
      ensures old(keys)[|old(keys)| - 1].number <= |old(Made())|
      ensures Now() == KeyFound(old(Now()))
      ensures started && Valid() && Own(Made()) == Own(old(Made()))
    {
      hide KeysFit, LevelsFit, KeysPlaced, BottomFits, Own, Insert, WithSimpleKey;
      ghost var q := Now();
      KeyFoundFits(q);
      KeyInQueue(q);
      hide Fits;
      InsertKeyTokens();
      var top := |keys| - 1;
      keys := keys[top := keys[top].(possible := false)];
      assert Now() == KeyFound(q);
    }

    method InsertKeyTokens()
      requires parsed == |drained| && keys != [] && parsed <= keys[|keys| - 1].number <= |Made()|
      modifies this`tokens, this`indents, this`indent
      ensures
        var k, q := keys[|keys| - 1], old(Now());
        && Made() == WithSimpleKey(q)
        && if flowLevel == 0 && q.indent < k.mark.column
           then indents == q.indents + [q.indent] && indent == k.mark.column
           else indents == q.indents && indent == q.indent
    {
      hide Insert;
      var k := keys[|keys| - 1];
      InsertInQueue(k.number, Token(Key, k.mark, k.mark));
      if flowLevel == 0 && indent < k.mark.column {
        indents, indent := indents + [indent], k.mark.column;
        InsertInQueue(k.number, Token(BlockMappingStart, k.mark, k.mark));
      }
    }

    method InsertInQueue(number: nat, t: Token)
      requires parsed == |drained| && parsed <= number <= |Made()|
      modifies this`tokens
      ensures Made() == Insert(old(Made()), number, t) && |Made()| == |old(Made())| + 1
    {
      var n := number - parsed;
      tokens := tokens[..n] + [t] + tokens[n..];
    }

    /** Fetches a directive or an indicator of a document. */
    method FetchOutermost(t: Token) returns (ok: bool)
      requires Ready(t) && Reaches(t.start, t.end)
      modifies this
      ensures ok ==> Took(t)
      ensures Reached(ok, KeyEnded(Unrolled(old(All()), -1), t, false))
    {
      hide KeysFit, KeyFits, LevelsFit, KeysPlaced, BottomFits, Own, Open, IsStale;
      UnrollIndent(-1);
      ok := DropKey();
      if ok {
        keyAllowed := false;
        Enqueue(t);
      }
    }

    /** Drops the key of the current level after block tokens were made. */
    method DropKey() returns (ok: bool)
      requires started && parsed == |drained| && Fits(Now()) && (flowLevel > 0 ==> BottomFits(Now()))
      modifies this`keys
      ensures ok ==> Valid()
      ensures Reached(ok, Dropped(old(All())))
    {
      hide KeysFit, LevelsFit, KeysPlaced;
      ghost var q := Now();
      ok := RemoveKey();
      if ok {
        FewerFit(q, keys);
      }
    }

    method FetchStreamEnd() returns (ok: bool)
      requires started && Valid()
      modifies this
      ensures ok ==> Ended()
      ensures Reached(ok, Finished(old(All())))
    {
      hide Fits, BottomFits, Own, Open, IsStale, Unrolled;
      if mark.column != 0 {
        Advance(Now(), Mark(mark.index, mark.line + 1, 0));
        mark := Mark(mark.index, mark.line + 1, 0);
      }
      UnrollIndent(-1);
      ok := DropKey();
      if ok {
        keyAllowed := false;
        LastLevels(Now());
        OpenSnoc(Made(), Token(Kind.StreamEnd, mark, mark));
        Enqueue(Token(Kind.StreamEnd, mark, mark));
      }
    }

    /** The end of the stream was reached: outside flow collections all blocks are closed, and
        no simple key can follow. */
    twostate predicate Ended()
      reads this
    {
      && started && Valid() && drained == old(drained)
      && tokens != [] && tokens[|tokens| - 1] == Token(Kind.StreamEnd, mark, mark)
      && Own(Made()) == Own(old(Made())) + [Token(Kind.StreamEnd, mark, mark)]
      && mark == NextLine(old(mark))
      && (flowLevel == 0 ==> Open(Made()) == Some([]))
      && mark.column == 0
    }

    /** Fetches the next token of the text. */
    method FetchNextToken(l: Lexeme) returns (ok: bool)
      requires started && Valid() && IsLexeme(l) && Reaches(mark, l.token.start)
      modifies this
      ensures Reached(ok, Fetched(old(All()), l))
      ensures ok && !l.token.kind.StreamEnd? ==> Took(l.token)
      ensures ok && l.token.kind.StreamEnd? ==>
        && started && Valid() && drained == old(drained)
        && tokens != [] && tokens[|tokens| - 1] == TokenOf(l) && mark == NextLine(l.token.start)
        && Own(Made()) == Own(old(Made())) + [TokenOf(l)]
        && (flowLevel == 0 ==> Open(Made()) == Some([]))
    {
      hide Fits, BottomFits, Own, Open, IsAdded, Dispatched, Unrolled, Fresh, Overdue, IsStale;
      var t := l.token;
      Advance(Now(), t.start);
      mark := t.start;
      if l.afterBreak && flowLevel == 0 {
        keyAllowed := true;
      }
      ok := StaleKeys();
      if ok {
        Settle();
        ok := Dispatch(l);
      }
    }

    /** Closes the blocks that are deeper than the current column. */
    method Settle()
      requires started && Valid() && forall i | 0 <= i < |keys| :: !IsStale(keys[i], mark)
      modifies this`tokens, this`indents, this`indent
      ensures All() == Unrolled(old(All()), mark.column)
      ensures Valid() && Own(Made()) == Own(old(Made())) && (flowLevel == 0 ==> indent <= mark.column)
    {
      hide KeysFit, LevelsFit, KeysPlaced, Own, IsStale;
      KeyHoldsLevel(Now());
      UnrollIndent(mark.column);
    }

    method Dispatch(l: Lexeme) returns (ok: bool)
      requires Ready(l.token) && IsLexeme(l)
      modifies this
      ensures Reached(ok, Dispatched(old(All()), l))
      ensures ok && !l.token.kind.StreamEnd? ==> Took(l.token)
      ensures ok && l.token.kind.StreamEnd? ==>
        && started && Valid() && drained == old(drained)
        && tokens != [] && tokens[|tokens| - 1] == TokenOf(l) && mark == NextLine(l.token.start)
        && Own(Made()) == Own(old(Made())) + [TokenOf(l)]
        && (flowLevel == 0 ==> Open(Made()) == Some([]))
    {
      hide Fits, BottomFits, Own, Open, IsStale;
      var t := l.token;
      if l.bad {
        return false;
      }
      if t.kind.StreamEnd? {
        ok := FetchStreamEnd();
      } else if t.kind.Directive? || t.kind.DocumentStart? || t.kind.DocumentEnd? {
        ok := FetchOutermost(t);
      } else if t.kind.FlowSequenceStart? || t.kind.FlowMappingStart? {
        ok := FetchFlowStart(t);
      } else if t.kind.FlowSequenceEnd? || t.kind.FlowMappingEnd? {
        ok := FetchFlowEnd(t);
      } else if t.kind.FlowEntry? || t.kind.BlockScalar? {
        ok := FetchAfterKey(t);
      } else if t.kind.BlockEntry? || t.kind.Key? {
        ok := FetchBlockIndicator(t);
      } else if t.kind.Value? {
        ok := FetchValue(t);
      } else {
        ok := FetchKeyToken(t, l.beforeBreak);
      }
    }

    /** The scanner is where the whole text up to here leads, but for keys that it has found stale. */
    ghost predicate Keeps(r: Option<Progress>)
      reads this
    {
      && r.Some? && All() == r.value.(keys := keys)
      && (keys == r.value.keys || (keys == Fresh(r.value.keys, mark) && !Overdue(r.value.keys, mark)))
    }

    /** The scanner has read the first `n` lexemes. */
    ghost predicate HasRead(lexemes: seq<Lexeme>, from: Mark, n: nat)
      reads this
    {
      && Valid() && n <= |lexemes|
      && (if started then Own(Made()) == OwnBefore(lexemes, from, n) && Keeps(Scanned(lexemes, from, n)) && Tidy(All())
          else n == 0 && mark == from && drained == [])
      && (n < |lexemes| ==> Reaches(mark, lexemes[n].token.start))
      && (n == |lexemes| ==>
            && started && Made() != [] && Made()[|Made()| - 1].kind.StreamEnd? && mark.column == 0
            && (flowLevel == 0 ==> Open(Made()) == Some([])))
    }

    /** Whether a possible key begins at the head of the queue. */
    method HeadMayBeKey() returns (b: bool)
      ensures b <==> exists i | 0 <= i < |keys| :: keys[i].possible && keys[i].number == parsed
    {
      b := false;
      for i := 0 to |keys|
        invariant b <==> exists j | 0 <= j < i :: keys[j].possible && keys[j].number == parsed
      {
        if keys[i].possible && keys[i].number == parsed {
          b := true;
        }
      }
    }

    /** Fetches one more token. */
    method FetchOne(lexemes: seq<Lexeme>, ghost from: Mark, n: nat) returns (ok: bool, n': nat)
      requires IsInput(lexemes, from) && HasRead(lexemes, from, n) && n < |lexemes|
      modifies this
      ensures n <= n' <= |lexemes|
      ensures ok ==> HasRead(lexemes, from, n') && started && drained == old(drained) && tokens != []
      ensures ok ==> n < n' || !old(started)
      ensures !ok ==> Scanned(lexemes, from, n').None?
    {
      hide Fits, BottomFits, Own, Open, IsAdded, Fetched, Overdue, Fresh, IsStale, Tidy, Started;
      n' := n;
      if !started {
        FetchStreamStart();
        StartedTidy(mark);
        ok := true;
      } else {
        UndrainedFits(Now());
        FetchedTidy(All(), lexemes[n]);
        KeptFetches(Scanned(lexemes, from, n).value, keys, lexemes[n]);
        ok := FetchNextToken(lexemes[n]);
        n' := n + 1;
      }
    }

    /** Fetches tokens until the head of the queue is sure to stay there. */
    method FetchMoreTokens(lexemes: seq<Lexeme>, ghost from: Mark, n: nat) returns (ok: bool, n': nat)
      requires IsInput(lexemes, from) && HasRead(lexemes, from, n) && (n == |lexemes| ==> tokens != [])
      modifies this
      ensures n <= n' <= |lexemes|
      ensures ok ==> HasRead(lexemes, from, n') && started && drained == old(drained) && tokens != []
      ensures ok ==> forall i | 0 <= i < |keys| && keys[i].possible :: keys[i].number != parsed
      ensures ok && n' == n && old(started) ==> tokens == old(tokens)
      ensures !ok ==> ScannedWhole(lexemes, from).None?
      ensures ok && n' == |lexemes| ==> ScannedWhole(lexemes, from) == Some(Made())
    {
      hide Fits, BottomFits, Own, Open, IsAdded, IsStale, Fetched, Scanned, Overdue, Fresh, IsInput, Tidy;
      ok, n' := true, n;
      while true
        invariant ok && n <= n' <= |lexemes| && HasRead(lexemes, from, n') && drained == old(drained)
        invariant n' == |lexemes| ==> tokens != []
        invariant n' == n && old(started) ==> started && tokens == old(tokens)
        decreases |lexemes| - n', !started
      {
        if tokens != [] {
          if n' == |lexemes| {
            AllStale(Now());
          }
          ghost var p := Scanned(lexemes, from, n').value;
          KeptOverdue(p, keys);
          ghost var q := All();
          ok := StaleKeys();
          if !ok {
            OverdueFails(lexemes, from, n');
            return;
          }
          FreshTidy(q);
          var wait := HeadMayBeKey();
          if !wait {
            return;
          }
        }
        ok, n' := FetchOne(lexemes, from, n');
        if !ok {
          FailsForGood(lexemes, from, n', |lexemes|);
          return;
        }
      }
    }

    /** Hands over the head of the queue. */
    method Dequeue() returns (t: Token)
      requires started && Valid() && tokens != []
      requires forall i | 0 <= i < |keys| && keys[i].possible :: keys[i].number != parsed
      modifies this`tokens, this`parsed, this`drained
      ensures Valid() && All() == old(All()) && tokens == old(tokens)[1..] && t == old(tokens)[0] && drained == old(drained) + [t]
    {
      hide Fits, BottomFits;
      Drain(Now());
      t := tokens[0];
      ghost var made := Made();
      drained, tokens, parsed := drained + [t], tokens[1..], parsed + 1;
      assert Made() == made;
    }

    /** Gives the next token. */
    method Scan(lexemes: seq<Lexeme>, ghost from: Mark, n: nat) returns (ok: bool, n': nat, t: Token)
      requires IsInput(lexemes, from) && HasRead(lexemes, from, n) && (n == |lexemes| ==> tokens != [])
      modifies this
      ensures n <= n' <= |lexemes|
      ensures ok ==> HasRead(lexemes, from, n') && started && drained == old(drained) + [t]
      ensures ok ==> (t.kind.StreamEnd? <==> n' == |lexemes| && tokens == [])
      ensures ok && n' == n && old(started) ==> |tokens| < |old(tokens)|
      ensures !ok ==> ScannedWhole(lexemes, from).None?
      ensures ok && n' == |lexemes| ==> ScannedWhole(lexemes, from) == Some(Made())
    {
      hide Fits, BottomFits, Own, Open, Overdue, Fresh, ScannedWhole, Scanned, Tidy;
      t := Token(Kind.StreamStart, mark, mark);
      ok, n' := FetchMoreTokens(lexemes, from, n);
      if ok {
        if tokens[0].kind.StreamEnd? {
          EndIsLast(Made(), lexemes, from, n', |drained|);
        }
        t := Dequeue();
      }
    }
  }

  /** A whole run over a text gives the tokens that it would give if none were handed over before
      all are known, and fails exactly if that would.  In them the tokens of the text stand in
      their order, each simple key has its KEY directly before it, every block entry and every key
      of a block mapping stands at the column of its collection, no prefix closes more block
      collections than it opens, and, if the text ends outside flow collections, all of them are
      closed. */
  method ScanStream(lexemes: seq<Lexeme>, from: Mark) returns (ok: bool, tokens: seq<Token>, flowLevel: nat)
    requires IsInput(lexemes, from)
    ensures forall k | 0 <= k <= |tokens| :: Open(tokens[..k]).Some?
    ensures ok ==> Own(tokens) == OwnBefore(lexemes, from, |lexemes|)
    ensures ok ==> KeysPlaced(tokens)
    ensures ok && flowLevel == 0 ==> Open(tokens) == Some([])
    ensures ok ==> Aligned(tokens)
    ensures ok <==> ScannedWhole(lexemes, from).Some?
    ensures ok ==> ScannedWhole(lexemes, from) == Some(tokens)
  {
    hide Own, Open, BottomFits, IsInput, KeysFit, LevelsFit, KeysPlaced, Scanned, ScannedWhole, Aligned, KeysTidy, Depth;
    var s := new Scanner(from);
    var n := 0;
    tokens, ok := [], true;
    FirstReached(lexemes, from);
    var isOver := false;
    while !isOver
      invariant ok && n <= |lexemes| && s.HasRead(lexemes, from, n) && tokens == s.drained && fresh(s)
      invariant isOver ==> n == |lexemes| && s.tokens == [] && ScannedWhole(lexemes, from) == Some(s.Made())
      invariant !isOver && n == |lexemes| ==> s.tokens != []
      invariant forall k | 0 <= k <= |tokens| :: Open(tokens[..k]).Some?
      decreases !isOver, |lexemes| - n, !s.started, |s.tokens|
    {
      var t;
      ok, n, t := s.Scan(lexemes, from, n);
      if !ok {
        break;
      }
      tokens := tokens + [t];
      isOver := t.kind.StreamEnd?;
      PrefixesOpen(s.Now(), tokens, s.tokens);
    }
    flowLevel := s.flowLevel;
    assert ok ==> s.Made() == tokens;
  }

  lemma PrefixesOpen(q: Queue, s: seq<Token>, rest: seq<Token>)
    requires Fits(q) && q.made == s + rest
    ensures forall k | 0 <= k <= |s| :: Open(s[..k]).Some?
  {
    hide KeysFit, KeysPlaced;
    forall k | 0 <= k <= |s|
      ensures Open(s[..k]).Some?
    {
      OpenPrefix(q.made, k);
      assert q.made[..k] == s[..k];
    }
  }

  lemma FirstReached(lexemes: seq<Lexeme>, from: Mark)
    requires IsInput(lexemes, from)
    ensures lexemes != [] && Reaches(from, lexemes[0].token.start) && Open([]) == Some([])
  {
  }
}
