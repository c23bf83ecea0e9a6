/** Token sequences as the scanner makes them: marks, simple keys, and the block structure that
    the inserted tokens spell out. */
module Tokens {
  import opened Events

  datatype Mark = Mark(index: nat, line: nat, column: nat)

  /** The scanner only moves on. */
  predicate Reaches(m: Mark, n: Mark) {
    m.index <= n.index && m.line <= n.line && (m.line == n.line ==> m.column <= n.column)
  }

  predicate Precedes(m: Mark, n: Mark) {
    Reaches(m, n) && (m.line < n.line || m.column < n.column)
  }

  datatype Kind =
    | StreamStart | StreamEnd | Directive | DocumentStart | DocumentEnd
    | BlockSequenceStart | BlockMappingStart | BlockEnd
    | FlowSequenceStart | FlowSequenceEnd | FlowMappingStart | FlowMappingEnd
    | BlockEntry | FlowEntry | Key | Value | Alias | Anchor | Tag | BlockScalar | FlowScalar | PlainScalar

  datatype Token = Token(kind: Kind, start: Mark, end: Mark)

  /** A place where a simple key may have begun; `number` is the position of its first token in
      the whole output. */
  datatype SimpleKey = SimpleKey(possible: bool, required: bool, number: nat, mark: Mark)

  const NO_KEY := SimpleKey(false, false, 0, Mark(0, 0, 0))

  predicate OpensBlock(t: Token) {
    t.kind.BlockSequenceStart? || t.kind.BlockMappingStart?
  }

  predicate IsBlockToken(t: Token) {
    OpensBlock(t) || t.kind.BlockEnd?
  }

  /** A KEY token that no indicator in the text stands for. */
  predicate IsSimpleKey(t: Token) {
    t.kind.Key? && t.start == t.end
  }

  /** A token that the scanner adds to those that stand in the text. */
  predicate IsAdded(t: Token) {
    IsBlockToken(t) || IsSimpleKey(t)
  }

  /** The tokens that a simple key may begin with. */
  predicate BeginsKey(t: Token) {
    || t.kind.FlowSequenceStart? || t.kind.FlowMappingStart?
    || t.kind.Alias? || t.kind.Anchor? || t.kind.Tag? || t.kind.FlowScalar? || t.kind.PlainScalar?
  }

  predicate NoBlockTokens(s: seq<Token>) {
    forall i | 0 <= i < |s| :: !IsBlockToken(s[i])
  }

  /** The tokens that stand in the text. */
  function Own(s: seq<Token>): seq<Token> {
    if s == [] then []
    else if IsAdded(s[|s| - 1]) then Own(s[..|s| - 1])
    else Own(s[..|s| - 1]) + [s[|s| - 1]]
  }

  /** The columns of the block collections that are open after some tokens, outermost first; None
      if a BLOCK-END has no start. */
  function Open(s: seq<Token>): Option<seq<int>> {
    if s == [] then Some([])
    else
      var t := s[|s| - 1];
      match Open(s[..|s| - 1])
      case None => None
      case Some(columns) =>
        if OpensBlock(t) then Some(columns + [t.start.column])
        else if !t.kind.BlockEnd? then Some(columns)
        else if columns == [] then None
        else Some(columns[..|columns| - 1])
  }

  /** Each added KEY stands directly before the token that its key begins with. */
  predicate KeysPlaced(s: seq<Token>) {
    forall i | 0 <= i < |s| && IsSimpleKey(s[i]) ::
      i + 1 < |s| && s[i + 1].start == s[i].start && BeginsKey(s[i + 1])
  }

  // ---- Appending ----

  lemma {:induction false} OwnSnoc(s: seq<Token>, t: Token)
    ensures Own(s + [t]) == if IsAdded(t) then Own(s) else Own(s) + [t]
  {
    assert (s + [t])[..|s|] == s;
  }

  lemma {:induction false} OpenSnoc(s: seq<Token>, t: Token)
    ensures !IsBlockToken(t) ==> Open(s + [t]) == Open(s)
    ensures OpensBlock(t) && Open(s).Some? ==> Open(s + [t]) == Some(Open(s).value + [t.start.column])
    ensures t.kind.BlockEnd? && Open(s).Some? && Open(s).value != [] ==>
      Open(s + [t]) == Some(Open(s).value[..|Open(s).value| - 1])
  {
    assert (s + [t])[..|s|] == s;
  }

  lemma PlacedSnoc(s: seq<Token>, t: Token)
    requires KeysPlaced(s) && !IsSimpleKey(t)
    ensures KeysPlaced(s + [t])
  {
  }

  // ---- Inserting ----

  function Insert(s: seq<Token>, n: nat, t: Token): seq<Token>
    requires n <= |s|
  {
    s[..n] + [t] + s[n..]
  }

  /** An added token leaves the others as they are. */
  lemma {:induction false} OwnInsert(s: seq<Token>, n: nat, t: Token)
    requires n <= |s| && IsAdded(t)
    ensures Own(Insert(s, n, t)) == Own(s)
    decreases |s|
  {
    if n == |s| {
      assert Insert(s, n, t) == s + [t];
      OwnSnoc(s, t);
    } else {
      var u, last := s[..|s| - 1], s[|s| - 1];
      assert Insert(s, n, t) == Insert(u, n, t) + [last] && s == u + [last];
      OwnInsert(u, n, t);
      OwnSnoc(u, last);
      OwnSnoc(Insert(u, n, t), last);
    }
  }

  lemma {:induction false} OpenInsertOther(s: seq<Token>, n: nat, t: Token)
    requires n <= |s| && !IsBlockToken(t)
    ensures Open(Insert(s, n, t)) == Open(s)
    decreases |s|
  {
    if n == |s| {
      assert Insert(s, n, t) == s + [t];
      OpenSnoc(s, t);
    } else {
      var u, last := s[..|s| - 1], s[|s| - 1];
      assert Insert(s, n, t) == Insert(u, n, t) + [last];
      assert Insert(s, n, t)[..|s|] == Insert(u, n, t);
      OpenInsertOther(u, n, t);
    }
  }

  /** A start that is inserted where only other tokens follow opens the innermost collection. */
  lemma {:induction false} OpenInsertStart(s: seq<Token>, n: nat, t: Token)
    requires n <= |s| && OpensBlock(t) && NoBlockTokens(s[n..]) && Open(s).Some?
    ensures Open(Insert(s, n, t)) == Some(Open(s).value + [t.start.column])
    decreases |s|
  {
    if n == |s| {
      assert Insert(s, n, t) == s + [t];
      OpenSnoc(s, t);
    } else {
      var u, last := s[..|s| - 1], s[|s| - 1];
      assert Insert(s, n, t) == Insert(u, n, t) + [last] && s == u + [last];
      assert last == s[n..][|s| - 1 - n];
      assert forall i | 0 <= i < |u[n..]| :: u[n..][i] == s[n..][i];
      OpenSnoc(u, last);
      OpenInsertStart(u, n, t);
      OpenSnoc(Insert(u, n, t), last);
    }
  }

  /** Where no KEY stands before, another KEY can be put. */
  lemma PlacedInsert(s: seq<Token>, n: nat, t: Token)
    requires n < |s| && KeysPlaced(s) && (n > 0 ==> !IsSimpleKey(s[n - 1]))
    requires IsSimpleKey(t) ==> t.start == s[n].start && BeginsKey(s[n])
    ensures KeysPlaced(Insert(s, n, t))
  {
    var r := Insert(s, n, t);
    forall i | 0 <= i < |r| && IsSimpleKey(r[i])
      ensures i + 1 < |r| && r[i + 1].start == r[i].start && BeginsKey(r[i + 1])
    {
      if i < n {
        assert r[i] == s[i];
      } else if i > n {
        assert r[i] == s[i - 1];
      }
    }
  }

  // ---- Prefixes ----

  /** No BLOCK-END is without its start in any prefix. */
  lemma {:induction false} OpenPrefix(s: seq<Token>, n: nat)
    requires n <= |s| && Open(s).Some?
    ensures Open(s[..n]).Some?
    decreases |s|
  {
    if n == |s| {
      assert s[..n] == s;
    } else {
      var u := s[..|s| - 1];
      OpenPrefix(u, n);
      assert u[..n] == s[..n];
    }
  }

  /** A token of the text is among those of the text. */
  lemma {:induction false} OwnHas(s: seq<Token>, i: nat)
    requires i < |s| && !IsAdded(s[i])
    ensures s[i] in Own(s)
    decreases |s|
  {
    if i < |s| - 1 {
      OwnHas(s[..|s| - 1], i);
    }
  }
}
