/** Folded scalars: what the emitter writes, and when the scanner reads it back.  The emitter folds
    a line also if it begins with a space, and the scanner does not undo that. */
module FoldedScalars {
  import opened Characters
  import opened Layout
  import opened FlowScanner
  import B = BlockScanner
  import L = LiteralScalars
  import Folding
  import D = Dispatch


  // ---- The text that is written ----

  /** Where the writer stands: behind line breaks or inside a line, and whether the last line
      began with a blank. */
  datatype Place = Place(pen: Pen, breaks: bool, leading: bool)

  const START := Place(Pen(0, true, true), true, true)

  /** The first character behind the line breaks at the start of `s`. */
  function Beyond(s: Text): nat {
    if s != [] && IsBreak(s[0]) then Beyond(s[1..]) else Look(s, 0)
  }

  /** A line feed is doubled if the scanner would fold it. */
  predicate Doubles(s: Text, at: Place) {
    !at.breaks && !at.leading && Look(s, 0) == LF && !IsBlankZ(Beyond(s))
  }

  /** The space at the start of `s` is replaced by a line break. */
  predicate Bends(s: Text, at: Place, l: Settings) {
    !at.breaks && Look(s, 0) == SPACE && Look(s, 1) != SPACE && at.pen.column > l.bestWidth
  }

  function Piece(s: Text, at: Place, l: Settings): Text
    requires s != []
  {
    if IsBreak(s[0]) then (if Doubles(s, at) then BreakOf(l.lineBreak) else []) + BreakAs(s[0], l.lineBreak)
    else (if at.breaks || Bends(s, at, l) then IndentText(l, at.pen) else []) + (if Bends(s, at, l) then [] else [s[0]])
  }

  function Next(s: Text, at: Place, l: Settings): Place
    requires s != []
  {
    if IsBreak(s[0]) then Place(Pen(0, at.pen.whitespace, true), true, at.leading)
    else
      var p := if at.breaks || Bends(s, at, l) then Indented(l) else at.pen;
      Place((if Bends(s, at, l) then p else Move(p, 1)).(indention := false), false,
            if at.breaks then IsBlank(s[0]) else at.leading)
  }

  /** The text for the rest of a value. */
  function Body(s: Text, at: Place, l: Settings): Text
    decreases |s|
  {
    if s == [] then [] else Piece(s, at, l) + Body(s[1..], Next(s, at, l), l)
  }

  function FoldedText(value: Text, p: Pen, l: Settings, bestIndent: nat): Text {
    Opening(GREATER, p) + L.Hints(value, bestIndent) + BreakOf(l.lineBreak) + Body(value, START, l)
  }

  // ---- The writer ----

  method SkipBreaks(value: Text, i: nat) returns (k: nat)
    requires i <= |value|
    ensures i <= k <= |value| && Look(value, k) == Beyond(value[i..])
  {
    k := i;
    while k < |value| && IsBreak(value[k])
      invariant i <= k <= |value| && Beyond(value[i..]) == Beyond(value[k..])
    {
      assert value[k..][1..] == value[k + 1..];
      k := k + 1;
    }
  }

  method WriteBreaks(w: Writer, l: Settings, value: Text, i: nat, breaks: bool, leading: bool)
    requires w.Valid() && i < |value| && IsBreak(value[i])
    modifies w
    ensures w.Valid()
    ensures w.text == old(w.text) + Piece(value[i..], Place(old(w.CurrentPen()), breaks, leading), l)
    ensures Place(w.CurrentPen(), true, leading) == Next(value[i..], Place(old(w.CurrentPen()), breaks, leading), l)
    ensures w.whitespace == old(w.whitespace) && w.indention
  {
    hide BreakOf, BreakAs, ColumnOf, IsBlankZ;
    var k := SkipBreaks(value, i);
    ghost var s, before := value[i..], w.text;
    if !breaks && !leading && value[i] == LF && !IsBlankZ(Look(value, k)) {
      w.PutBreak(l.lineBreak);
    }
    w.WriteBreak(value[i], l.lineBreak);
    w.indention := true;
    ghost var double := if Doubles(s, Place(old(w.CurrentPen()), breaks, leading)) then BreakOf(l.lineBreak) else [];
    assert before + [] == before;
    Assoc(before, double, BreakAs(value[i], l.lineBreak));
  }

  method WriteInLine(w: Writer, l: Settings, value: Text, i: nat, breaks: bool, leading: bool) returns (leading': bool)
    requires w.Valid() && i < |value| && !IsBreak(value[i])
    modifies w
    ensures w.Valid()
    ensures w.text == old(w.text) + Piece(value[i..], Place(old(w.CurrentPen()), breaks, leading), l)
    ensures Place(w.CurrentPen(), false, leading') == Next(value[i..], Place(old(w.CurrentPen()), breaks, leading), l)
    ensures (old(w.whitespace) ==> w.whitespace) && !w.indention
  {
    hide IndentText, ColumnOf;
    leading' := leading;
    ghost var before, p := w.text, w.CurrentPen();
    assert before + [] == before;
    if breaks {
      w.WriteIndent(l);
      leading' := IsBlank(value[i]);
    }
    if !breaks && value[i] == SPACE && Look(value, i + 1) != SPACE && w.column > l.bestWidth {
      w.WriteIndent(l);
      assert IndentText(l, p) + [] == IndentText(l, p);
    } else {
      w.Put(value[i]);
      Assoc(before, IndentText(l, p), [value[i]]);
      assert [] + [value[i]] == [value[i]];
    }
    w.indention := false;
  }

  lemma BodyStep(value: Text, i: nat, at: Place, l: Settings, before: Text)
    requires i < |value|
    ensures
      before + Body(value[i..], at, l)
      == (before + Piece(value[i..], at, l)) + Body(value[i + 1..], Next(value[i..], at, l), l)
  {
    hide Piece, Next;
    assert value[i..][1..] == value[i + 1..];
  }

  method WriteLines(w: Writer, l: Settings, value: Text)
    requires w.Valid()
    modifies w
    ensures w.Valid() && w.text == old(w.text) + Body(value, Place(old(w.CurrentPen()), true, true), l)
    ensures old(w.whitespace) ==> w.whitespace
    ensures w.indention == if value == [] then old(w.indention) else IsBreak(value[|value| - 1])
  {
    hide *;
    var i, breaks, leading := 0, true, true;
    ghost var goal := w.text + Body(value, Place(w.CurrentPen(), true, true), l);
    assert value[0..] == value;
    while i < |value|
      invariant 0 <= i <= |value| && w.Valid()
      invariant w.text + Body(value[i..], Place(w.CurrentPen(), breaks, leading), l) == goal
      invariant old(w.whitespace) ==> w.whitespace
      invariant w.indention == if i == 0 then old(w.indention) else IsBreak(value[i - 1])
    {
      BodyStep(value, i, Place(w.CurrentPen(), breaks, leading), l, w.text);
      if IsBreak(value[i]) {
        WriteBreaks(w, l, value, i, breaks, leading);
        breaks := true;
      } else {
        leading := WriteInLine(w, l, value, i, breaks, leading);
        breaks := false;
      }
      i := i + 1;
    }
    BodyEnd(value[i..], Place(w.CurrentPen(), breaks, leading), l, w.text);
  }

  lemma BodyEnd(s: Text, at: Place, l: Settings, before: Text)
    requires s == []
    ensures before + Body(s, at, l) == before
  {
  }

  method WriteFolded(w: Writer, l: Settings, value: Text, bestIndent: nat) returns (openEnded: bool)
    requires w.Valid() && 2 <= bestIndent <= 9
    modifies w
    ensures w.Valid() && w.text == old(w.text) + FoldedText(value, old(w.CurrentPen()), l, bestIndent)
    ensures openEnded <==> L.ChompingFor(value).Keep?
    ensures w.whitespace && w.indention == L.LeavesLine(value)
  {
    hide Body, L.Hints, L.ChompingFor, BreakOf, ColumnOf;
    ghost var p := w.CurrentPen();
    w.WriteIndicator([GREATER], true, false, false);
    assert w.text == old(w.text) + Opening(GREATER, p);
    openEnded := L.WriteHints(w, value, bestIndent);
    w.PutBreak(l.lineBreak);
    w.indention, w.whitespace := true, true;
    assert Place(w.CurrentPen(), true, true) == START;
    WriteLines(w, l, value);
    L.Regroup(old(w.text), Opening(GREATER, p), L.Hints(value, bestIndent), BreakOf(l.lineBreak), Body(value, START, l));
  }

  // ---- The scanner keeps what it has read ----

  predicate Extends(r: Scanned, v: Text) {
    r.Value? ==> v <= r.value
  }

  lemma {:induction false} TextExtends(t: Text, column: nat, v: Text, blank: bool, indent: nat, i: int, c: B.Manner)
    requires indent > 0
    ensures Extends(B.ScanText(t, column, v, blank, indent, i, c), v)
    decreases |t|, 2
  {
    if t == [] || t[0] == NUL {
      BreaksExtend(t, column, B.Lines(v, [], [], blank), indent, 0, i, c);
    } else if IsBreak(t[0]) {
      BreaksExtend(t[BreakWidth(t)..], 0, B.Lines(v, BreakText(t), [], blank), indent, 0, i, c);
    } else {
      TextExtends(t[1..], column + 1, v + [t[0]], blank, indent, i, c);
    }
  }

  lemma {:induction false} BreaksExtend(t: Text, column: nat, n: B.Lines, indent: nat, m: nat, i: int, c: B.Manner)
    ensures Extends(B.ScanBreaks(t, column, n, indent, m, i, c), n.value)
    decreases |t|, 1
  {
    hide B.Settled;
    if B.IsShort(column, indent) && t != [] && t[0] == SPACE {
      BreaksExtend(t[1..], column + 1, n, indent, m, i, c);
    } else if B.IsShort(column, indent) && Look(t, 0) == TAB {
    } else if t != [] && IsBreak(t[0]) {
      BreaksExtend(t[BreakWidth(t)..], 0, n.(trailing := n.trailing + BreakText(t)), indent, B.Max(m, column), i, c);
    } else {
      NextExtends(t, column, n, B.Settled(indent, B.Max(m, column), i), i, c);
    }
  }

  lemma {:induction false} NextExtends(t: Text, column: nat, n: B.Lines, indent: nat, i: int, c: B.Manner)
    requires indent > 0 && !(t != [] && IsBreak(t[0]))
    ensures Extends(B.ScanNext(t, column, n, indent, i, c), n.value)
    decreases |t|, 0
  {
    if column == indent && Look(t, 0) != NUL {
      TextExtends(t[1..], column + 1, B.Joined(n, t[0], c.literal) + [t[0]], IsBlank(t[0]), indent, i, c);
    }
  }

  // ---- The round trip ----

  /** No line that begins with a blank is folded. */
  predicate Faithful(s: Text, at: Place, l: Settings)
    decreases |s|
  {
    s != [] ==> !(Bends(s, at, l) && at.leading) && Faithful(s[1..], Next(s, at, l), l)
  }

  /** No space stands at the end of a line. */
  predicate NoSpaceAtEnd(s: Text) {
    && (s != [] ==> s[|s| - 1] != SPACE)
    && (forall i | 0 <= i < |s| - 1 :: s[i] == SPACE ==> !IsBreak(s[i + 1]))
  }

  predicate Inside(s: Text, k: L.Past, rest: Text, l: Settings, c: B.Manner) {
    L.Inside(s, k, rest, l, c) && !c.literal && NoSpaceAtEnd(s)
  }

  lemma StillInside(s: Text, k: L.Past, rest: Text, l: Settings, c: B.Manner)
    requires s != [] && Inside(s, k, rest, l, c)
    ensures Inside(s[1..], L.PastNext(k, s[0]), rest, l, c)
  {
    hide L.Inside;
    L.StillInside(s, k, rest, l, c);
    var t := s[1..];
    forall i | 0 <= i < |t| - 1 ensures t[i] == SPACE ==> !IsBreak(t[i + 1]) {
      assert t[i] == s[i + 1] && t[i + 1] == s[i + 1 + 1];
    }
  }

  /** What the scanner will have read when it has read the breaks up to the next line. */
  predicate Owes(n: B.Lines, s: Text, all: Text) {
    var x := Beyond(s);
    if !IsBlankZ(x) && B.Folds(n, x, false) then n.trailing != [] && all == n.value + n.trailing
    else all == n.value + n.leading + n.trailing
  }

  /** Inside a line: the rest of the value comes back exactly if it is folded faithfully. */
  lemma {:induction false} InLine(s: Text, at: Place, l: Settings, v: Text, rest: Text, column: nat, i: int, c: B.Manner)
    requires Inside(s, L.InText, rest, l, c) && column > l.indent && !at.breaks && !at.pen.indention
    ensures B.ScanText(Body(s, at, l) + rest, column, v, at.leading, l.indent, i, c) == Value(v + s, L.Leftover(rest))
            <==> Faithful(s, at, l)
    decreases |s|, 1
  {
    hide Body, Faithful, Piece, Next, Inside, L.Leftover, B.ScanText;
    if s == [] {
      LastInLine(s, at, l, v, rest, column, i, c);
    } else {
      InsideIs(s, rest, l, c);
      StillInside(s, L.InText, rest, l, c);
      BodyIs(s, at, l);
      var next := Next(s, at, l);
      var t := Body(s[1..], next, l) + rest;
      Assoc(Piece(s, at, l), Body(s[1..], next, l), rest);
      TakeOne(v, s);
      if IsBreak(s[0]) {
        AtBreak(s, at, l, v, rest, column, i, c);
      } else if Bends(s, at, l) {
        AtBend(s, at, l, v, rest, column, i, c);
      } else {
        LetterReads(s, at, l, v, t, column, i, c, rest);
        InLine(s[1..], next, l, v + [s[0]], rest, column + 1, i, c);
      }
    }
  }

  lemma LastInLine(s: Text, at: Place, l: Settings, v: Text, rest: Text, column: nat, i: int, c: B.Manner)
    requires s == [] && Inside(s, L.InText, rest, l, c) && column > l.indent && !at.breaks && !at.pen.indention
    ensures B.ScanText(Body(s, at, l) + rest, column, v, at.leading, l.indent, i, c) == Value(v + s, L.Leftover(rest))
    ensures Faithful(s, at, l)
  {
    assert Body(s, at, l) + rest == rest && v + s == v;
    L.LineEnds(v, at.leading, rest, l, column, i, c);
  }

  lemma InsideIs(s: Text, rest: Text, l: Settings, c: B.Manner)
    requires s != [] && Inside(s, L.InText, rest, l, c)
    ensures l.indent > 0 && (!IsBreak(s[0]) ==> IsPlainlyWritten(s[0], l.unicode) && L.PastNext(L.InText, s[0]) == L.InText)
  {
  }

  lemma BodyIs(s: Text, at: Place, l: Settings)
    requires s != []
    ensures Body(s, at, l) == Piece(s, at, l) + Body(s[1..], Next(s, at, l), l)
    ensures !IsBreak(s[0]) && !Bends(s, at, l) ==> (Faithful(s, at, l) <==> Faithful(s[1..], Next(s, at, l), l))
  {
    hide Piece, Next;
  }

  lemma LetterReads(s: Text, at: Place, l: Settings, v: Text, t: Text, column: nat, i: int, c: B.Manner, rest: Text)
    requires s != [] && !IsBreak(s[0]) && !at.breaks && !Bends(s, at, l) && l.indent > 0 && IsPlainlyWritten(s[0], l.unicode)
    ensures Piece(s, at, l) == [s[0]] && !Next(s, at, l).breaks && !Next(s, at, l).pen.indention
    ensures Next(s, at, l).leading == at.leading
    ensures B.ScanText(Piece(s, at, l) + t, column, v, at.leading, l.indent, i, c)
         == B.ScanText(t, column + 1, v + [s[0]], at.leading, l.indent, i, c)
  {
    assert [] + [s[0]] == [s[0]];
    assert ([s[0]] + t)[1..] == t;
  }

  /** What is written after a line break never makes it longer. */
  lemma NoLineFeed(s: Text, at: Place, l: Settings, rest: Text, k: L.Past, c: B.Manner)
    requires Inside(s, k, rest, l, c) && !k.InText? && at.breaks && at.pen.column == 0 && at.pen.indention
    ensures l.lineBreak.Cr? ==> Look(Body(s, at, l) + rest, 0) != LF
  {
    if s != [] {
      var t := Body(s[1..], Next(s, at, l), l);
      assert Piece(s, at, l) != [] && (Piece(s, at, l) + t + rest)[0] == Piece(s, at, l)[0];
    }
  }

  /** A line ends. */
  lemma {:induction false} AtBreak(s: Text, at: Place, l: Settings, v: Text, rest: Text, column: nat, i: int, c: B.Manner)
    requires Inside(s, L.InText, rest, l, c) && column > l.indent && !at.breaks && s != [] && IsBreak(s[0])
    requires Inside(s[1..], L.OneBreak, rest, l, c)
    ensures
      var t := Body(s[1..], Next(s, at, l), l) + rest;
      B.ScanText(Piece(s, at, l) + t, column, v, at.leading, l.indent, i, c) == Value((v + [s[0]]) + s[1..], L.Leftover(rest))
      <==> Faithful(s, at, l)
    decreases |s|, 0
  {
    var next := Next(s, at, l);
    var t, br := Body(s[1..], next, l) + rest, BreakOf(l.lineBreak);
    NoLineFeed(s[1..], next, l, rest, L.OneBreak, c);
    assert Beyond(s) == Beyond(s[1..]);
    assert IsPlainlyWritten(s[0], l.unicode);
    assert Faithful(s, at, l) <==> Faithful(s[1..], next, l);
    hide Faithful, Inside, Body, IsPlainlyWritten, BreakAs, BreakOf, IsBlankZ, Beyond, L.Leftover;
    if Doubles(s, at) {
      assert Piece(s, at, l) + t == BreakAs(LF, l.lineBreak) + (BreakAs(LF, l.lineBreak) + t) by {
        Assoc(BreakAs(LF, l.lineBreak), BreakAs(LF, l.lineBreak), t);
        FeedIsBreak(l.lineBreak);
      }
      CrNotFeed(l.lineBreak, t);
      L.BreakEndsLine(LF, BreakAs(LF, l.lineBreak) + t, v, at.leading, l, column, i, c);
      var n := B.Lines(v, [LF], [], at.leading);
      L.BreakIsKept(LF, t, n, l, 0, i, c);
      var m := n.(trailing := [] + [LF]);
      assert m.trailing == [LF] == [s[0]];
      InBreaks(s[1..], next, l, m, v + [s[0]], L.OneBreak, rest, 0, i, c);
    } else {
      assert Piece(s, at, l) == [] + BreakAs(s[0], l.lineBreak) == BreakAs(s[0], l.lineBreak);
      L.BreakEndsLine(s[0], t, v, at.leading, l, column, i, c);
      assert v + [s[0]] + [] == v + [s[0]];
      InBreaks(s[1..], next, l, B.Lines(v, [s[0]], [], at.leading), v + [s[0]], L.OneBreak, rest, 0, i, c);
    }
  }

  lemma FeedIsBreak(b: LineBreak)
    ensures BreakAs(LF, b) == BreakOf(b)
  {
  }

  lemma CrNotFeed(b: LineBreak, t: Text)
    ensures b.Cr? ==> Look(BreakAs(LF, b) + t, 0) != LF
    ensures IsBreak(LF) && forall unicode :: IsPlainlyWritten(LF, unicode)
  {
  }

  /** A space is replaced by a line break: the scanner undoes that unless the line began with a
      blank. */
  lemma {:induction false} AtBend(s: Text, at: Place, l: Settings, v: Text, rest: Text, column: nat, i: int, c: B.Manner)
    requires Inside(s, L.InText, rest, l, c) && column > l.indent && !at.breaks && !at.pen.indention && s != [] && Bends(s, at, l)
    requires Inside(s[1..], L.InText, rest, l, c)
    ensures
      var t := Body(s[1..], Next(s, at, l), l) + rest;
      B.ScanText(Piece(s, at, l) + t, column, v, at.leading, l.indent, i, c) == Value((v + [SPACE]) + s[1..], L.Leftover(rest))
      <==> Faithful(s, at, l)
    decreases |s|, 0
  {
    var next, far := Next(s, at, l), Next(s[1..], Next(s, at, l), l);
    var u := s[2..];
    assert |s| > 1 && s[1..][1..] == u && s[1..][0] == s[1];
    StillInside(s[1..], L.InText, rest, l, c);
    assert IsPlainlyWritten(s[1], l.unicode) && l.indent > 0 && !c.literal;
    LetterFollows(s, at, l);
    FaithfulBend(s, at, l);
    assert s[1..] == [s[1]] + u && L.PastNext(L.InText, s[1]) == L.InText;
    hide Inside, Body, Faithful, Next, Piece, Bends, B.ScanText, L.Leftover, IsPlainlyWritten, B.Joined, Spaces;
    var tail := Body(u, far, l) + rest;
    Assoc([s[1]], Body(u, far, l), rest);
    var n := B.Lines(v, [LF], [], at.leading);
    LineFolds(n, s[1], tail, l, column, i, c, Piece(s, at, l), v, at.leading);
    if at.leading {
      BendIsLost(v, s, tail, l, i, c, L.Leftover(rest));
    } else {
      InLine(u, far, l, v + [SPACE] + [s[1]], rest, l.indent + 1, i, c);
      Assoc(v + [SPACE], [s[1]], u);
    }
  }

  lemma FaithfulBend(s: Text, at: Place, l: Settings)
    requires |s| > 1 && Bends(s, at, l) && !Bends(s[1..], Next(s, at, l), l)
    ensures s[1..][1..] == s[2..]
    ensures Faithful(s, at, l) <==> !at.leading && Faithful(s[2..], Next(s[1..], Next(s, at, l), l), l)
  {
    hide Bends, Next;
    assert s[1..][1..] == s[2..];
  }

  /** The line break stays. */
  lemma BendIsLost(v: Text, s: Text, tail: Text, l: Settings, i: int, c: B.Manner, left: Text)
    requires |s| > 1 && l.indent > 0
    ensures B.ScanText(tail, l.indent + 1, (v + [LF]) + [s[1]], false, l.indent, i, c) != Value((v + [SPACE]) + s[1..], left)
  {
    var x := (v + [LF]) + [s[1]];
    assert x[|v|] == LF && ((v + [SPACE]) + s[1..])[|v|] == SPACE;
    hide B.ScanText;
    TextExtends(tail, l.indent + 1, x, false, l.indent, i, c);
  }

  /** A word follows the space. */
  lemma LetterFollows(s: Text, at: Place, l: Settings)
    requires |s| > 1 && !at.breaks && !at.pen.indention && Bends(s, at, l) && NoSpaceAtEnd(s)
    ensures !IsBreak(s[1]) && s[1] != SPACE && Piece(s, at, l) == BreakOf(l.lineBreak) + Spaces(l.indent)
    ensures
      var next := Next(s, at, l);
      var far := Next(s[1..], next, l);
      && Body(s[1..], next, l) == [s[1]] + Body(s[2..], far, l)
      && !far.breaks && !far.pen.indention && far.leading == at.leading && !Bends(s[1..], next, l)
  {
    assert s[0] == SPACE ==> !IsBreak(s[0 + 1]);
    assert s[1..][1..] == s[2..];
    assert [] + [s[1]] == [s[1]];
    var b := BreakOf(l.lineBreak) + Spaces(l.indent);
    assert b + [] == b;
  }

  lemma LineFolds(n: B.Lines, x: nat, tail: Text, l: Settings, column: nat, i: int, c: B.Manner, piece: Text, v: Text, blank: bool)
    requires n == B.Lines(v, [LF], [], blank) && l.indent > 0 && piece == BreakOf(l.lineBreak) + Spaces(l.indent)
    requires IsPlainlyWritten(x, l.unicode) && !IsBreak(x) && x != SPACE && !c.literal
    ensures B.ScanText(piece + ([x] + tail), column, v, blank, l.indent, i, c)
         == B.ScanText(tail, l.indent + 1, B.Joined(n, x, false) + [x], false, l.indent, i, c)
    ensures B.Joined(n, x, false) == v + [if blank then LF else SPACE]
  {
    var t := Spaces(l.indent) + ([x] + tail);
    Assoc(BreakOf(l.lineBreak), Spaces(l.indent), [x] + tail);
    Folding.BreakIsGap(l.lineBreak, t);
    assert B.ScanText(BreakOf(l.lineBreak) + t, column, v, blank, l.indent, i, c) == B.ScanBreaks(t, 0, n, l.indent, 0, i, c);
    L.IndentSkipped(0, l.indent, [x] + tail, n, l.indent, 0, i, c);
    assert ([x] + tail)[1..] == tail;
    assert v + [LF] + [] == v + [LF];
  }

  /** Among line breaks; `all` is the value with those read so far. */
  lemma {:induction false} InBreaks(s: Text, at: Place, l: Settings, n: B.Lines, all: Text, k: L.Past, rest: Text, m: nat, i: int, c: B.Manner)
    requires Inside(s, k, rest, l, c) && at.breaks && at.pen.column == 0 && at.pen.indention && !k.InText?
    requires Owes(n, s, all) && (k.OneBreak? && IsBlankZ(Beyond(s)) ==> n.trailing == [])
    ensures B.ScanBreaks(Body(s, at, l) + rest, 0, n, l.indent, m, i, c) == Value(all + s, L.Leftover(rest))
            <==> Faithful(s, at, l)
    decreases |s|, 1
  {
    if s == [] {
      assert Body(s, at, l) + rest == rest && all + s == all;
      L.BlockEnds(rest, 0, n, l.indent, m, i, c);
      assert B.SkipBreak(rest) == rest;
    } else if IsBreak(s[0]) {
      StillInside(s, k, rest, l, c);
      var next := Next(s, at, l);
      var t := Body(s[1..], next, l) + rest;
      NoLineFeed(s[1..], next, l, rest, L.MoreBreaks, c);
      assert Piece(s, at, l) == [] + BreakAs(s[0], l.lineBreak) == BreakAs(s[0], l.lineBreak);
      Assoc(BreakAs(s[0], l.lineBreak), Body(s[1..], next, l), rest);
      L.BreakIsKept(s[0], t, n, l, m, i, c);
      var more := n.(trailing := n.trailing + [s[0]]);
      Assoc(n.value + n.leading, n.trailing, [s[0]]);
      Assoc(n.value, n.trailing, [s[0]]);
      InBreaks(s[1..], next, l, more, all + [s[0]], L.MoreBreaks, rest, m, i, c);
      TakeOne(all, s);
    } else {
      LineStarts(s, at, l, n, all, k, rest, l.indent, m, i, c);
    }
  }

  /** A line that is not empty starts; its indentation was given, or is found out. */
  lemma {:induction false} LineStarts(s: Text, at: Place, l: Settings, n: B.Lines, all: Text, k: L.Past, rest: Text, indent: nat, m: nat, i: int, c: B.Manner)
    requires Inside(s, k, rest, l, c) && at.breaks && at.pen.column == 0 && at.pen.indention && s != [] && !IsBreak(s[0])
    requires Owes(n, s, all)
    requires indent == l.indent || (indent == 0 && s[0] != SPACE && m <= l.indent && i < l.indent)
    ensures B.ScanBreaks(Body(s, at, l) + rest, 0, n, indent, m, i, c) == Value(all + s, L.Leftover(rest))
            <==> Faithful(s, at, l)
    decreases |s|, 0
  {
    hide Body, Inside, Faithful, B.Joined, Owes, Next, Piece, Bends, L.Leftover, B.ScanText, L.PastNext;
    var next := Next(s, at, l);
    var tail := Body(s[1..], next, l);
    LetterInside(s, k, rest, l, c);
    LineIs(s, at, l, n, all);
    var line := [s[0]] + (tail + rest);
    Assoc(Spaces(l.indent) + [s[0]], tail, rest);
    Assoc(Spaces(l.indent), [s[0]], tail + rest);
    L.IndentSkipped(0, l.indent, line, n, indent, m, i, c);
    LineReads(s[0], tail + rest, l, n, all, indent, m, i, c);
    InLine(s[1..], next, l, all + [s[0]], rest, l.indent + 1, i, c);
    TakeOne(all, s);
  }

  lemma LetterInside(s: Text, k: L.Past, rest: Text, l: Settings, c: B.Manner)
    requires s != [] && !IsBreak(s[0]) && Inside(s, k, rest, l, c)
    ensures IsPlainlyWritten(s[0], l.unicode) && l.indent > 0 && !c.literal && Inside(s[1..], L.InText, rest, l, c)
  {
    StillInside(s, k, rest, l, c);
    assert L.PastNext(k, s[0]) == L.InText;
  }

  lemma LineIs(s: Text, at: Place, l: Settings, n: B.Lines, all: Text)
    requires s != [] && !IsBreak(s[0]) && IsPlainlyWritten(s[0], l.unicode) && Owes(n, s, all)
    requires at.breaks && at.pen.column == 0 && at.pen.indention && l.indent > 0
    ensures
      var next := Next(s, at, l);
      && Body(s, at, l) == (Spaces(l.indent) + [s[0]]) + Body(s[1..], next, l)
      && B.Joined(n, s[0], false) == all && (Faithful(s, at, l) <==> Faithful(s[1..], next, l))
      && !next.breaks && !next.pen.indention && next.leading == IsBlank(s[0])
  {
  }

  lemma LineReads(x: nat, t: Text, l: Settings, n: B.Lines, all: Text, indent: nat, m: nat, i: int, c: B.Manner)
    requires !IsBreak(x) && IsPlainlyWritten(x, l.unicode) && l.indent > 0 && B.Joined(n, x, false) == all && !c.literal
    requires indent == l.indent || (indent == 0 && x != SPACE && m <= l.indent && i < l.indent)
    ensures B.ScanBreaks([x] + t, l.indent, n, indent, m, i, c)
         == B.ScanText(t, l.indent + 1, all + [x], IsBlank(x), l.indent, i, c)
  {
    hide B.Joined, B.ScanText;
    var line := [x] + t;
    assert line[1..] == t;
    assert B.ScanBreaks(line, l.indent, n, indent, m, i, c) == B.ScanNext(line, l.indent, n, l.indent, i, c);
  }

  lemma BodyReads(value: Text, l: Settings, bestIndent: nat, rest: Text, i: int, c: B.Manner)
    requires value != [] && Inside(value, L.OneBreak, rest, l, c)
    requires i >= -1 && bestIndent > 0 && l.indent == B.Max(i, 0) + bestIndent
    ensures
      B.ScanBreaks(Body(value, START, l) + rest, 0, B.Lines([], [], [], false), if L.NeedsIndentHint(value) then l.indent else 0, 0, i, c)
      == Value(value, L.Leftover(rest))
      <==> Faithful(value, START, l)
  {
    var n := B.Lines([], [], [], false);
    assert [] + value == value;
    if L.NeedsIndentHint(value) {
      InBreaks(value, START, l, n, [], L.OneBreak, rest, 0, i, c);
    } else {
      LineStarts(value, START, l, n, [], L.OneBreak, rest, 0, 0, i, c);
    }
  }

  lemma StartsInside(value: Text, l: Settings, rest: Text, c: B.Manner)
    requires L.LiteralAllowed(value, l.unicode) && l.indent > 0 && L.EndsBlockScalar(rest, value, l)
    requires c == B.Manner(false, L.ChompingFor(value))
    ensures Inside(value, L.OneBreak, rest, l, c) && value != []
    ensures
      var body := Body(value, START, l) + rest;
      IsBreak(Look(BreakOf(l.lineBreak) + body, 0)) && (l.lineBreak.Cr? ==> Look(body, 0) != LF)
  {
    L.ChompingForIsAfter(value, L.OneBreak);
    assert Inside(value, L.OneBreak, rest, l, c);
    NoLineFeed(value, START, l, rest, L.OneBreak, c);
  }

  lemma FoldedTextIs(value: Text, p: Pen, l: Settings, bestIndent: nat, rest: Text)
    ensures
      var start := if p.whitespace then 0 else 1;
      var text := FoldedText(value, p, l, bestIndent) + rest;
      && |text| > start && text[..start] == Spaces(start) && text[start] == GREATER
      && text[start + 1..] == L.Hints(value, bestIndent) + (BreakOf(l.lineBreak) + (Body(value, START, l) + rest))
  {
    var start := if p.whitespace then 0 else 1;
    var h, br, body := L.Hints(value, bestIndent), BreakOf(l.lineBreak), Body(value, START, l);
    hide L.Hints, Body, BreakOf;
    assert Spaces(1) == [SPACE] + Spaces(0);
    assert Opening(GREATER, p) == Spaces(start) + [GREATER];
    assert FoldedText(value, p, l, bestIndent) + rest == Opening(GREATER, p) + (h + (br + (body + rest))) by {
      L.Regroup(Opening(GREATER, p), h, br, body, rest);
      L.Regroup(h, br, body, rest, []);
      Assoc(h, br, body);
      Assoc(h, br + body, rest);
      Assoc(br, body, rest);
    }
  }

  lemma SignIsFolded(t: Text, column: nat)
    requires t != [] && t[0] == GREATER
    ensures D.KindAt(t, column, false) == D.Folded
  {
  }

  /** The scanner takes a folded scalar for one, and reads its value back exactly if the emitter
      folded no line that begins with a space. */
  lemma FoldedComesBack(value: Text, p: Pen, l: Settings, bestIndent: nat, rest: Text, column: nat, parserIndent: int)
    requires L.LiteralAllowed(value, l.unicode) && 2 <= bestIndent <= 9 && parserIndent >= -1
    requires l.indent == B.Max(parserIndent, 0) + bestIndent && L.EndsBlockScalar(rest, value, l)
    ensures
      var text := FoldedText(value, p, l, bestIndent) + rest;
      var start := if p.whitespace then 0 else 1;
      && |text| > start && text[..start] == Spaces(start)
      && D.KindAt(text[start..], column, false) == D.Folded
      && (B.ScanBlock(text[start + 1..], column + 1, parserIndent, false) == Value(value, L.Leftover(rest))
          <==> Faithful(value, START, l))
  {
    var body := Body(value, START, l) + rest;
    var line := BreakOf(l.lineBreak) + body;
    var text := L.Hints(value, bestIndent) + line;
    hide *;
    var c := B.Manner(false, L.ChompingFor(value));
    FoldedTextIs(value, p, l, bestIndent, rest);
    SignIsFolded((FoldedText(value, p, l, bestIndent) + rest)[if p.whitespace then 0 else 1..], column);
    IndentIsPositive(parserIndent, bestIndent, l);
    StartsInside(value, l, rest, c);
    L.HintsComeBack(value, bestIndent, line);
    L.HeaderReads(text, B.HeaderAt(text), l.lineBreak, body, column + 1, parserIndent, false);
    BodyReads(value, l, bestIndent, rest, parserIndent, c);
  }

  lemma IndentIsPositive(i: int, bestIndent: nat, l: Settings)
    requires l.indent == B.Max(i, 0) + bestIndent && bestIndent > 0
    ensures l.indent > 0
  {
  }

  /** Every value without a line that begins with a space comes back. */
  lemma {:induction false} PlainLinesAreFaithful(s: Text, at: Place, l: Settings)
    requires (s != [] && at.breaks ==> s[0] != SPACE && s[0] != TAB) && (!at.breaks ==> !at.leading)
    requires forall i | 0 <= i < |s| - 1 && IsBreak(s[i]) :: !IsBlank(s[i + 1])
    ensures Faithful(s, at, l)
    decreases |s|
  {
    if s != [] {
      var t := s[1..];
      forall i | 0 <= i < |t| - 1 && IsBreak(t[i]) ensures !IsBlank(t[i + 1]) {
        assert t[i] == s[i + 1] && t[i + 1] == s[i + 1 + 1];
      }
      PlainLinesAreFaithful(t, Next(s, at, l), l);
    }
  }

  /** A line that begins with a space and is longer than the width: the emitter folds it. */
  lemma LongLineIsFolded(l: Settings)
    requires l.indent == 2 && l.bestWidth == 5
    ensures !Faithful([SPACE, 0x61, 0x62, 0x63, SPACE, 0x64], START, l)
  {
    var s: Text := [SPACE, 0x61, 0x62, 0x63, SPACE, 0x64];
    var a1 := Next(s, START, l);
    assert s[1..] == [0x61, 0x62, 0x63, SPACE, 0x64];
    var a2 := Next(s[1..], a1, l);
    assert s[1..][1..] == [0x62, 0x63, SPACE, 0x64];
    var a3 := Next(s[1..][1..], a2, l);
    assert s[1..][1..][1..] == [0x63, SPACE, 0x64];
    var a4 := Next(s[1..][1..][1..], a3, l);
    assert s[1..][1..][1..][1..] == [SPACE, 0x64];
    assert a4 == Place(Pen(6, true, false), false, true);
    assert Bends([SPACE, 0x64], a4, l);
    assert !Faithful([SPACE, 0x64], a4, l);
    assert !Faithful([0x63, SPACE, 0x64], a3, l);
    assert !Faithful([0x62, 0x63, SPACE, 0x64], a2, l);
    assert !Faithful([0x61, 0x62, 0x63, SPACE, 0x64], a1, l);
  }
}
