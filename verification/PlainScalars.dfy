/** Plain scalars: the scanner reads back what the emitter writes. */
module PlainScalars {
  import opened Characters
  import opened Layout
  import opened FlowScanner
  import Folding
  import D = Dispatch
  import opened SpacedScalars
  import P = PlainScanner

  const QUESTION: nat := '?' as nat

  predicate StartsDocument(s: Text) {
    || (Look(s, 0) == DASH && Look(s, 1) == DASH && Look(s, 2) == DASH)
    || (Look(s, 0) == DOT && Look(s, 1) == DOT && Look(s, 2) == DOT)
  }

  /** No character of `s` ends a plain scalar. */
  predicate IsSafe(s: Text, inFlow: bool) {
    && (forall i | 0 <= i < |s| ::
          if inFlow then !P.IsFlowIndicator(s[i]) && s[i] != QUESTION && s[i] != COLON
          else s[i] == COLON ==> !IsBlankZ(Look(s, i + 1)))
    && (forall i | 0 < i < |s| :: s[i] == HASH ==> !IsBlankZ(s[i - 1]))
  }

  /** The first character cannot be taken for the start of another token. */
  predicate StartsPlain(s: Text, inFlow: bool) {
    && s != []
    && !D.IsIndicator(s[0]) && !StartsDocument(s)
    && (s[0] == DASH ==> !IsBlankZ(Look(s, 1)))
    && (s[0] == QUESTION ==> !inFlow && !IsBlankZ(Look(s, 1)))
  }

  /** The values that may be plain: printable, on one line, with no blank at either end and no
      text that the scanner would take for something else. */
  predicate PlainAllowed(s: Text, inFlow: bool, unicode: bool) {
    && (forall i | 0 <= i < |s| :: IsPlainlyWritten(s[i], unicode) && !IsBreak(s[i]))
    && StartsPlain(s, inFlow)
    && s[0] != SPACE && s[|s| - 1] != SPACE
    && IsSafe(s, inFlow)
  }

  // ---- What may follow ----

  /** The scanner stops at `t`, which directly follows a word or a gap. */
  predicate StopsAtWord(t: Text, x: P.Context) {
    t == [] || t[0] == NUL || (P.EndsPlain(t, x) && !P.IsBadColon(t, x))
  }

  /** The scanner stops in or after the gap `t`; `column` counts from the last break of the gap. */
  predicate StopsInGap(t: Text, column: nat, broken: bool, x: P.Context)
    decreases |t|
  {
    if t != [] && IsGapChar(t[0]) then
      && !(broken && column < x.indent && t[0] == TAB)
      && StopsInGap(t[GapWidth(t)..], GapColumn(t, column), broken || IsBreak(t[0]), x)
    else
      || (broken && !x.inFlow && column < x.indent)
      || (broken && column == 0 && IsDocumentIndicator(t))
      || Look(t, 0) == HASH
      || StopsAtWord(t, x)
  }

  /** A text that ends a plain scalar. */
  predicate Stops(t: Text, x: P.Context) {
    if t != [] && IsGapChar(t[0]) then StopsInGap(t, 0, false, x) else StopsAtWord(t, x)
  }

  function SkipGap(t: Text): Text
    decreases |t|
  {
    if t != [] && IsGapChar(t[0]) then SkipGap(t[GapWidth(t)..]) else t
  }

  lemma {:induction false} GapStops(t: Text, fromBreak: nat, column: nat, v: Text, g: Gap, x: P.Context)
    requires StopsInGap(t, fromBreak, g.broken, x) && (g.broken ==> column == fromBreak)
    ensures P.ScanGap(t, column, v, g, x) == Value(v, SkipGap(t))
    decreases |t|
  {
    if t != [] && IsGapChar(t[0]) {
      GapStops(t[GapWidth(t)..], GapColumn(t, fromBreak), GapColumn(t, column), v, Widen(g, t), x);
      assert P.ScanGap(t, column, v, g, x)
          == P.ScanGap(t[GapWidth(t)..], GapColumn(t, column), v, Widen(g, t), x);
    } else if StopsAtWord(t, x) {
      assert P.ScanWord(t, column, v, g, x) == Value(v, t);
    }
  }

  lemma WordStops(t: Text, column: nat, v: Text, x: P.Context)
    requires Stops(t, x)
    ensures P.ScanWord(t, column, v, NO_GAP, x) == Value(v, SkipGap(t))
  {
    if t != [] && IsGapChar(t[0]) {
      GapStops(t, 0, column, v, NO_GAP, x);
    }
  }

  // ---- The round trip ----

  /** The rest of a plain value, with the writer inside it. */
  predicate Inside(s: Text, st: Stand, l: Settings, x: P.Context) {
    && 0 < l.indent && (x.inFlow || x.indent <= l.indent)
    && (forall i | 0 <= i < |s| :: IsPlainlyWritten(s[i], l.unicode) && !IsBreak(s[i]))
    && IsSafe(s, x.inFlow)
    && (s == [] ==> !st.spaces)
    && (s != [] ==> s[|s| - 1] != SPACE)
    && (s != [] && st.spaces ==> s[0] != HASH)
    && (s != [] && st.isFirst ==> s[0] != SPACE && s[0] != HASH)
    && !st.breaks && (!st.spaces && !st.isFirst ==> !st.pen.indention)
  }

  lemma StillInside(s: Text, st: Stand, l: Settings, x: P.Context)
    requires s != [] && Inside(s, st, l, x)
    ensures Inside(s[1..], Next(s, st, l, false), l, x)
  {
    hide IsPlainlyWritten, IsBreak;
    var t := s[1..];
    assert s[0] == SPACE ==> t != [];
    assert s[0] == SPACE ==> s[1] != HASH;
    SafeTail(s, x.inFlow);
  }

  lemma SafeTail(s: Text, inFlow: bool)
    requires s != [] && IsSafe(s, inFlow)
    ensures IsSafe(s[1..], inFlow)
  {
    var t := s[1..];
    forall i | 0 <= i < |t|
      ensures if inFlow then !P.IsFlowIndicator(t[i]) && t[i] != QUESTION && t[i] != COLON
              else t[i] == COLON ==> !IsBlankZ(Look(t, i + 1))
    {
      assert t[i] == s[i + 1] && Look(t, i + 1) == Look(s, i + 1 + 1);
    }
    forall i | 0 < i < |t|
      ensures t[i] == HASH ==> !IsBlankZ(t[i - 1])
    {
      assert t[i] == s[i + 1] && t[i - 1] == s[i + 1 - 1];
    }
  }

  /** The column is not one that ends a scalar in block context. */
  predicate Reaches(column: nat, st: Stand, x: P.Context) {
    if st.isFirst then x.inFlow || column + 1 >= x.indent else column > 0 && (x.inFlow || column >= x.indent)
  }

  /** The scanner is inside a word. */
  lemma {:induction false} InWord(s: Text, st: Stand, l: Settings, v: Text, rest: Text, column: nat, x: P.Context)
    requires Inside(s, st, l, x) && Stops(rest, x) && Reaches(column, st, x)
    ensures P.ScanWord(Body(s, st, l, false) + rest, column, v, NO_GAP, x) == Value(v + s, SkipGap(rest))
    decreases |s|, 1
  {
    if s == [] {
      assert Body(s, st, l, false) + rest == rest && v + s == v;
      WordStops(rest, column, v, x);
    } else {
      StillInside(s, st, l, x);
      var tail := Body(s[1..], Next(s, st, l, false), l, false);
      Assoc(Piece(s, st, l, false), tail, rest);
      TakeOne(v, s);
      if s[0] == SPACE {
        AtSpace(s, st, l, v, rest, column, x);
      } else {
        assert Piece(s, st, l, false) == [] + [s[0]] == [s[0]];
        LetterReads(s, st, l, v, NO_GAP, rest, column, x);
        assert v + [] == v;
        InWord(s[1..], Next(s, st, l, false), l, v + [s[0]], rest, column + 1, x);
      }
    }
  }

  /** A character of a word is read, with the gap before it. */
  lemma LetterReads(s: Text, st: Stand, l: Settings, v: Text, g: Gap, rest: Text, column: nat, x: P.Context)
    requires s != [] && s[0] != SPACE && Inside(s, st, l, x) && Stops(rest, x)
    ensures
      var t := Body(s[1..], Next(s, st, l, false), l, false) + rest;
      P.ScanWord([s[0]] + t, column, v, g, x) == P.ScanWord(t, column + 1, v + Folded(g) + [s[0]], NO_GAP, x)
  {
    var t := Body(s[1..], Next(s, st, l, false), l, false) + rest;
    assert ([s[0]] + t)[1..] == t;
    if s[0] == COLON {
      assert |s| > 1 && Look([s[0]] + t, 1) == s[1];
    }
  }

  lemma {:induction false} AtSpace(s: Text, st: Stand, l: Settings, v: Text, rest: Text, column: nat, x: P.Context)
    requires s != [] && s[0] == SPACE && Inside(s, st, l, x) && Stops(rest, x) && Reaches(column, st, x)
    requires Inside(s[1..], Next(s, st, l, false), l, x)
    ensures
      P.ScanWord(Piece(s, st, l, false) + (Body(s[1..], Next(s, st, l, false), l, false) + rest), column, v, NO_GAP, x)
      == Value((v + [SPACE]) + s[1..], SkipGap(rest))
    decreases |s|, 0
  {
    var next := Next(s, st, l, false);
    var t := Body(s[1..], next, l, false) + rest;
    if Folds(s, st, l, false) {
      assert Piece(s, st, l, false) == BreakOf(l.lineBreak) + Spaces(l.indent);
      var g := Gap(true, [], [LF], []);
      Assoc(BreakOf(l.lineBreak), Spaces(l.indent), t);
      Folding.BreakIsGap(l.lineBreak, Spaces(l.indent) + t);
      IndentIsGap(0, l.indent, t, v, g, x);
      AfterGap(s[1..], next, l, v, g, rest, l.indent, x);
    } else {
      assert ([SPACE] + t)[1..] == t && [] + [SPACE] == [SPACE];
      InGap(s[1..], next, l, v, Gap(false, [SPACE], [], []), rest, column + 1, x);
    }
  }

  lemma {:induction false} IndentIsGap(k: nat, n: nat, t: Text, v: Text, g: Gap, x: P.Context)
    requires g.broken
    ensures P.ScanGap(Spaces(n) + t, k, v, g, x) == P.ScanGap(t, k + n, v, g, x)
    decreases n
  {
    if n > 0 {
      assert (Spaces(n) + t)[1..] == Spaces(n - 1) + t;
      IndentIsGap(k + 1, n - 1, t, v, g, x);
    } else {
      assert Spaces(n) + t == t;
    }
  }

  /** A word follows a gap. */
  lemma {:induction false} AfterGap(s: Text, st: Stand, l: Settings, v: Text, g: Gap, rest: Text, column: nat, x: P.Context)
    requires s != [] && s[0] != SPACE && s[0] != HASH && Inside(s, st, l, x) && Stops(rest, x)
    requires !st.isFirst && Reaches(column, st, x)
    ensures P.ScanGap(Body(s, st, l, false) + rest, column, v, g, x) == Value((v + Folded(g)) + s, SkipGap(rest))
    decreases |s|, 1
  {
    StillInside(s, st, l, x);
    var next := Next(s, st, l, false);
    var t := Body(s[1..], next, l, false) + rest;
    assert Body(s, st, l, false) + rest == [s[0]] + t;
    LetterReads(s, st, l, v, g, rest, column, x);
    InWord(s[1..], next, l, v + Folded(g) + [s[0]], rest, column + 1, x);
    TakeOne(v + Folded(g), s);
  }

  /** The scanner is among spaces that are not folded. */
  lemma {:induction false} InGap(s: Text, st: Stand, l: Settings, v: Text, g: Gap, rest: Text, column: nat, x: P.Context)
    requires s != [] && st.spaces && !st.isFirst && Inside(s, st, l, x) && Stops(rest, x) && Reaches(column, st, x)
    requires !g.broken
    ensures P.ScanGap(Body(s, st, l, false) + rest, column, v, g, x) == Value((v + g.blanks) + s, SkipGap(rest))
    decreases |s|, 2
  {
    if s[0] == SPACE {
      StillInside(s, st, l, x);
      var next, text := Next(s, st, l, false), Body(s, st, l, false) + rest;
      assert text[1..] == Body(s[1..], next, l, false) + rest && text[0] == SPACE;
      InGap(s[1..], next, l, v, Widen(g, text), rest, column + 1, x);
      assert (v + (g.blanks + [SPACE])) + s[1..] == (v + g.blanks) + s;
    } else {
      AfterGap(s, st, l, v, g, rest, column, x);
    }
  }

  // ---- The first token ----

  /** A character that is neither a space nor ends a scalar was written from the value. */
  lemma HeadIsOwn(s: Text, st: Stand, l: Settings, rest: Text, x: P.Context, c: nat)
    requires Inside(s, st, l, x) && !st.isFirst && Stops(rest, x) && (c == DASH || c == DOT)
    requires Look(Body(s, st, l, false) + rest, 0) == c
    ensures s != [] && s[0] == c
    ensures Body(s, st, l, false) + rest == [c] + (Body(s[1..], Next(s, st, l, false), l, false) + rest)
    ensures Inside(s[1..], Next(s, st, l, false), l, x)
  {
    hide Body, Inside, Next;
    HeadElse(s, st, l, rest, x);
    if s != [] && s[0] != SPACE {
      StillInside(s, st, l, x);
      FirstLetter(s, st, l, rest, x);
    }
  }

  lemma HeadElse(s: Text, st: Stand, l: Settings, rest: Text, x: P.Context)
    requires Inside(s, st, l, x) && !st.isFirst
    ensures s == [] ==> Body(s, st, l, false) + rest == rest
    ensures s != [] && s[0] == SPACE ==> IsGapChar(Look(Body(s, st, l, false) + rest, 0))
  {
    hide IsPlainlyWritten, IsSafe;
    if s != [] && s[0] == SPACE {
      assert Body(s, st, l, false)[0] == Piece(s, st, l, false)[0];
    }
  }

  lemma FirstLetter(s: Text, st: Stand, l: Settings, rest: Text, x: P.Context)
    requires s != [] && s[0] != SPACE && Inside(s, st, l, x)
    ensures Body(s, st, l, false) + rest == [s[0]] + (Body(s[1..], Next(s, st, l, false), l, false) + rest)
  {
  }

  /** The text of a plain scalar is not taken for a document indicator. */
  lemma NoDocumentIndicator(value: Text, st: Stand, l: Settings, rest: Text, x: P.Context)
    requires PlainAllowed(value, x.inFlow, l.unicode) && Inside(value, st, l, x) && Stops(rest, x)
    ensures !IsDocumentIndicator(Body(value, st, l, false) + rest)
  {
    hide PlainAllowed, Inside, Stops, Body, Next;
    FirstIs(value, st, l, x);
    var text, c := Body(value, st, l, false) + rest, value[0];
    FirstLetter(value, st, l, rest, x);
    if IsDocumentIndicator(text) {
      var v1, st1 := value[1..], Next(value, st, l, false);
      var t1 := Body(v1, st1, l, false) + rest;
      StillInside(value, st, l, x);
      assert Look(t1, 0) == text[1] == c;
      HeadIsOwn(v1, st1, l, rest, x, c);
      var v2, st2 := v1[1..], Next(v1, st1, l, false);
      var t2 := Body(v2, st2, l, false) + rest;
      assert !st2.isFirst by { NotFirst(v1, st1, l); }
      assert Look(t2, 0) == t1[1] == text[2] == c;
      HeadIsOwn(v2, st2, l, rest, x, c);
    }
  }

  lemma FirstIs(value: Text, st: Stand, l: Settings, x: P.Context)
    requires PlainAllowed(value, x.inFlow, l.unicode)
    ensures value != [] && value[0] != SPACE && !StartsDocument(value) && !Next(value, st, l, false).isFirst
  {
  }

  lemma NotFirst(s: Text, st: Stand, l: Settings)
    requires s != []
    ensures !Next(s, st, l, false).isFirst
  {
  }

  /** The scanner takes the text of a plain scalar for one. */
  lemma KindIsPlain(value: Text, st: Stand, l: Settings, rest: Text, column: nat, x: P.Context)
    requires PlainAllowed(value, x.inFlow, l.unicode) && Inside(value, st, l, x) && Stops(rest, x)
    ensures D.KindAt(Body(value, st, l, false) + rest, column, x.inFlow) == D.PlainScalar
  {
    NoDocumentIndicator(value, st, l, rest, x);
    FirstLetter(value, st, l, rest, x);
    var t := Body(value, st, l, false) + rest;
    if value[0] == DASH || value[0] == QUESTION || value[0] == COLON {
      assert !IsBlankZ(Look(value, 1));
      SecondLetter(value, st, l, rest, x);
    }
  }

  lemma SecondLetter(s: Text, st: Stand, l: Settings, rest: Text, x: P.Context)
    requires |s| > 1 && s[0] != SPACE && s[1] != SPACE && Inside(s, st, l, x)
    ensures Look(Body(s, st, l, false) + rest, 1) == s[1]
  {
    FirstLetter(s, st, l, rest, x);
    StillInside(s, st, l, x);
    FirstLetter(s[1..], Next(s, st, l, false), l, rest, x);
  }

  /** The scanner takes what the emitter writes for a plain scalar as such and reads its value
      back, if the value may be plain and the text that follows ends a plain scalar.  In block
      context the emitter indents more than the scanner asks for. */
  lemma PlainComesBack(value: Text, p: Pen, l: Settings, rest: Text, column: nat, x: P.Context)
    requires PlainAllowed(value, x.inFlow, l.unicode) && l.indent > 0 && Stops(rest, x)
    requires x.inFlow || (x.indent <= l.indent && x.indent <= column + 1)
    ensures
      var text := PlainText(value, p, l, x.inFlow) + rest;
      var start := if p.whitespace then 0 else 1;
      && |text| > start && text[..start] == Spaces(start)
      && D.KindAt(text[start..], column, x.inFlow) == D.PlainScalar
      && P.ScanLine(text[start..], column, [], NO_GAP, x) == Value(value, SkipGap(rest))
  {
    var start := if p.whitespace then 0 else 1;
    var st := Stand(Move(p, start), true, false, false);
    StartsInside(value, st, l, x, column);
    hide PlainAllowed, Inside, Stops, Reaches, Body, Next, SkipGap, P.ScanWord, D.KindAt;
    var body := Body(value, st, l, false);
    InWord(value, st, l, [], rest, column, x);
    KindIsPlain(value, st, l, rest, column, x);
    NoDocumentIndicator(value, st, l, rest, x);
    FirstLetter(value, st, l, rest, x);
    assert [] + value == value;
    PlainTextIs(value, p, l, rest, x.inFlow);
  }

  lemma PlainTextIs(value: Text, p: Pen, l: Settings, rest: Text, inFlow: bool)
    requires value != []
    ensures
      var start := if p.whitespace then 0 else 1;
      var text := PlainText(value, p, l, inFlow) + rest;
      && |text| >= start && text[..start] == Spaces(start)
      && text[start..] == Body(value, Stand(Move(p, start), true, false, false), l, false) + rest
  {
    hide Body;
    var start := if p.whitespace then 0 else 1;
    assert Spaces(1) == [SPACE] + Spaces(0);
    assert PlainText(value, p, l, inFlow) == Spaces(start) + Body(value, Stand(Move(p, start), true, false, false), l, false);
  }

  lemma StartsInside(value: Text, st: Stand, l: Settings, x: P.Context, column: nat)
    requires PlainAllowed(value, x.inFlow, l.unicode) && l.indent > 0
    requires x.inFlow || (x.indent <= l.indent && x.indent <= column + 1)
    requires st.isFirst && !st.spaces && !st.breaks
    ensures Inside(value, st, l, x) && Reaches(column, st, x) && value != [] && value[0] != SPACE && value[0] != HASH
  {
  }

  // ---- What the emitter writes next ----

  /** In block context: the colon after a simple key. */
  lemma StopsAtColon(t: Text, x: P.Context)
    requires Look(t, 0) == COLON && IsBlankZ(Look(t, 1))
    ensures Stops(t, x)
  {
  }

  /** In flow context: an entry or the end of the collection, or the colon after a key, possibly
      on a new line. */
  lemma StopsAtFlowIndicator(t: Text, x: P.Context)
    requires x.inFlow && P.IsFlowIndicator(Look(t, 0))
    ensures Stops(t, x)
  {
  }

  /** In flow context: the colon of a complex key. */
  lemma StopsAtSpacedColon(t: Text, x: P.Context)
    requires Look(t, 0) == SPACE && Look(t, 1) == COLON && IsBlankZ(Look(t, 2))
    ensures Stops(t, x)
  {
    var u := t[1..];
    assert Look(u, 0) == COLON && Look(u, 1) == Look(t, 2);
    assert GapWidth(t) == 1;
    StopsAtColon(u, x);
  }

  lemma {:induction false} SpacesThen(n: nat, t: Text, column: nat, broken: bool, x: P.Context)
    ensures StopsInGap(Spaces(n) + t, column, broken, x) == StopsInGap(t, column + n, broken, x)
    decreases n
  {
    if n > 0 {
      assert (Spaces(n) + t)[1..] == Spaces(n - 1) + t;
      SpacesThen(n - 1, t, column + 1, broken, x);
    } else {
      assert Spaces(n) + t == t;
    }
  }

  /** A new line that is indented less than the scalar, or at the outermost level an indicator of
      a document or the end, or in flow context the colon of a complex key. */
  lemma StopsAtNewLine(b: LineBreak, n: nat, t: Text, x: P.Context)
    requires t == [] || (!IsGapChar(t[0]) && t[0] != LF)
    requires (!x.inFlow && n < x.indent) || (n == 0 && IsDocumentIndicator(t)) || t == []
          || (Look(t, 0) == COLON && IsBlankZ(Look(t, 1)))
    ensures Stops(BreakOf(b) + Spaces(n) + t, x)
  {
    var line := Spaces(n) + t;
    assert BreakOf(b) + Spaces(n) + t == BreakOf(b) + line;
    Folding.BreakIsGap(b, line);
    SpacesThen(n, t, 0, true, x);
  }
}
