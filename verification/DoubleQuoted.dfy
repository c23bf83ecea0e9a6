/** Double-quoted scalars: what the emitter writes, and that the scanner reads it back. */
module DoubleQuoted {
  import opened Characters
  import opened Layout
  import opened FlowScanner
  import opened Folding

  // ---- Escapes ----

  predicate NeedsEscape(c: nat, unicode: bool) {
    !IsPrintable(c) || (!unicode && !IsAscii(c)) || c == BOM || IsBreak(c) || c == QUOTE || c == BACKSLASH
  }

  /** The letter of the characters that have an escape of one letter; 0 for the others. */
  function Letter(c: nat): nat {
    if c == 0x00 then '0' as nat
    else if c == 0x07 then 'a' as nat
    else if c == 0x08 then 'b' as nat
    else if c == 0x09 then 't' as nat
    else if c == 0x0A then 'n' as nat
    else if c == 0x0B then 'v' as nat
    else if c == 0x0C then 'f' as nat
    else if c == 0x0D then 'r' as nat
    else if c == 0x1B then 'e' as nat
    else if c == 0x22 then '"' as nat
    else if c == 0x5C then '\\' as nat
    else if c == 0x85 then 'N' as nat
    else if c == 0xA0 then '_' as nat
    else if c == 0x2028 then 'L' as nat
    else if c == 0x2029 then 'P' as nat
    else 0
  }

  function Pow16(k: nat): (p: nat)
    ensures p > 0
  {
    if k == 0 then 1 else 16 * Pow16(k - 1)
  }

  function HexDigit(d: nat): (c: nat)
    requires d < 16
    ensures IsHex(c) && AsHex(c) == d
  {
    if d < 10 then 0x30 + d else 0x41 + d - 10
  }

  /** The last `k` hexadecimal digits of a number. */
  function Digits(n: nat, k: nat): (t: Text)
    ensures |t| == k && AllHex(t)
  {
    if k == 0 then [] else Digits(n / 16, k - 1) + [HexDigit(n % 16)]
  }

  function CodeLetter(c: nat): nat {
    if c <= 0xFF then 'x' as nat else if c <= 0xFFFF then 'u' as nat else 'U' as nat
  }

  function EscapeText(c: nat): (t: Text)
    ensures 2 <= |t| <= 10 && t[0] == BACKSLASH && !IsBreak(t[1])
  {
    if Letter(c) != 0 then [BACKSLASH, Letter(c)]
    else [BACKSLASH, CodeLetter(c)] + Digits(c, CodeLength(CodeLetter(c)))
  }

  lemma Sixteenth(n: nat, p: nat)
    requires n < 16 * p
    ensures n / 16 < p && n / 16 * 16 + n % 16 == n
  {
  }

  lemma DigitsSplit(n: nat, k: nat)
    requires k > 0
    ensures Digits(n, k)[..k - 1] == Digits(n / 16, k - 1) && Digits(n, k)[k - 1] == HexDigit(n % 16)
  {
    hide HexDigit;
  }

  lemma {:induction false} DigitsValue(n: nat, k: nat)
    requires n < Pow16(k)
    ensures HexValue(Digits(n, k)) == n
  {
    hide HexDigit, IsHex, AsHex, Digits, AllHex;
    if k > 0 {
      Sixteenth(n, Pow16(k - 1));
      DigitsValue(n / 16, k - 1);
      DigitsSplit(n, k);
    } else {
      assert Digits(n, k) == [];
    }
  }

  lemma CodeFits(c: nat)
    requires IsScalarValue(c)
    ensures c < Pow16(CodeLength(CodeLetter(c)))
  {
    assert Pow16(2) == 16 * Pow16(1) == 256;
    assert Pow16(4) == 16 * Pow16(3) == 0x10000;
    assert Pow16(6) == 16 * Pow16(5) == 0x1000000;
    assert Pow16(8) == 16 * Pow16(7) == 0x100000000;
  }

  /** Reading an escape undoes writing it, whatever follows. */
  lemma EscapeComesBack(c: nat, rest: Text)
    requires IsScalarValue(c)
    ensures ReadEscape(EscapeText(c) + rest) == Escape(c, |EscapeText(c)|)
  {
    var t, n := EscapeText(c) + rest, CodeLength(CodeLetter(c));
    if Letter(c) == 0 {
      CodeFits(c);
      DigitsValue(c, n);
      assert t[2..2 + n] == Digits(c, n);
    }
  }

  // ---- The text that is written ----

  /** Whether a space is replaced by a line break. */
  predicate Folds(s: Text, isFirst: bool, p: Pen, spaces: bool, l: Settings) {
    l.allowBreaks && !spaces && p.column > l.bestWidth && !isFirst && |s| > 1
  }

  /** What one turn of the loop writes, and the pen it leaves. */
  function Piece(s: Text, isFirst: bool, p: Pen, spaces: bool, l: Settings): (t: Text)
    requires s != []
    ensures t == [] || t[0] != NUL
  {
    if NeedsEscape(s[0], l.unicode) then EscapeText(s[0])
    else if s[0] == SPACE && Folds(s, isFirst, p, spaces, l) then
      IndentText(l, p) + (if s[1] == SPACE then [BACKSLASH] else [])
    else [s[0]]
  }

  function PieceEnd(s: Text, isFirst: bool, p: Pen, spaces: bool, l: Settings): Pen
    requires s != []
  {
    if NeedsEscape(s[0], l.unicode) then Move(p, |EscapeText(s[0])|)
    else if s[0] == SPACE && Folds(s, isFirst, p, spaces, l) then
      Move(Indented(l), if s[1] == SPACE then 1 else 0)
    else Move(p, 1)
  }

  /** The text for the rest `s` of a value, with the closing quote. */
  function Body(s: Text, isFirst: bool, p: Pen, spaces: bool, l: Settings): (t: Text)
    ensures t != [] && t[0] != NUL
    decreases |s|
  {
    if s == [] then [QUOTE]
    else
      Piece(s, isFirst, p, spaces, l)
      + Body(s[1..], false, PieceEnd(s, isFirst, p, spaces, l), s[0] == SPACE, l)
  }

  function DoubleQuotedText(value: Text, p: Pen, l: Settings): Text {
    Opening(QUOTE, p) + Body(value, true, AfterOpening(p), false, l)
  }

  // ---- The writer ----

  /** A number without its last `k` hexadecimal digits. */
  function Shift(n: nat, k: nat): nat {
    if k == 0 then n else Shift(n, k - 1) / 16
  }

  method WriteDigits(w: Writer, c: nat, width: nat)
    requires w.Valid()
    modifies w
    ensures w.Valid() && w.text == old(w.text) + Digits(c, width)
    ensures w.CurrentPen() == Move(old(w.CurrentPen()), width)
  {
    for j := 0 to width
      invariant w.Valid() && w.text == old(w.text) + Digits(Shift(c, width - j), j)
      invariant w.CurrentPen() == Move(old(w.CurrentPen()), j)
    {
      ghost var n := Shift(c, width - 1 - j);
      assert Digits(n, j + 1) == Digits(Shift(c, width - j), j) + [HexDigit(n % 16)];
      w.Put(HexDigit(Shift(c, width - 1 - j) % 16));
    }
  }

  lemma EscapeIs(c: nat)
    ensures !IsBreak(Letter(c)) && !IsBreak(CodeLetter(c))
    ensures Letter(c) != 0 ==> EscapeText(c) == [BACKSLASH] + [Letter(c)]
    ensures Letter(c) == 0 ==>
      EscapeText(c) == [BACKSLASH] + [CodeLetter(c)] + Digits(c, CodeLength(CodeLetter(c)))
  {
  }

  method WriteEscape(w: Writer, c: nat)
    requires w.Valid()
    modifies w
    ensures w.Valid() && w.text == old(w.text) + EscapeText(c)
    ensures w.CurrentPen() == Move(old(w.CurrentPen()), |EscapeText(c)|)
  {
    hide Digits, Letter, IsHex, EscapeText, CodeLetter;
    w.Put(BACKSLASH);
    EscapeIs(c);
    w.Put(if Letter(c) != 0 then Letter(c) else CodeLetter(c));
    if Letter(c) == 0 {
      hide *;
      WriteDigits(w, c, CodeLength(CodeLetter(c)));
    }
  }

  /** Writes the character at `i`, escaped or folded if need be. */
  method WritePiece(w: Writer, l: Settings, value: Text, i: nat, spaces: bool)
    requires w.Valid() && i < |value|
    modifies w
    ensures w.Valid()
    ensures w.text == old(w.text) + Piece(value[i..], i == 0, old(w.CurrentPen()), spaces, l)
    ensures w.CurrentPen() == PieceEnd(value[i..], i == 0, old(w.CurrentPen()), spaces, l)
  {
    hide EscapeText, IndentText;
    if NeedsEscape(value[i], l.unicode) {
      WriteEscape(w, value[i]);
    } else if value[i] == SPACE && l.allowBreaks && !spaces && w.column > l.bestWidth && i != 0 && i != |value| - 1 {
      w.WriteIndent(l);
      if value[i + 1] == SPACE {
        w.Put(BACKSLASH);
      }
    } else {
      w.Put(value[i]);
    }
  }

  /** Writes a double-quoted scalar. */
  lemma TextIs(value: Text, p: Pen, l: Settings, before: Text)
    ensures !IsBreak(QUOTE)
    ensures before + DoubleQuotedText(value, p, l) == (before + Opening(QUOTE, p)) + Body(value, true, AfterOpening(p), false, l)
  {
    hide Body;
    Assoc(before, Opening(QUOTE, p), Body(value, true, AfterOpening(p), false, l));
  }

  method WriteDoubleQuoted(w: Writer, l: Settings, value: Text)
    requires w.Valid()
    modifies w
    ensures w.Valid() && !w.whitespace && !w.indention
    ensures w.text == old(w.text) + DoubleQuotedText(value, old(w.CurrentPen()), l)
  {
    hide *;
    ghost var goal := w.text + DoubleQuotedText(value, w.CurrentPen(), l);
    TextIs(value, w.CurrentPen(), l, w.text);
    WriteOpening(w, QUOTE);
    assert value[0..] == value;
    var i, spaces := 0, false;
    while i < |value|
      invariant 0 <= i <= |value| && w.Valid()
      invariant w.text + Body(value[i..], i == 0, w.CurrentPen(), spaces, l) == goal
    {
      BodyStep(value, i, w.CurrentPen(), spaces, l, w.text);
      WritePiece(w, l, value, i, spaces);
      spaces := value[i] == SPACE;
      i := i + 1;
    }
    assert value[i..] == [];
    BodyEnd(|value| == 0, w.CurrentPen(), spaces, l);
    assert w.text + [] + [QUOTE] == goal;
    w.WriteIndicator([QUOTE], false, false, false);
  }

  lemma BodyStep(value: Text, i: nat, p: Pen, spaces: bool, l: Settings, before: Text)
    requires i < |value|
    ensures
      var s := value[i..];
      before + Body(s, i == 0, p, spaces, l)
      == (before + Piece(s, i == 0, p, spaces, l))
         + Body(value[i + 1..], false, PieceEnd(s, i == 0, p, spaces, l), value[i] == SPACE, l)
  {
    hide Piece, PieceEnd;
    assert value[i..][1..] == value[i + 1..];
  }

  lemma BodyEnd(isFirst: bool, p: Pen, spaces: bool, l: Settings)
    ensures Body([], isFirst, p, spaces, l) == [QUOTE]
  {
  }

  // ---- The round trip ----

  /** Wherever a fold can happen, the indentation is behind the pen, so a line break is written. */
  predicate Ahead(p: Pen, spaces: bool, l: Settings) {
    p.indention ==> p.column > l.indent || (spaces && p.column == l.indent)
  }

  lemma EscapeReads(c: nat, t: Text, column: nat, v: Text)
    requires IsScalarValue(c)
    ensures ScanOn(EscapeText(c) + t, column, v, false) == ScanOn(t, column + |EscapeText(c)|, v + [c], false)
  {
    EscapeComesBack(c, t);
    hide ReadEscape, EscapeText;
    var text := EscapeText(c) + t;
    assert text[|EscapeText(c)|..] == t;
    assert text[1] == EscapeText(c)[1];
  }

  /** The scanner is inside a word. */
  lemma {:induction false} InWord(s: Text, isFirst: bool, p: Pen, spaces: bool, l: Settings, v: Text, rest: Text, column: nat)
    requires IsText(s) && l.indent > 0 && column > 0 && Ahead(p, spaces, l)
    ensures ScanOn(Body(s, isFirst, p, spaces, l) + rest, column, v, false) == Value(v + s, rest)
    decreases |s|, 1
  {
    hide ReadEscape, EscapeText, IsScalarValue, NeedsEscape;
    if s == [] {
      assert v + s == v && ([QUOTE] + rest)[1..] == rest;
    } else if NeedsEscape(s[0], l.unicode) {
      Escaped(s, isFirst, p, spaces, l, v, rest, column);
    } else if s[0] == SPACE && Folds(s, isFirst, p, spaces, l) {
      if s[1] == SPACE {
        FoldToSpaces(s, isFirst, p, spaces, l, v, rest, column);
      } else {
        FoldToWord(s, isFirst, p, spaces, l, v, rest, column);
      }
    } else if s[0] == SPACE {
      var t := Body(s[1..], false, Move(p, 1), true, l) + rest;
      assert Body(s, isFirst, p, spaces, l) + rest == [SPACE] + t;
      SpaceReads(t, column, v, false);
      InGap(s[1..], Move(p, 1), l, v, Gap(false, [SPACE], [], []), rest, column + 1);
      assert v + [SPACE] + s[1..] == v + s;
    } else {
      Plain(s, isFirst, p, spaces, l, v, rest, column);
    }
  }

  lemma {:induction false} Escaped(s: Text, isFirst: bool, p: Pen, spaces: bool, l: Settings, v: Text, rest: Text, column: nat)
    requires s != [] && NeedsEscape(s[0], l.unicode)
    requires IsText(s) && l.indent > 0 && column > 0 && Ahead(p, spaces, l)
    ensures ScanOn(Body(s, isFirst, p, spaces, l) + rest, column, v, false) == Value(v + s, rest)
    decreases |s|, 0
  {
    var e := EscapeText(s[0]);
    var body := Body(s[1..], false, Move(p, |e|), false, l);
    hide *;
    EscapedBody(s, isFirst, p, spaces, l);
    Assoc(e, body, rest);
    EscapeReads(s[0], body + rest, column, v);
    InWord(s[1..], false, Move(p, |e|), false, l, v + [s[0]], rest, column + |e|);
    assert v + [s[0]] + s[1..] == v + s;
  }

  lemma EscapedBody(s: Text, isFirst: bool, p: Pen, spaces: bool, l: Settings)
    requires s != [] && NeedsEscape(s[0], l.unicode) && IsText(s) && Ahead(p, spaces, l)
    ensures Body(s, isFirst, p, spaces, l) == EscapeText(s[0]) + Body(s[1..], false, Move(p, |EscapeText(s[0])|), false, l)
    ensures Ahead(Move(p, |EscapeText(s[0])|), false, l) && IsScalarValue(s[0]) && IsText(s[1..])
  {
    hide EscapeText;
  }

  lemma {:induction false} Plain(s: Text, isFirst: bool, p: Pen, spaces: bool, l: Settings, v: Text, rest: Text, column: nat)
    requires s != [] && !NeedsEscape(s[0], l.unicode) && s[0] != SPACE
    requires IsText(s) && l.indent > 0 && column > 0 && Ahead(p, spaces, l)
    ensures ScanOn(Body(s, isFirst, p, spaces, l) + rest, column, v, false) == Value(v + s, rest)
    decreases |s|, 0
  {
    hide ReadEscape, EscapeText;
    var body := Body(s[1..], false, Move(p, 1), false, l);
    var text := Body(s, isFirst, p, spaces, l) + rest;
    InWord(s[1..], false, Move(p, 1), false, l, v + [s[0]], rest, column + 1);
    assert text[1..] == body + rest;
    assert v + [s[0]] + s[1..] == v + s;
  }

  lemma {:induction false} FoldToSpaces(s: Text, isFirst: bool, p: Pen, spaces: bool, l: Settings, v: Text, rest: Text, column: nat)
    requires |s| > 1 && s[1] == SPACE && !NeedsEscape(s[0], l.unicode) && s[0] == SPACE && Folds(s, isFirst, p, spaces, l)
    requires IsText(s) && l.indent > 0 && column > 0 && Ahead(p, spaces, l)
    ensures ScanOn(Body(s, isFirst, p, spaces, l) + rest, column, v, false) == Value(v + s, rest)
    decreases |s|, 0
  {
    hide Body, ScanWord, ScanOn, ScanGap, ScanLine, IsText, NeedsEscape, Ahead, Folds, BreakOf, Spaces, Move, Indented;
    var after := Body(s[2..], false, Move(Indented(l), 2), true, l);
    FoldBeforeSpace(s, isFirst, p, spaces, l, rest);
    FoldReads(l, [BACKSLASH, SPACE] + (after + rest), v, column, false);
    SpaceComesBack(after + rest, l.indent, v + [SPACE]);
    TailIsText(s, 2);
    InWord(s[2..], false, Move(Indented(l), 2), true, l, v + [SPACE] + [SPACE], rest, l.indent + 2);
    TakeOne(v, s);
    TakeOne(v + [SPACE], s[1..]);
    assert s[1..][1..] == s[2..];
  }

  lemma {:induction false} FoldToWord(s: Text, isFirst: bool, p: Pen, spaces: bool, l: Settings, v: Text, rest: Text, column: nat)
    requires |s| > 1 && s[1] != SPACE && !NeedsEscape(s[0], l.unicode) && s[0] == SPACE && Folds(s, isFirst, p, spaces, l)
    requires IsText(s) && l.indent > 0 && column > 0 && Ahead(p, spaces, l)
    ensures ScanOn(Body(s, isFirst, p, spaces, l) + rest, column, v, false) == Value(v + s, rest)
    decreases |s|, 0
  {
    hide Body, ScanWord, ScanOn, ScanGap, ScanLine, IsText, NeedsEscape, Ahead, Folds, BreakOf, Spaces, Move, Indented;
    var body := Body(s[1..], false, Indented(l), true, l);
    FoldBeforeWord(s, isFirst, p, spaces, l, rest);
    NoSpaceNoGap(s[1..], Indented(l), l);
    FoldReads(l, body + rest, v, column, false);
    TailIsText(s, 1);
    InWord(s[1..], false, Indented(l), true, l, v + [SPACE], rest, l.indent);
    TakeOne(v, s);
  }

  lemma FoldBeforeWord(s: Text, isFirst: bool, p: Pen, spaces: bool, l: Settings, rest: Text)
    requires |s| > 1 && s[0] == SPACE != s[1] && Folds(s, isFirst, p, spaces, l)
    requires !NeedsEscape(s[0], l.unicode) && Ahead(p, spaces, l)
    ensures Body(s, isFirst, p, spaces, l) + rest
         == BreakOf(l.lineBreak) + Spaces(l.indent) + (Body(s[1..], false, Indented(l), true, l) + rest)
    ensures Ahead(Indented(l), true, l)
  {
    var br := BreakOf(l.lineBreak) + Spaces(l.indent);
    var body := Body(s[1..], false, Indented(l), true, l);
    assert Body(s, isFirst, p, spaces, l) == (br + []) + body;
    hide *;
    assert br + [] == br;
    Assoc(br, body, rest);
  }

  lemma FoldBeforeSpace(s: Text, isFirst: bool, p: Pen, spaces: bool, l: Settings, rest: Text)
    requires |s| > 1 && s[0] == SPACE == s[1] && Folds(s, isFirst, p, spaces, l)
    requires !NeedsEscape(s[0], l.unicode) && Ahead(p, spaces, l)
    ensures Body(s, isFirst, p, spaces, l) + rest
         == BreakOf(l.lineBreak) + Spaces(l.indent)
            + ([BACKSLASH, SPACE] + (Body(s[2..], false, Move(Indented(l), 2), true, l) + rest))
    ensures Ahead(Move(Indented(l), 2), true, l)
  {
    var after := Body(s[2..], false, Move(Indented(l), 2), true, l);
    var br := BreakOf(l.lineBreak) + Spaces(l.indent);
    var next := Body(s[1..], false, Move(Indented(l), 1), true, l);
    hide *;
    FoldedBody(s, isFirst, p, spaces, l);
    SecondSpace(s[1..], l);
    assert s[1..][1..] == s[2..];
    Regroup(br, after, rest);
  }

  lemma Regroup(br: Text, after: Text, rest: Text)
    ensures ((br + [BACKSLASH]) + ([SPACE] + after)) + rest == br + ([BACKSLASH, SPACE] + (after + rest))
  {
  }

  lemma FoldedBody(s: Text, isFirst: bool, p: Pen, spaces: bool, l: Settings)
    requires |s| > 1 && s[0] == SPACE == s[1] && Folds(s, isFirst, p, spaces, l)
    requires !NeedsEscape(s[0], l.unicode) && Ahead(p, spaces, l)
    ensures Body(s, isFirst, p, spaces, l)
         == ((BreakOf(l.lineBreak) + Spaces(l.indent)) + [BACKSLASH]) + Body(s[1..], false, Move(Indented(l), 1), true, l)
    ensures Ahead(Move(Indented(l), 2), true, l)
  {
  }

  lemma SecondSpace(s: Text, l: Settings)
    requires s != [] && s[0] == SPACE
    ensures Body(s, false, Move(Indented(l), 1), true, l)
         == [SPACE] + Body(s[1..], false, Move(Indented(l), 2), true, l)
  {
  }

  lemma SpaceComesBack(t: Text, column: nat, v: Text)
    ensures ScanOn([BACKSLASH, SPACE] + t, column, v, false) == ScanOn(t, column + 2, v + [SPACE], false)
  {
    var text := [BACKSLASH, SPACE] + t;
    assert text[2..] == t;
    assert ReadEscape(text) == Escape(SPACE, 2);
  }

  lemma NoSpaceNoGap(s: Text, p: Pen, l: Settings)
    requires s == [] || s[0] != SPACE
    ensures !IsGapChar(Body(s, false, p, true, l)[0])
  {
  }

  /** The scanner is among the spaces after a word, none of them folded. */
  lemma {:induction false} InGap(s: Text, p: Pen, l: Settings, v: Text, g: Gap, rest: Text, column: nat)
    requires IsText(s) && l.indent > 0 && column > 0 && !g.broken && Ahead(p, true, l)
    ensures ScanGap(Body(s, false, p, true, l) + rest, column, v, g, false) == Value(v + g.blanks + s, rest)
    decreases |s|, 2
  {
    hide ReadEscape, EscapeText, IsScalarValue;
    var text := Body(s, false, p, true, l) + rest;
    if s != [] && s[0] == SPACE {
      assert text[1..] == Body(s[1..], false, Move(p, 1), true, l) + rest;
      InGap(s[1..], Move(p, 1), l, v, Widen(g, text), rest, column + 1);
      assert v + (g.blanks + [SPACE]) + s[1..] == v + g.blanks + s;
    } else {
      NoSpaceNoGap(s, p, l);
      InWord(s, false, p, true, l, v + g.blanks, rest, column);
    }
  }

  /** The scanner reads a double-quoted scalar back as it was written, whatever the column, the
      width, the indentation, the kind of line break and the character set, and leaves what
      follows the closing quote alone. */
  lemma DoubleQuotedComesBack(value: Text, p: Pen, l: Settings, rest: Text, column: nat)
    requires IsText(value) && l.indent > 0
    ensures
      var text := DoubleQuotedText(value, p, l) + rest;
      var start := if p.whitespace then 0 else 1;
      && |text| > start && text[..start] == Spaces(start)
      && text[start] == QUOTE
      && ScanLine(text[start + 1..], column + 1, [], false) == Value(value, rest)
  {
    hide Body;
    var body := Body(value, true, AfterOpening(p), false, l);
    InWord(value, true, AfterOpening(p), false, l, [], rest, column + 1);
    assert [] + value == value;
    var start := if p.whitespace then 0 else 1;
    assert (DoubleQuotedText(value, p, l) + rest)[start + 1..] == body + rest;
  }
}
