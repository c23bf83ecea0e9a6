/** How the emitter lays out text: the current column, line breaks and indentation. */
module Layout {
  import opened Characters

  datatype LineBreak = Cr | Ln | CrLn

  /** What stays fixed while one scalar is written; `allowBreaks` is off for a simple key. */
  datatype Settings = Settings(indent: nat, bestWidth: nat, lineBreak: LineBreak, unicode: bool, allowBreaks: bool)

  /** Where the emitter stands: the column, whether white space or nothing but indentation was
      written last. */
  datatype Pen = Pen(column: nat, whitespace: bool, indention: bool)

  function BreakOf(b: LineBreak): (t: Text)
    ensures 1 <= |t| <= 2
    ensures forall i | 0 <= i < |t| :: t[i] == CR || t[i] == LF
  {
    match b
    case Cr => [CR]
    case Ln => [LF]
    case CrLn => [CR, LF]
  }

  /** A line break of a value as it is written: a line feed becomes the chosen line break. */
  function BreakAs(c: nat, b: LineBreak): Text {
    if c == LF then BreakOf(b) else [c]
  }

  function Move(p: Pen, n: nat): Pen {
    p.(column := p.column + n)
  }

  predicate BreaksBefore(l: Settings, p: Pen) {
    !p.indention || p.column > l.indent || (p.column == l.indent && !p.whitespace)
  }

  /** What is written to reach the indentation. */
  function IndentText(l: Settings, p: Pen): Text {
    if BreaksBefore(l, p) then BreakOf(l.lineBreak) + Spaces(l.indent) else Spaces(l.indent - p.column)
  }

  function Indented(l: Settings): Pen {
    Pen(l.indent, true, true)
  }

  function Opening(quote: nat, p: Pen): Text {
    (if p.whitespace then [] else [SPACE]) + [quote]
  }

  /** Where the pen is after an opening quote. */
  function AfterOpening(p: Pen): Pen {
    Pen(p.column + (if p.whitespace then 1 else 2), false, false)
  }

  /** Writes an opening quote. */
  method WriteOpening(w: Writer, quote: nat)
    requires w.Valid() && !IsBreak(quote)
    modifies w
    ensures w.Valid() && w.text == old(w.text) + Opening(quote, old(w.CurrentPen()))
    ensures w.CurrentPen() == AfterOpening(old(w.CurrentPen()))
  {
    hide ColumnOf, IsBreak;
    w.WriteIndicator([quote], true, false, false);
  }

  /** The column after a text: the number of characters behind its last line break. */
  function ColumnOf(t: Text): nat {
    if t == [] || IsBreak(t[|t| - 1]) then 0 else 1 + ColumnOf(t[..|t| - 1])
  }

  lemma {:induction false} ColumnOfSnoc(t: Text, c: nat)
    ensures ColumnOf(t + [c]) == if IsBreak(c) then 0 else ColumnOf(t) + 1
  {
    assert (t + [c])[..|t|] == t;
  }

  class Writer {
    var text: Text
    var column: nat
    var whitespace: bool
    var indention: bool

    ghost predicate Valid()
      reads this
    {
      column == ColumnOf(text)
    }

    function CurrentPen(): Pen
      reads this
    {
      Pen(column, whitespace, indention)
    }

    constructor ()
      ensures Valid() && text == [] && CurrentPen() == Pen(0, true, true)
    {
      text, column, whitespace, indention := [], 0, true, true;
    }

    /** Writes one character of a value, or of an escape or indicator. */
    method Put(c: nat)
      requires Valid() && !IsBreak(c)
      modifies this
      ensures Valid() && text == old(text) + [c] && CurrentPen() == Move(old(CurrentPen()), 1)
    {
      ColumnOfSnoc(text, c);
      text, column := text + [c], column + 1;
    }

    method PutBreak(b: LineBreak)
      requires Valid()
      modifies this
      ensures Valid() && text == old(text) + BreakOf(b)
      ensures CurrentPen() == old(CurrentPen()).(column := 0)
    {
      ghost var was := text;
      match b {
        case Cr =>
          ColumnOfSnoc(text, CR);
          text := text + [CR];
        case Ln =>
          ColumnOfSnoc(text, LF);
          text := text + [LF];
        case CrLn =>
          ColumnOfSnoc(text + [CR], LF);
          text := text + [CR] + [LF];
          assert text == was + BreakOf(b);
      }
      column := 0;
    }

    /** Writes a line break of a value. */
    method WriteBreak(c: nat, b: LineBreak)
      requires Valid() && IsBreak(c)
      modifies this
      ensures Valid() && text == old(text) + BreakAs(c, b)
      ensures CurrentPen() == old(CurrentPen()).(column := 0)
    {
      if c == LF {
        PutBreak(b);
      } else {
        ColumnOfSnoc(text, c);
        text, column := text + [c], 0;
      }
    }

    method WriteIndent(l: Settings)
      requires Valid()
      modifies this
      ensures Valid() && text == old(text) + IndentText(l, old(CurrentPen()))
      ensures CurrentPen() == Indented(l)
    {
      ghost var goal := text + IndentText(l, CurrentPen());
      if BreaksBefore(l, CurrentPen()) {
        PutBreak(l.lineBreak);
      }
      assert text + Spaces(l.indent - column) == goal;
      while column < l.indent
        invariant Valid() && column <= l.indent
        invariant text + Spaces(l.indent - column) == goal
      {
        ghost var before := text;
        assert before + Spaces(l.indent - column) == before + [SPACE] + Spaces(l.indent - (column + 1));
        Put(SPACE);
      }
      whitespace, indention := true, true;
    }

    /** Writes an indicator. */
    method WriteIndicator(indicator: Text, needWhitespace: bool, isWhitespace: bool, isIndention: bool)
      requires Valid() && forall i | 0 <= i < |indicator| :: !IsBreak(indicator[i])
      modifies this
      ensures Valid()
      ensures text == old(text) + (if needWhitespace && !old(whitespace) then [SPACE] else []) + indicator
      ensures whitespace == isWhitespace && indention == (old(indention) && isIndention)
      ensures column == old(column) + (if needWhitespace && !old(whitespace) then 1 else 0) + |indicator|
    {
      if needWhitespace && !whitespace {
        Put(SPACE);
      }
      ghost var was, at := text, column;
      for i := 0 to |indicator|
        invariant Valid() && text == was + indicator[..i] && column == at + i
        invariant whitespace == old(whitespace) && indention == old(indention)
      {
        assert indicator[..i + 1] == indicator[..i] + [indicator[i]];
        Put(indicator[i]);
      }
      assert indicator[..|indicator|] == indicator;
      whitespace, indention := isWhitespace, indention && isIndention;
    }
  }
}
