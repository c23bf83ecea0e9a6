/** Plain and single-quoted scalars as the emitter writes them: spaces may be folded into line
    breaks, line breaks are doubled and indented. */
module SpacedScalars {
  import opened Characters
  import opened Layout

  /** Where the writer stands inside a value. */
  datatype Stand = Stand(pen: Pen, isFirst: bool, spaces: bool, breaks: bool)

  /** Whether the space at the start of `s` is replaced by a line break. */
  predicate Folds(s: Text, st: Stand, l: Settings, single: bool)
    requires s != []
  {
    && l.allowBreaks && !st.spaces && st.pen.column > l.bestWidth
    && (single ==> !st.isFirst && |s| > 1)
    && Look(s, 1) != SPACE
  }

  /** What is written before the next character that is neither a space nor a break. */
  function Lead(st: Stand, l: Settings): Text {
    if st.breaks then IndentText(l, st.pen) else []
  }

  function LeadEnd(st: Stand, l: Settings): Pen {
    if st.breaks then Indented(l) else st.pen
  }

  function Quoted(c: nat, single: bool): Text {
    if single && c == APOSTROPHE then [APOSTROPHE, APOSTROPHE] else [c]
  }

  /** What one turn of the loop writes. */
  function Piece(s: Text, st: Stand, l: Settings, single: bool): Text
    requires s != []
  {
    if s[0] == SPACE then (if Folds(s, st, l, single) then IndentText(l, st.pen) else [SPACE])
    else if IsBreak(s[0]) then
      (if !st.breaks && s[0] == LF then BreakOf(l.lineBreak) else []) + BreakAs(s[0], l.lineBreak)
    else Lead(st, l) + Quoted(s[0], single)
  }

  function Next(s: Text, st: Stand, l: Settings, single: bool): Stand
    requires s != []
  {
    if s[0] == SPACE then
      Stand(if Folds(s, st, l, single) then Indented(l) else Move(st.pen, 1), false, true, st.breaks)
    else if IsBreak(s[0]) then Stand(Pen(0, st.pen.whitespace, true), false, st.spaces, true)
    else Stand(Move(LeadEnd(st, l), |Quoted(s[0], single)|).(indention := false), false, false, false)
  }

  /** The text for the rest `s` of a value, with the closing quote if there is one. */
  function Body(s: Text, st: Stand, l: Settings, single: bool): Text
    decreases |s|
  {
    if s != [] then Piece(s, st, l, single) + Body(s[1..], Next(s, st, l, single), l, single)
    else if single then Lead(st, l) + [APOSTROPHE]
    else []
  }

  function SingleQuotedText(value: Text, p: Pen, l: Settings): Text {
    Opening(APOSTROPHE, p) + Body(value, Stand(AfterOpening(p), true, false, false), l, true)
  }

  function PlainText(value: Text, p: Pen, l: Settings, inFlow: bool): Text {
    var space := !p.whitespace && (value != [] || inFlow);
    (if space then [SPACE] else []) + Body(value, Stand(Move(p, if space then 1 else 0), true, false, false), l, false)
  }

  // ---- The writers ----

  /** Writes a space, or a line break in its place. */
  method WriteSpace(w: Writer, l: Settings, fold: bool)
    requires w.Valid()
    modifies w
    ensures w.Valid()
    ensures w.text == old(w.text) + (if fold then IndentText(l, old(w.CurrentPen())) else [SPACE])
    ensures w.CurrentPen() == if fold then Indented(l) else Move(old(w.CurrentPen()), 1)
  {
    if fold {
      w.WriteIndent(l);
    } else {
      w.Put(SPACE);
    }
  }

  /** Writes a line break, and another one before it if it is a line feed after a word. */
  method WriteBreaks(w: Writer, l: Settings, c: nat, breaks: bool)
    requires w.Valid() && IsBreak(c)
    modifies w
    ensures w.Valid()
    ensures w.text == old(w.text) + ((if !breaks && c == LF then BreakOf(l.lineBreak) else []) + BreakAs(c, l.lineBreak))
    ensures w.CurrentPen() == Pen(0, old(w.whitespace), true)
  {
    hide BreakOf;
    if !breaks && c == LF {
      w.PutBreak(l.lineBreak);
    }
    w.WriteBreak(c, l.lineBreak);
    w.indention := true;
  }

  method WriteQuoted(w: Writer, c: nat, single: bool)
    requires w.Valid() && !IsBreak(c)
    modifies w
    ensures w.Valid() && w.text == old(w.text) + Quoted(c, single)
    ensures w.CurrentPen() == Move(old(w.CurrentPen()), |Quoted(c, single)|)
  {
    hide ColumnOf;
    if single && c == APOSTROPHE {
      Assoc(w.text, [APOSTROPHE], [c]);
      assert [APOSTROPHE] + [c] == Quoted(c, single);
      w.Put(APOSTROPHE);
    }
    w.Put(c);
  }

  /** Writes a character of a word, indented if line breaks precede it. */
  method WriteWord(w: Writer, l: Settings, c: nat, single: bool, breaks: bool)
    requires w.Valid() && !IsBreak(c)
    modifies w
    ensures w.Valid()
    ensures w.text == old(w.text) + ((if breaks then IndentText(l, old(w.CurrentPen())) else []) + Quoted(c, single))
    ensures w.CurrentPen()
         == Move(if breaks then Indented(l) else old(w.CurrentPen()), |Quoted(c, single)|).(indention := false)
  {
    hide IndentText, Quoted;
    if breaks {
      w.WriteIndent(l);
    }
    WriteQuoted(w, c, single);
    w.indention := false;
  }

  /** Writes the character at `i`. */
  method WritePiece(w: Writer, l: Settings, value: Text, i: nat, single: bool, spaces: bool, breaks: bool)
      returns (spaces': bool, breaks': bool)
    requires w.Valid() && i < |value|
    modifies w
    ensures w.Valid()
    ensures w.text == old(w.text) + Piece(value[i..], Stand(old(w.CurrentPen()), i == 0, spaces, breaks), l, single)
    ensures Stand(w.CurrentPen(), false, spaces', breaks')
         == Next(value[i..], Stand(old(w.CurrentPen()), i == 0, spaces, breaks), l, single)
  {
    hide IndentText, BreakOf, BreakAs, Quoted;
    spaces', breaks' := spaces, breaks;
    if value[i] == SPACE {
      WriteSpace(w, l, l.allowBreaks && !spaces && w.column > l.bestWidth
        && (!single || (i != 0 && i != |value| - 1)) && !(i + 1 < |value| && value[i + 1] == SPACE));
      spaces' := true;
    } else if IsBreak(value[i]) {
      WriteBreaks(w, l, value[i], breaks);
      breaks' := true;
    } else {
      WriteWord(w, l, value[i], single, breaks);
      spaces', breaks' := false, false;
    }
  }

  lemma BodyStep(value: Text, i: nat, st: Stand, l: Settings, single: bool, before: Text)
    requires i < |value|
    ensures
      before + Body(value[i..], st, l, single)
      == (before + Piece(value[i..], st, l, single)) + Body(value[i + 1..], Next(value[i..], st, l, single), l, single)
  {
    hide Piece, Next;
    assert value[i..][1..] == value[i + 1..];
  }

  /** The loop that both writers have. */
  method WriteSpaced(w: Writer, l: Settings, value: Text, single: bool) returns (spaces: bool, breaks: bool)
    requires w.Valid()
    modifies w
    ensures w.Valid()
    ensures w.text + Body([], Stand(w.CurrentPen(), value == [], spaces, breaks), l, single)
         == old(w.text) + Body(value, Stand(old(w.CurrentPen()), true, false, false), l, single)
  {
    hide *;
    ghost var goal := w.text + Body(value, Stand(w.CurrentPen(), true, false, false), l, single);
    assert value[0..] == value;
    var i := 0;
    spaces, breaks := false, false;
    while i < |value|
      invariant 0 <= i <= |value| && w.Valid()
      invariant w.text + Body(value[i..], Stand(w.CurrentPen(), i == 0, spaces, breaks), l, single) == goal
    {
      BodyStep(value, i, Stand(w.CurrentPen(), i == 0, spaces, breaks), l, single, w.text);
      spaces, breaks := WritePiece(w, l, value, i, single, spaces, breaks);
      i := i + 1;
    }
    assert value[i..] == [] && (i == 0) == (value == []);
  }

  lemma QuoteCloses(st: Stand, l: Settings, before: Text)
    ensures before + Body([], st, l, true)
         == (if st.breaks then before + IndentText(l, st.pen) else before) + [] + [APOSTROPHE]
  {
    Assoc(before, Lead(st, l), [APOSTROPHE]);
    assert before + [] == before;
  }

  method WriteSingleQuoted(w: Writer, l: Settings, value: Text)
    requires w.Valid()
    modifies w
    ensures w.Valid() && !w.whitespace && !w.indention
    ensures w.text == old(w.text) + SingleQuotedText(value, old(w.CurrentPen()), l)
  {
    hide IndentText, Piece, Next, Body, ColumnOf, Opening, AfterOpening;
    ghost var p := w.CurrentPen();
    Assoc(w.text, Opening(APOSTROPHE, p), Body(value, Stand(AfterOpening(p), true, false, false), l, true));
    WriteOpening(w, APOSTROPHE);
    var spaces, breaks := WriteSpaced(w, l, value, true);
    QuoteCloses(Stand(w.CurrentPen(), value == [], spaces, breaks), l, w.text);
    if breaks {
      w.WriteIndent(l);
    }
    w.WriteIndicator([APOSTROPHE], false, false, false);
  }

  lemma BodyOfNothing(st: Stand, l: Settings, before: Text)
    ensures before + Body([], st, l, false) == before
  {
  }

  method WritePlain(w: Writer, l: Settings, value: Text, inFlow: bool)
    requires w.Valid()
    modifies w
    ensures w.Valid() && !w.whitespace && !w.indention
    ensures w.text == old(w.text) + PlainText(value, old(w.CurrentPen()), l, inFlow)
  {
    hide Piece, Next, ColumnOf, Body;
    ghost var before := w.text;
    assert before + [] == before;
    if !w.whitespace && (|value| > 0 || inFlow) {
      w.Put(SPACE);
    }
    var spaces, breaks := WriteSpaced(w, l, value, false);
    BodyOfNothing(Stand(w.CurrentPen(), value == [], spaces, breaks), l, w.text);
    Assoc(before, [SPACE], Body(value, Stand(Move(old(w.CurrentPen()), 1), true, false, false), l, false));
    Assoc(before, [], Body(value, Stand(Move(old(w.CurrentPen()), 0), true, false, false), l, false));
    w.whitespace, w.indention := false, false;
  }
}
