/** Literal scalars: what the emitter writes, and that the scanner reads it back. */
module LiteralScalars {
  import opened Characters
  import opened Layout
  import opened FlowScanner
  import opened BlockScanner
  import Folding
  import D = Dispatch

  const BAR: nat := '|' as nat

  /** The values that may be literal: printable, with no space at the end of a line. */
  predicate LiteralAllowed(s: Text, unicode: bool) {
    && s != [] && s[|s| - 1] != SPACE
    && (forall i | 0 <= i < |s| :: IsPlainlyWritten(s[i], unicode))
    && (forall i | 0 <= i < |s| - 1 :: s[i] == SPACE ==> !IsBreak(s[i + 1]))
  }

  // ---- The text that is written ----

  /** The chomping that keeps the line breaks at the end of a value, and only these. */
  function ChompingFor(s: Text): Chomping {
    if s == [] || !IsBreak(s[|s| - 1]) then Strip
    else if |s| == 1 || IsBreak(s[|s| - 2]) then Keep
    else Clip
  }

  function ChompingText(c: Chomping): Text {
    match c
    case Strip => ['-' as nat]
    case Clip => []
    case Keep => ['+' as nat]
  }

  /** Whether the indentation cannot be told from the first line. */
  predicate NeedsIndentHint(s: Text) {
    s != [] && (s[0] == SPACE || IsBreak(s[0]))
  }

  function Hints(s: Text, bestIndent: nat): Text {
    (if NeedsIndentHint(s) then [0x30 + bestIndent] else []) + ChompingText(ChompingFor(s))
  }

  /** The text for the rest of a value. */
  function Body(s: Text, p: Pen, breaks: bool, l: Settings): Text
    decreases |s|
  {
    if s == [] then []
    else if IsBreak(s[0]) then
      BreakAs(s[0], l.lineBreak) + Body(s[1..], Pen(0, p.whitespace, true), true, l)
    else
      (if breaks then IndentText(l, p) else []) + [s[0]]
      + Body(s[1..], Move(if breaks then Indented(l) else p, 1).(indention := false), false, l)
  }

  function LiteralText(value: Text, p: Pen, l: Settings, bestIndent: nat): Text {
    Opening(BAR, p) + Hints(value, bestIndent) + BreakOf(l.lineBreak) + Body(value, Pen(0, true, true), true, l)
  }

  // ---- The writer ----

  /** Chooses the chomping indicator, and tells whether the text ends with kept line breaks. */
  method ChooseChomping(value: Text) returns (hint: Text, openEnded: bool)
    ensures hint == ChompingText(ChompingFor(value))
    ensures openEnded <==> ChompingFor(value).Keep?
  {
    hint, openEnded := [], false;
    if value == [] {
      hint := ['-' as nat];
    } else if !IsBreak(value[|value| - 1]) {
      hint := ['-' as nat];
    } else if |value| == 1 || IsBreak(value[|value| - 2]) {
      hint, openEnded := ['+' as nat], true;
    }
  }

  /** Writes the indicators behind `|`. */
  method WriteHints(w: Writer, value: Text, bestIndent: nat) returns (openEnded: bool)
    requires w.Valid() && 2 <= bestIndent <= 9
    modifies w
    ensures w.Valid() && w.text == old(w.text) + Hints(value, bestIndent)
    ensures openEnded <==> ChompingFor(value).Keep?
  {
    ghost var hint := ChompingText(ChompingFor(value));
    hide ChompingFor, ColumnOf;
    var chomping;
    chomping, openEnded := ChooseChomping(value);
    if value != [] && (value[0] == SPACE || IsBreak(value[0])) {
      Assoc(w.text, [0x30 + bestIndent], hint);
      w.WriteIndicator([0x30 + bestIndent], false, false, false);
      assert w.text == old(w.text) + [0x30 + bestIndent];
    }
    if chomping != [] {
      w.WriteIndicator(chomping, false, false, false);
    }
  }

  lemma BodyStep(value: Text, i: nat, p: Pen, breaks: bool, l: Settings, before: Text)
    requires i < |value|
    ensures
      var c, tail := value[i], value[i + 1..];
      before + Body(value[i..], p, breaks, l)
      == if IsBreak(c) then before + BreakAs(c, l.lineBreak) + Body(tail, Pen(0, p.whitespace, true), true, l)
         else if breaks then before + IndentText(l, p) + [c] + Body(tail, Move(Indented(l), 1).(indention := false), false, l)
         else before + [c] + Body(tail, Move(p, 1).(indention := false), false, l)
  {
    hide IndentText, BreakAs;
    assert value[i..][1..] == value[i + 1..];
  }

  /** Nothing stands on the last line. */
  predicate LeavesLine(value: Text) {
    value == [] || IsBreak(value[|value| - 1])
  }

  /** Writes the lines of a value. */
  method WriteLines(w: Writer, l: Settings, value: Text)
    requires w.Valid()
    modifies w
    ensures w.Valid() && w.text == old(w.text) + Body(value, old(w.CurrentPen()), true, l)
    ensures old(w.whitespace) ==> w.whitespace
    ensures w.indention == if value == [] then old(w.indention) else IsBreak(value[|value| - 1])
  {
    hide Body, IndentText, BreakAs, BreakOf, ColumnOf, IsBreak, Spaces;
    var i, breaks := 0, true;
    ghost var goal := w.text + Body(value, w.CurrentPen(), true, l);
    assert value[0..] == value;
    while i < |value|
      invariant 0 <= i <= |value| && w.Valid()
      invariant w.text + Body(value[i..], w.CurrentPen(), breaks, l) == goal
      invariant old(w.whitespace) ==> w.whitespace
      invariant w.indention == if i == 0 then old(w.indention) else IsBreak(value[i - 1])
    {
      BodyStep(value, i, w.CurrentPen(), breaks, l, w.text);
      if IsBreak(value[i]) {
        w.WriteBreak(value[i], l.lineBreak);
        w.indention, breaks := true, true;
      } else {
        if breaks {
          w.WriteIndent(l);
        }
        w.Put(value[i]);
        w.indention, breaks := false, false;
      }
      i := i + 1;
    }
    assert value[i..] == [];
    BodyEnd(w.CurrentPen(), breaks, l, w.text);
  }

  method WriteLiteral(w: Writer, l: Settings, value: Text, bestIndent: nat) returns (openEnded: bool)
    requires w.Valid() && 2 <= bestIndent <= 9
    modifies w
    ensures w.Valid() && w.text == old(w.text) + LiteralText(value, old(w.CurrentPen()), l, bestIndent)
    ensures openEnded <==> ChompingFor(value).Keep?
    ensures w.whitespace && w.indention == LeavesLine(value)
  {
    hide Body, Hints, ChompingFor, BreakOf, ColumnOf;
    ghost var p := w.CurrentPen();
    w.WriteIndicator([BAR], true, false, false);
    assert w.text == old(w.text) + Opening(BAR, p);
    openEnded := WriteHints(w, value, bestIndent);
    w.PutBreak(l.lineBreak);
    w.indention, w.whitespace := true, true;
    WriteLines(w, l, value);
    Regroup(old(w.text), Opening(BAR, p), Hints(value, bestIndent), BreakOf(l.lineBreak), Body(value, Pen(0, true, true), true, l));
  }

  lemma BodyEnd(p: Pen, breaks: bool, l: Settings, before: Text)
    ensures before + Body([], p, breaks, l) == before
  {
  }

  lemma Regroup(a: Text, b: Text, c: Text, d: Text, e: Text)
    ensures (((a + b) + c) + d) + e == a + (((b + c) + d) + e)
  {
    Assoc(a, b, c);
    Assoc(a, b + c, d);
    Assoc(a, (b + c) + d, e);
  }

  // ---- The round trip ----

  /** The chomping for the rest of a value: after text, after one break behind text, or after more
      breaks (or breaks at the start). */
  datatype Past = InText | OneBreak | MoreBreaks

  function PastNext(k: Past, c: nat): Past {
    if !IsBreak(c) then InText else if k.InText? then OneBreak else MoreBreaks
  }

  function ChompingAfter(s: Text, k: Past): Chomping
    decreases |s|
  {
    if s != [] then ChompingAfter(s[1..], PastNext(k, s[0]))
    else match k
      case InText => Strip
      case OneBreak => Clip
      case MoreBreaks => Keep
  }

  lemma {:induction false} ChompingForIsAfter(s: Text, k: Past)
    requires s != [] && (k.InText? ==> |s| > 1)
    ensures ChompingFor(s) == ChompingAfter(s, k)
    decreases |s|
  {
    var next := PastNext(k, s[0]);
    assert ChompingAfter(s, k) == ChompingAfter(s[1..], next);
    if |s| == 1 {
      assert ChompingAfter(s[1..], next) == if IsBreak(s[0]) then Keep else Strip;
    } else if |s| == 2 {
      var last := s[1..];
      assert last[1..] == [];
      assert ChompingAfter(last, next) == ChompingAfter([], PastNext(next, s[1]));
    } else {
      ChompingForIsAfter(s[1..], next);
    }
  }

  /** The text that follows is on a line that is indented less. */
  predicate EndsBlock(t: Text, column: nat, indent: nat) {
    column < indent
    && if t != [] && t[0] == SPACE then EndsBlock(t[1..], column + 1, indent) else t == [] || !IsGapChar(t[0])
  }

  function SkipSpaces(t: Text): Text {
    if t != [] && t[0] == SPACE then SkipSpaces(t[1..]) else t
  }

  predicate EndsLine(t: Text, l: Settings) {
    var br := BreakOf(l.lineBreak);
    t == [] || (br <= t && EndsBlock(t[|br|..], 0, l.indent))
  }

  /** What may follow a literal scalar: the line ends first if the value did not end it. */
  predicate EndsBlockScalar(rest: Text, value: Text, l: Settings) {
    if value != [] && IsBreak(value[|value| - 1]) then EndsBlock(rest, 0, l.indent)
    else EndsLine(rest, l)
  }

  function Leftover(rest: Text): Text {
    SkipSpaces(SkipBreak(rest))
  }

  lemma {:induction false} BlockEnds(t: Text, column: nat, n: Lines, indent: nat, m: nat, i: int, c: Manner)
    requires EndsBlock(t, column, indent)
    ensures ScanBreaks(t, column, n, indent, m, i, c) == Value(Chomped(n, c.chomping), SkipSpaces(t))
    decreases |t|
  {
    if t != [] && t[0] == SPACE {
      BlockEnds(t[1..], column + 1, n, indent, m, i, c);
    }
  }

  /** The rest of a literal value. */
  predicate Inside(s: Text, k: Past, rest: Text, l: Settings, c: Manner) {
    && l.indent > 0
    && (forall i | 0 <= i < |s| :: IsPlainlyWritten(s[i], l.unicode))
    && c.chomping == ChompingAfter(s, k)
    && if (s == [] && k.InText?) || (s != [] && !IsBreak(s[|s| - 1])) then
         EndsLine(rest, l)
       else EndsBlock(rest, 0, l.indent)
  }

  lemma StillInside(s: Text, k: Past, rest: Text, l: Settings, c: Manner)
    requires s != [] && Inside(s, k, rest, l, c)
    ensures Inside(s[1..], PastNext(k, s[0]), rest, l, c)
  {
    var t := s[1..];
    assert t != [] ==> t[|t| - 1] == s[|s| - 1];
  }

  /** Inside a line. */
  lemma {:induction false} InLine(s: Text, p: Pen, l: Settings, v: Text, blank: bool, rest: Text, column: nat, i: int, c: Manner)
    requires Inside(s, InText, rest, l, c) && c.literal && column > l.indent
    ensures ScanText(Body(s, p, false, l) + rest, column, v, blank, l.indent, i, c) == Value(v + s, Leftover(rest))
    decreases |s|, 0
  {
    if s == [] {
      assert Body(s, p, false, l) + rest == rest && v + s == v;
      LineEnds(v, blank, rest, l, column, i, c);
    } else {
      StillInside(s, InText, rest, l, c);
      TakeOne(v, s);
      if IsBreak(s[0]) {
        var next := Pen(0, p.whitespace, true);
        var tail := Body(s[1..], next, true, l);
        Assoc(BreakAs(s[0], l.lineBreak), tail, rest);
        NoLineFeed(s[1..], next, l, rest, OneBreak, c);
        BreakEndsLine(s[0], tail + rest, v, blank, l, column, i, c);
        InBreaks(s[1..], next, l, Lines(v, [s[0]], [], blank), OneBreak, rest, 0, i, c);
        assert v + [s[0]] + [] == v + [s[0]];
      } else {
        var next := Move(p, 1).(indention := false);
        var tail := Body(s[1..], next, false, l);
        assert Body(s, p, false, l) == [] + [s[0]] + tail == [s[0]] + tail;
        assert Body(s, p, false, l) + rest == [s[0]] + (tail + rest);
        assert ([s[0]] + (tail + rest))[1..] == tail + rest;
        InLine(s[1..], next, l, v + [s[0]], blank, rest, column + 1, i, c);
      }
    }
  }

  lemma LineEnds(v: Text, blank: bool, rest: Text, l: Settings, column: nat, i: int, c: Manner)
    requires c.chomping.Strip? && l.indent > 0 && column > l.indent
    requires EndsLine(rest, l)
    ensures ScanText(rest, column, v, blank, l.indent, i, c) == Value(v, Leftover(rest))
  {
    if rest != [] {
      var t := rest[|BreakOf(l.lineBreak)|..];
      assert rest == BreakOf(l.lineBreak) + t;
      Folding.BreakIsGap(l.lineBreak, t);
      BlockEnds(t, 0, Lines(v, [LF], [], blank), l.indent, 0, i, c);
    }
  }

  lemma BreakEndsLine(c: nat, t: Text, v: Text, blank: bool, l: Settings, column: nat, i: int, manner: Manner)
    requires IsPlainlyWritten(c, l.unicode) && IsBreak(c) && l.indent > 0 && (l.lineBreak.Cr? ==> Look(t, 0) != LF)
    ensures ScanText(BreakAs(c, l.lineBreak) + t, column, v, blank, l.indent, i, manner)
         == ScanBreaks(t, 0, Lines(v, [c], [], blank), l.indent, 0, i, manner)
  {
    if c == LF {
      Folding.BreakIsGap(l.lineBreak, t);
    } else {
      assert ([c] + t)[1..] == t;
    }
  }

  lemma NoLineFeed(s: Text, p: Pen, l: Settings, rest: Text, k: Past, c: Manner)
    requires Inside(s, k, rest, l, c) && !k.InText?
    requires p.column == 0 && p.indention
    ensures l.lineBreak.Cr? ==> Look(Body(s, p, true, l) + rest, 0) != LF
  {
  }

  lemma {:induction false} IndentSkipped(k: nat, n: nat, t: Text, b: Lines, indent: nat, m: nat, i: int, c: Manner)
    requires indent == 0 || k + n <= indent
    ensures ScanBreaks(Spaces(n) + t, k, b, indent, m, i, c) == ScanBreaks(t, k + n, b, indent, m, i, c)
    decreases n
  {
    if n > 0 {
      assert (Spaces(n) + t)[1..] == Spaces(n - 1) + t;
      IndentSkipped(k + 1, n - 1, t, b, indent, m, i, c);
    } else {
      assert Spaces(n) + t == t;
    }
  }

  /** Among line breaks, `n` of them read so far. */
  lemma {:induction false} InBreaks(s: Text, p: Pen, l: Settings, n: Lines, k: Past, rest: Text, m: nat, i: int, c: Manner)
    requires Inside(s, k, rest, l, c) && c.literal && p.column == 0 && p.indention && !k.InText? && (k.OneBreak? ==> n.trailing == [])
    ensures ScanBreaks(Body(s, p, true, l) + rest, 0, n, l.indent, m, i, c)
         == Value((n.value + n.leading + n.trailing) + s, Leftover(rest))
    decreases |s|, 1
  {
    var all := n.value + n.leading + n.trailing;
    if s == [] {
      assert Body(s, p, true, l) + rest == rest && all + s == all;
      BlockEnds(rest, 0, n, l.indent, m, i, c);
      assert SkipBreak(rest) == rest;
    } else if IsBreak(s[0]) {
      StillInside(s, k, rest, l, c);
      var tail := Body(s[1..], Pen(0, p.whitespace, true), true, l);
      Assoc(BreakAs(s[0], l.lineBreak), tail, rest);
      NoLineFeed(s[1..], Pen(0, p.whitespace, true), l, rest, MoreBreaks, c);
      BreakIsKept(s[0], tail + rest, n, l, m, i, c);
      InBreaks(s[1..], Pen(0, p.whitespace, true), l, n.(trailing := n.trailing + [s[0]]), MoreBreaks, rest, m, i, c);
      Assoc(n.value + n.leading, n.trailing, [s[0]]);
      TakeOne(all, s);
    } else {
      LineStarts(s, p, l, n, k, rest, l.indent, m, i, c);
    }
  }

  lemma BreakIsKept(c: nat, t: Text, n: Lines, l: Settings, m: nat, i: int, manner: Manner)
    requires IsPlainlyWritten(c, l.unicode) && IsBreak(c) && l.indent > 0 && (l.lineBreak.Cr? ==> Look(t, 0) != LF)
    ensures ScanBreaks(BreakAs(c, l.lineBreak) + t, 0, n, l.indent, m, i, manner)
         == ScanBreaks(t, 0, n.(trailing := n.trailing + [c]), l.indent, m, i, manner)
  {
    if c == LF {
      Folding.BreakIsGap(l.lineBreak, t);
    } else {
      assert ([c] + t)[1..] == t;
    }
  }

  /** A line that is not empty starts; its indentation was given, or is found out. */
  lemma {:induction false} LineStarts(s: Text, p: Pen, l: Settings, n: Lines, k: Past, rest: Text, indent: nat, m: nat, i: int, c: Manner)
    requires Inside(s, k, rest, l, c) && c.literal && p.column == 0 && p.indention && s != [] && !IsBreak(s[0])
    requires indent == l.indent || (indent == 0 && s[0] != SPACE && m <= l.indent && i < l.indent)
    ensures ScanBreaks(Body(s, p, true, l) + rest, 0, n, indent, m, i, c)
         == Value((n.value + n.leading + n.trailing) + s, Leftover(rest))
    decreases |s|, 0
  {
    var all := n.value + n.leading + n.trailing;
    var next := Move(Indented(l), 1).(indention := false);
    var tail := Body(s[1..], next, false, l);
    StillInside(s, k, rest, l, c);
    assert IsPlainlyWritten(s[0], l.unicode);
    assert Body(s, p, true, l) == (Spaces(l.indent) + [s[0]]) + tail;
    hide Body, Inside;
    var line := [s[0]] + (tail + rest);
    Assoc(Spaces(l.indent) + [s[0]], tail, rest);
    Assoc(Spaces(l.indent), [s[0]], tail + rest);
    IndentSkipped(0, l.indent, line, n, indent, m, i, c);
    assert line[1..] == tail + rest;
    assert ScanBreaks(line, l.indent, n, indent, m, i, c) == ScanNext(line, l.indent, n, l.indent, i, c);
    InLine(s[1..], next, l, all + [s[0]], IsBlank(s[0]), rest, l.indent + 1, i, c);
    TakeOne(all, s);
  }

  /** The header is read back. */
  lemma HintsComeBack(value: Text, bestIndent: nat, t: Text)
    requires 2 <= bestIndent <= 9 && IsBreak(Look(t, 0))
    ensures HeaderAt(Hints(value, bestIndent) + t)
         == Header(ChompingFor(value), if NeedsIndentHint(value) then bestIndent else 0, t)
  {
    var hints := Hints(value, bestIndent);
    hide ChompingFor, NeedsIndentHint;
    assert (hints + t)[|hints|..] == t;
  }

  /** The scanner takes a literal scalar for one and reads its value back with all its line
      breaks, if the value may be literal and what follows is indented less; `parserIndent` is
      the indentation of the block that holds the scalar, or -1. */
  lemma LiteralComesBack(value: Text, p: Pen, l: Settings, bestIndent: nat, rest: Text, column: nat, parserIndent: int)
    requires LiteralAllowed(value, l.unicode) && 2 <= bestIndent <= 9 && parserIndent >= -1
    requires l.indent == Max(parserIndent, 0) + bestIndent && EndsBlockScalar(rest, value, l)
    ensures
      var text := LiteralText(value, p, l, bestIndent) + rest;
      var start := if p.whitespace then 0 else 1;
      && |text| > start && text[..start] == Spaces(start)
      && D.KindAt(text[start..], column, false) == D.Literal
      && ScanBlock(text[start + 1..], column + 1, parserIndent, true) == Value(value, Leftover(rest))
  {
    hide *;
    LiteralTextIs(value, p, l, bestIndent, rest);
    ScansBack(value, l, bestIndent, rest, column + 1, parserIndent);
    BarIsLiteral((LiteralText(value, p, l, bestIndent) + rest)[if p.whitespace then 0 else 1..], column);
  }

  lemma BarIsLiteral(t: Text, column: nat)
    requires t != [] && t[0] == BAR
    ensures D.KindAt(t, column, false) == D.Literal
  {
  }

  /** The scanner behind a header that ends its line. */
  lemma HeaderReads(t: Text, h: Header, b: LineBreak, body: Text, column: nat, i: int, literal: bool)
    requires i >= -1 && HeaderAt(t) == h && h.Header? && h.rest == BreakOf(b) + body && (b.Cr? ==> Look(body, 0) != LF)
    ensures ScanBlock(t, column, i, literal)
         == ScanBreaks(body, 0, Lines([], [], [], false), if h.increment == 0 then 0 else Max(i, 0) + h.increment, 0, i, Manner(literal, h.chomping))
  {
    hide HeaderAt, ScanBreaks;
    Folding.BreakIsGap(b, body);
    assert SkipComment(h.rest) == h.rest && SkipBreak(h.rest) == body;
  }

  lemma ScansBack(value: Text, l: Settings, bestIndent: nat, rest: Text, column: nat, parserIndent: int)
    requires LiteralAllowed(value, l.unicode) && 2 <= bestIndent <= 9 && parserIndent >= -1
    requires l.indent == Max(parserIndent, 0) + bestIndent && EndsBlockScalar(rest, value, l)
    ensures
      var line := BreakOf(l.lineBreak) + (Body(value, Pen(0, true, true), true, l) + rest);
      ScanBlock(Hints(value, bestIndent) + line, column, parserIndent, true) == Value(value, Leftover(rest))
  {
    var body := Body(value, Pen(0, true, true), true, l) + rest;
    var line := BreakOf(l.lineBreak) + body;
    var text := Hints(value, bestIndent) + line;
    StartsInside(value, l, rest);
    hide *;
    HintsComeBack(value, bestIndent, line);
    HeaderReads(text, HeaderAt(text), l.lineBreak, body, column, parserIndent, true);
    BodyReads(value, l, bestIndent, rest, parserIndent);
  }

  lemma StartsInside(value: Text, l: Settings, rest: Text)
    requires LiteralAllowed(value, l.unicode) && l.indent > 0 && EndsBlockScalar(rest, value, l)
    ensures Inside(value, OneBreak, rest, l, Manner(true, ChompingFor(value))) && value != []
    ensures
      var body := Body(value, Pen(0, true, true), true, l) + rest;
      IsBreak(Look(BreakOf(l.lineBreak) + body, 0)) && (l.lineBreak.Cr? ==> Look(body, 0) != LF)
  {
    ChompingForIsAfter(value, OneBreak);
    assert Inside(value, OneBreak, rest, l, Manner(true, ChompingFor(value)));
    NoLineFeed(value, Pen(0, true, true), l, rest, OneBreak, Manner(true, ChompingFor(value)));
  }

  lemma BodyReads(value: Text, l: Settings, bestIndent: nat, rest: Text, i: int)
    requires value != [] && Inside(value, OneBreak, rest, l, Manner(true, ChompingFor(value)))
    requires i >= -1 && bestIndent > 0 && l.indent == Max(i, 0) + bestIndent
    ensures
      ScanBreaks(Body(value, Pen(0, true, true), true, l) + rest, 0, Lines([], [], [], false),
                 if NeedsIndentHint(value) then l.indent else 0, 0, i, Manner(true, ChompingFor(value)))
      == Value(value, Leftover(rest))
  {
    var n := Lines([], [], [], false);
    assert n.value + n.leading + n.trailing + value == value;
    if NeedsIndentHint(value) {
      InBreaks(value, Pen(0, true, true), l, n, OneBreak, rest, 0, i, Manner(true, ChompingFor(value)));
    } else {
      LineStarts(value, Pen(0, true, true), l, n, OneBreak, rest, 0, 0, i, Manner(true, ChompingFor(value)));
    }
  }

  lemma LiteralTextIs(value: Text, p: Pen, l: Settings, bestIndent: nat, rest: Text)
    ensures
      var start := if p.whitespace then 0 else 1;
      var text := LiteralText(value, p, l, bestIndent) + rest;
      && |text| > start && text[..start] == Spaces(start) && text[start] == BAR
      && text[start + 1..]
         == Hints(value, bestIndent) + (BreakOf(l.lineBreak) + (Body(value, Pen(0, true, true), true, l) + rest))
  {
    var start := if p.whitespace then 0 else 1;
    var h, br, body := Hints(value, bestIndent), BreakOf(l.lineBreak), Body(value, Pen(0, true, true), true, l);
    hide Hints, Body, BreakOf;
    assert Spaces(1) == [SPACE] + Spaces(0);
    assert Opening(BAR, p) == Spaces(start) + [BAR];
    assert LiteralText(value, p, l, bestIndent) + rest == Opening(BAR, p) + (h + (br + (body + rest))) by {
      Regroup(Opening(BAR, p), h, br, body, rest);
      Regroup(h, br, body, rest, []);
      Assoc(h, br, body);
      Assoc(h, br + body, rest);
      Assoc(br, body, rest);
    }
  }
}
