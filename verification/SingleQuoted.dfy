/** Single-quoted scalars: the scanner reads back what the emitter writes. */
module SingleQuoted {
  import opened Characters
  import opened Layout
  import opened FlowScanner
  import opened Folding
  import opened SpacedScalars

  /** The values that may be single-quoted: printable, with no space next to a line break. */
  predicate SingleQuotable(s: Text, unicode: bool) {
    && (forall i | 0 <= i < |s| :: IsPlainlyWritten(s[i], unicode))
    && (forall i | 0 <= i < |s| - 1 :: s[i] == SPACE ==> !IsBreak(s[i + 1]))
    && (forall i | 0 <= i < |s| - 1 :: IsBreak(s[i]) ==> s[i + 1] != SPACE)
  }

  /** The rest of such a value, after a space, a line break or a word. */
  predicate IsRest(s: Text, st: Stand, l: Settings) {
    && l.indent > 0 && SingleQuotable(s, l.unicode)
    && (s != [] && st.spaces ==> !IsBreak(s[0]))
    && (s != [] && st.breaks ==> s[0] != SPACE)
    && !(st.spaces && st.breaks)
    && (!st.spaces && !st.breaks ==> !st.pen.indention)
    && (st.breaks ==> st.pen.indention && st.pen.column == 0)
  }

  lemma StillFollows(s: Text, st: Stand, l: Settings)
    requires s != [] && IsRest(s, st, l)
    ensures IsRest(s[1..], Next(s, st, l, true), l)
  {
    hide IsPlainlyWritten;
    var t := s[1..];
    assert forall i | 0 <= i < |t| :: t[i] == s[i + 1];
  }

  /** Inside a word. */
  lemma {:induction false} InWord(s: Text, st: Stand, l: Settings, v: Text, rest: Text, column: nat)
    requires IsRest(s, st, l) && !st.breaks && column > 0 && Look(rest, 0) != APOSTROPHE
    ensures ScanOn(Body(s, st, l, true) + rest, column, v, true) == Value(v + s, rest)
    decreases |s|, 1
  {
    if s == [] {
      Closes(rest, column, v);
      assert Body(s, st, l, true) == [] + [APOSTROPHE] == [APOSTROPHE] && v + s == v;
    } else {
      var tail := Body(s[1..], Next(s, st, l, true), l, true);
      assert Body(s, st, l, true) == Piece(s, st, l, true) + tail;
      StillFollows(s, st, l);
      Assoc(Piece(s, st, l, true), tail, rest);
      TakeOne(v, s);
      if s[0] == SPACE {
        AtSpace(s, st, l, v, rest, column);
      } else if IsBreak(s[0]) {
        AtBreak(s, st, l, v, rest, column);
      } else {
        assert Piece(s, st, l, true) == [] + Quoted(s[0], true) == Quoted(s[0], true);
        QuotedReads(s[0], tail + rest, l, column, v);
        InWord(s[1..], Next(s, st, l, true), l, v + [s[0]], rest, column + |Quoted(s[0], true)|);
      }
    }
  }

  lemma Closes(rest: Text, column: nat, v: Text)
    requires Look(rest, 0) != APOSTROPHE
    ensures ScanOn([APOSTROPHE] + rest, column, v, true) == Value(v, rest)
  {
    assert ([APOSTROPHE] + rest)[1..] == rest;
    assert Look([APOSTROPHE] + rest, 1) == Look(rest, 0);
  }

  /** A character of a word reads as itself. */
  lemma QuotedReads(c: nat, t: Text, l: Settings, column: nat, v: Text)
    requires IsPlainlyWritten(c, l.unicode) && c != SPACE && !IsBreak(c)
    ensures ScanOn(Quoted(c, true) + t, column, v, true) == ScanOn(t, column + |Quoted(c, true)|, v + [c], true)
    ensures !IsGapChar((Quoted(c, true) + t)[0]) && (Quoted(c, true) + t)[0] != NUL
  {
    assert (Quoted(c, true) + t)[|Quoted(c, true)|..] == t;
  }

  lemma {:induction false} AtSpace(s: Text, st: Stand, l: Settings, v: Text, rest: Text, column: nat)
    requires IsRest(s, st, l) && !st.breaks && column > 0 && Look(rest, 0) != APOSTROPHE
    requires s != [] && s[0] == SPACE && IsRest(s[1..], Next(s, st, l, true), l)
    ensures ScanOn(Piece(s, st, l, true) + (Body(s[1..], Next(s, st, l, true), l, true) + rest), column, v, true)
         == Value((v + [SPACE]) + s[1..], rest)
    decreases |s|, 0
  {
    var next, t := Next(s, st, l, true), Body(s[1..], Next(s, st, l, true), l, true) + rest;
    if Folds(s, st, l, true) {
      assert Piece(s, st, l, true) == BreakOf(l.lineBreak) + Spaces(l.indent);
      WordStarts(s[1..], next, l, rest);
      FoldReads(l, t, v, column, true);
      InWord(s[1..], next, l, v + [SPACE], rest, l.indent);
    } else {
      SpaceReads(t, column, v, true);
      InGap(s[1..], next, l, v, Gap(false, [SPACE], [], []), rest, column + 1);
    }
  }

  /** What follows a gap starts with neither a blank nor a break. */
  lemma WordStarts(s: Text, st: Stand, l: Settings, rest: Text)
    requires IsRest(s, st, l) && !st.breaks && (s != [] ==> s[0] != SPACE && !IsBreak(s[0]))
    ensures Body(s, st, l, true) != []
    ensures !IsGapChar((Body(s, st, l, true) + rest)[0]) && (Body(s, st, l, true) + rest)[0] != NUL
  {
    if s != [] {
      QuotedReads(s[0], [], l, 0, []);
    }
  }

  /** Among spaces that are not folded. */
  lemma {:induction false} InGap(s: Text, st: Stand, l: Settings, v: Text, g: Gap, rest: Text, column: nat)
    requires IsRest(s, st, l) && st.spaces && column > 0 && Look(rest, 0) != APOSTROPHE && !g.broken
    ensures ScanGap(Body(s, st, l, true) + rest, column, v, g, true) == Value((v + g.blanks) + s, rest)
    decreases |s|, 2
  {
    if s != [] && s[0] == SPACE {
      var next, text := Next(s, st, l, true), Body(s, st, l, true) + rest;
      StillFollows(s, st, l);
      assert text[1..] == Body(s[1..], next, l, true) + rest && text[0] == SPACE;
      InGap(s[1..], next, l, v, Widen(g, text), rest, column + 1);
      assert (v + (g.blanks + [SPACE])) + s[1..] == (v + g.blanks) + s;
    } else {
      WordStarts(s, st, l, rest);
      InWord(s, st, l, v + g.blanks, rest, column);
    }
  }

  /** Among line breaks. */
  lemma {:induction false} InBreaks(s: Text, st: Stand, l: Settings, v: Text, g: Gap, rest: Text)
    requires IsRest(s, st, l) && st.breaks && Look(rest, 0) != APOSTROPHE
    requires g.broken && (g.first == [LF] ==> g.more != []) && |g.first| == 1
    ensures ScanGap(Body(s, st, l, true) + rest, 0, v, g, true) == Value((v + Folded(g)) + s, rest)
    decreases |s|, 2
  {
    if s != [] && IsBreak(s[0]) {
      MoreBreaks(s, st, l, v, g, rest);
    } else {
      AfterBreaks(s, st, l, v, g, rest);
    }
  }

  lemma {:induction false} MoreBreaks(s: Text, st: Stand, l: Settings, v: Text, g: Gap, rest: Text)
    requires IsRest(s, st, l) && st.breaks && Look(rest, 0) != APOSTROPHE
    requires g.broken && (g.first == [LF] ==> g.more != []) && |g.first| == 1
    requires s != [] && IsBreak(s[0])
    ensures ScanGap(Body(s, st, l, true) + rest, 0, v, g, true) == Value((v + Folded(g)) + s, rest)
    decreases |s|, 1
  {
    var next, br := Next(s, st, l, true), BreakAs(s[0], l.lineBreak);
    var tail := Body(s[1..], next, l, true);
    BreakFirst(s, st, l);
    StillFollows(s, st, l);
    hide Body, Next, IsRest, ScanGap, ScanLine, ScanWord, ScanOn, BreakAs, IsPlainlyWritten, IsBreak;
    Assoc(br, tail, rest);
    NoLineFeed(s[1..], next, l, rest);
    BreakReads(s[0], l, tail + rest, v, g, 0);
    var wider := g.(more := g.more + [s[0]]);
    assert Folded(wider) == Folded(g) + [s[0]];
    hide Folded;
    InBreaks(s[1..], next, l, v, wider, rest);
    Assoc(v, Folded(g), [s[0]]);
    TakeOne(v + Folded(g), s);
  }

  lemma BreakFirst(s: Text, st: Stand, l: Settings)
    requires IsRest(s, st, l) && st.breaks && s != [] && IsBreak(s[0])
    ensures Body(s, st, l, true) == BreakAs(s[0], l.lineBreak) + Body(s[1..], Next(s, st, l, true), l, true)
    ensures Next(s, st, l, true).breaks && IsPlainlyWritten(s[0], l.unicode)
  {
    hide BreakAs, Next, IsPlainlyWritten;
    var br := BreakAs(s[0], l.lineBreak);
    assert Piece(s, st, l, true) == [] + br == br;
    assert Next(s, st, l, true).breaks by { NextBreaks(s, st, l); }
  }

  lemma NextBreaks(s: Text, st: Stand, l: Settings)
    requires s != [] && IsBreak(s[0])
    ensures Next(s, st, l, true).breaks
  {
  }

  lemma GapCloses(rest: Text, column: nat, v: Text, g: Gap)
    requires Look(rest, 0) != APOSTROPHE && column > 0
    ensures ScanGap([APOSTROPHE] + rest, column, v, g, true) == Value(v + Folded(g), rest)
  {
    hide Folded;
    Closes(rest, column, v + Folded(g));
  }

  /** After line breaks comes the indentation. */
  lemma WordFirst(s: Text, st: Stand, l: Settings)
    requires IsRest(s, st, l) && st.breaks && (s == [] || !IsBreak(s[0]))
    ensures l.indent > 0
    ensures s == [] ==> Body(s, st, l, true) == Spaces(l.indent) + [APOSTROPHE]
    ensures s != [] ==>
      var next := Next(s, st, l, true);
      && Body(s, st, l, true) == (Spaces(l.indent) + Quoted(s[0], true)) + Body(s[1..], next, l, true)
      && !next.breaks && IsPlainlyWritten(s[0], l.unicode) && s[0] != SPACE
  {
  }

  lemma {:induction false} AfterBreaks(s: Text, st: Stand, l: Settings, v: Text, g: Gap, rest: Text)
    requires IsRest(s, st, l) && st.breaks && Look(rest, 0) != APOSTROPHE
    requires g.broken && (s == [] || !IsBreak(s[0]))
    ensures ScanGap(Body(s, st, l, true) + rest, 0, v, g, true) == Value((v + Folded(g)) + s, rest)
    decreases |s|, 1
  {
    hide Body, Next, IsRest, Quoted, IsPlainlyWritten, Spaces, Folded, ScanWord, IsBreak;
    WordFirst(s, st, l);
    if s == [] {
      Assoc(Spaces(l.indent), [APOSTROPHE], rest);
      IndentIsGap(0, l.indent, [APOSTROPHE] + rest, v, g, true);
      GapCloses(rest, l.indent, v, g);
      assert (v + Folded(g)) + s == v + Folded(g);
    } else {
      var next, q := Next(s, st, l, true), Quoted(s[0], true);
      var tail := Body(s[1..], next, l, true);
      StillFollows(s, st, l);
      Assoc(Spaces(l.indent) + q, tail, rest);
      Assoc(Spaces(l.indent), q, tail + rest);
      IndentIsGap(0, l.indent, q + (tail + rest), v, g, true);
      QuotedReads(s[0], tail + rest, l, l.indent, v + Folded(g));
      InWord(s[1..], next, l, v + Folded(g) + [s[0]], rest, l.indent + |q|);
      TakeOne(v + Folded(g), s);
    }
  }

  /** What is written after a line break never makes it longer. */
  lemma NoLineFeed(s: Text, st: Stand, l: Settings, rest: Text)
    requires IsRest(s, st, l) && st.breaks
    ensures l.lineBreak.Cr? ==> Look(Body(s, st, l, true) + rest, 0) != LF
  {
  }

  /** A line break of a value reads as itself. */
  lemma BreakReads(c: nat, l: Settings, t: Text, v: Text, g: Gap, column: nat)
    requires IsPlainlyWritten(c, l.unicode) && IsBreak(c) && (l.lineBreak.Cr? ==> Look(t, 0) != LF)
    ensures g.broken ==>
      ScanGap(BreakAs(c, l.lineBreak) + t, column, v, g, true) == ScanGap(t, 0, v, g.(more := g.more + [c]), true)
    ensures ScanOn(BreakAs(c, l.lineBreak) + t, column, v, true) == ScanGap(t, 0, v, Gap(true, [], [c], []), true)
  {
    if c == LF {
      BreakIsGap(l.lineBreak, t);
    } else {
      assert ([c] + t)[1..] == t;
    }
  }

  lemma {:induction false} AtBreak(s: Text, st: Stand, l: Settings, v: Text, rest: Text, column: nat)
    requires IsRest(s, st, l) && !st.breaks && Look(rest, 0) != APOSTROPHE
    requires s != [] && IsBreak(s[0]) && IsRest(s[1..], Next(s, st, l, true), l)
    ensures ScanOn(Piece(s, st, l, true) + (Body(s[1..], Next(s, st, l, true), l, true) + rest), column, v, true)
         == Value((v + [s[0]]) + s[1..], rest)
    decreases |s|, 0
  {
    var c, b, next := s[0], l.lineBreak, Next(s, st, l, true);
    var t := Body(s[1..], next, l, true) + rest;
    NoLineFeed(s[1..], next, l, rest);
    if c == LF {
      assert Piece(s, st, l, true) + t == BreakOf(b) + (BreakOf(b) + t);
      BreakReads(LF, l, BreakOf(b) + t, v, NO_GAP, column);
      BreakReads(LF, l, t, v, Gap(true, [], [LF], []), 0);
      assert [] + [LF] == [LF];
      InBreaks(s[1..], next, l, v, Gap(true, [], [LF], [LF]), rest);
    } else {
      assert Piece(s, st, l, true) == [] + [c] == [c];
      BreakReads(c, l, t, v, NO_GAP, column);
      InBreaks(s[1..], next, l, v, Gap(true, [], [c], []), rest);
      assert [c] + [] == [c];
    }
  }

  /** The scanner reads a single-quoted scalar back as it was written, if its value may be
      single-quoted and no quote follows. */
  lemma SingleQuotedComesBack(value: Text, p: Pen, l: Settings, rest: Text, column: nat)
    requires SingleQuotable(value, l.unicode) && l.indent > 0 && Look(rest, 0) != APOSTROPHE
    ensures
      var text := SingleQuotedText(value, p, l) + rest;
      var start := if p.whitespace then 0 else 1;
      && |text| > start && text[..start] == Spaces(start)
      && text[start] == APOSTROPHE
      && ScanLine(text[start + 1..], column + 1, [], true) == Value(value, rest)
  {
    hide Body, ScanWord, IsPrintable, SingleQuotable, IsRest, Spaces;
    var st := Stand(AfterOpening(p), true, false, false);
    var body := Body(value, st, l, true);
    QuotableFollows(value, st, l);
    InWord(value, st, l, [], rest, column + 1);
    BodyStarts(value, st, l);
    OneSpace();
    assert [] + value == value;
    var start := if p.whitespace then 0 else 1;
    assert (SingleQuotedText(value, p, l) + rest)[start + 1..] == body + rest;
  }

  lemma OneSpace()
    ensures Spaces(0) == [] && Spaces(1) == [SPACE]
  {
    assert Spaces(1) == [SPACE] + Spaces(0);
  }

  lemma QuotableFollows(value: Text, st: Stand, l: Settings)
    requires SingleQuotable(value, l.unicode) && l.indent > 0 && st == Stand(st.pen, true, false, false) && !st.pen.indention
    ensures IsRest(value, st, l)
  {
  }

  lemma BodyStarts(s: Text, st: Stand, l: Settings)
    requires IsRest(s, st, l)
    ensures Body(s, st, l, true) != [] && Body(s, st, l, true)[0] != NUL
  {
  }
}
