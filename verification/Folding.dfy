/** How the scanner of quoted scalars reads the line breaks and the indentation that the emitter
    writes. */
module Folding {
  import opened Characters
  import opened Layout
  import opened FlowScanner

  /** The scanner passes over indentation after a line break. */
  lemma {:induction false} IndentIsGap(k: nat, n: nat, t: Text, v: Text, g: Gap, single: bool)
    requires g.broken
    ensures ScanGap(Spaces(n) + t, k, v, g, single) == ScanGap(t, k + n, v, g, single)
    decreases n
  {
    if n > 0 {
      assert (Spaces(n) + t)[1..] == Spaces(n - 1) + t;
      IndentIsGap(k + 1, n - 1, t, v, g, single);
    } else {
      assert Spaces(n) + t == t;
    }
  }

  lemma BreakIsGap(b: LineBreak, t: Text)
    requires b.Cr? ==> Look(t, 0) != LF
    ensures IsGapChar((BreakOf(b) + t)[0]) && !IsBlank((BreakOf(b) + t)[0])
    ensures (BreakOf(b) + t)[GapWidth(BreakOf(b) + t)..] == t && BreakText(BreakOf(b) + t) == [LF]
  {
  }

  /** A break and the indentation before a word read as one space. */
  lemma FoldReads(l: Settings, t: Text, v: Text, column: nat, single: bool)
    requires l.indent > 0 && t != [] && !IsGapChar(t[0]) && t[0] != NUL
    ensures ScanOn(BreakOf(l.lineBreak) + Spaces(l.indent) + t, column, v, single)
         == ScanOn(t, l.indent, v + [SPACE], single)
  {
    var after := Spaces(l.indent) + t;
    var text := BreakOf(l.lineBreak) + after;
    assert BreakOf(l.lineBreak) + Spaces(l.indent) + t == text;
    BreakIsGap(l.lineBreak, after);
    var g := Gap(true, [], [LF], []);
    assert ScanOn(text, column, v, single) == ScanGap(after, 0, v, g, single);
    IndentIsGap(0, l.indent, t, v, g, single);
  }

  lemma SpaceReads(t: Text, column: nat, v: Text, single: bool)
    ensures ScanOn([SPACE] + t, column, v, single) == ScanGap(t, column + 1, v, Gap(false, [SPACE], [], []), single)
  {
    assert ([SPACE] + t)[1..] == t;
    assert [] + [SPACE] == [SPACE];
  }
}
