/** The analysis of a scalar and the choice of its style, and that the choice is sound: whatever
    style is chosen, the scanner reads the value back. */
module ScalarStyles {
  import opened Characters
  import opened Events
  import opened Layout
  import FlowScanner
  import D = Dispatch
  import P = PlainScanner
  import PlainScalars
  import SingleQuotedScalars = SingleQuoted
  import DoubleQuotedScalars = DoubleQuoted
  import LiteralScalars
  import FoldedScalars
  import BlockScanner
  import SpacedScalars

  datatype Analysis = Analysis(
    multiline: bool, flowPlainAllowed: bool, blockPlainAllowed: bool, singleQuotedAllowed: bool, blockAllowed: bool)

  // ---- The analysis ----

  /** The character at `i` would be taken for an indicator in flow context. */
  predicate FlowIndicatorAt(s: Text, i: nat)
    requires i < |s|
  {
    || P.IsFlowIndicator(s[i]) || s[i] == '?' as nat || s[i] == ':' as nat
    || (i == 0 && (D.IsIndicator(s[0]) || (s[0] == DASH && IsBlankZ(Look(s, 1)))))
    || (i > 0 && s[i] == HASH && IsBlankZ(s[i - 1]))
  }

  /** The same in block context. */
  predicate BlockIndicatorAt(s: Text, i: nat)
    requires i < |s|
  {
    || (s[i] == ':' as nat && IsBlankZ(Look(s, i + 1)))
    || (i == 0 && (D.IsIndicator(s[0]) || ((s[0] == DASH || s[0] == '?' as nat) && IsBlankZ(Look(s, 1)))))
    || (i > 0 && s[i] == HASH && IsBlankZ(s[i - 1]))
  }

  /** Looks for indicators at one position of the value. */
  method FindIndicators(s: Text, i: nat, precededByWhitespace: bool, followedByWhitespace: bool)
      returns (flowIndicator: bool, blockIndicator: bool)
    requires i < |s|
    requires i > 0 ==> precededByWhitespace == IsBlankZ(s[i - 1])
    requires followedByWhitespace == IsBlankZ(Look(s, i + 1))
    ensures flowIndicator <==> FlowIndicatorAt(s, i)
    ensures blockIndicator <==> BlockIndicatorAt(s, i)
  {
    flowIndicator, blockIndicator := false, false;
    if i == 0 {
      if D.IsIndicator(s[0]) {
        flowIndicator, blockIndicator := true, true;
      }
      if s[0] == '?' as nat || s[0] == ':' as nat {
        flowIndicator := true;
        if followedByWhitespace {
          blockIndicator := true;
        }
      }
      if s[0] == DASH && followedByWhitespace {
        flowIndicator, blockIndicator := true, true;
      }
    } else {
      if P.IsFlowIndicator(s[i]) || s[i] == '?' as nat {
        flowIndicator := true;
      }
      if s[i] == ':' as nat {
        flowIndicator := true;
        if followedByWhitespace {
          blockIndicator := true;
        }
      }
      if s[i] == HASH && precededByWhitespace {
        flowIndicator, blockIndicator := true, true;
      }
    }
  }

  // ---- What holds of the first characters of a value ----

  predicate NoFlowIndicator(s: Text, n: nat)
    requires n <= |s|
  {
    forall i | 0 <= i < n :: !FlowIndicatorAt(s, i)
  }

  predicate NoBlockIndicator(s: Text, n: nat)
    requires n <= |s|
  {
    forall i | 0 <= i < n :: !BlockIndicatorAt(s, i)
  }

  predicate NoSpecial(s: Text, n: nat, unicode: bool)
    requires n <= |s|
  {
    forall i | 0 <= i < n :: IsPlainlyWritten(s[i], unicode)
  }

  predicate NoBreak(s: Text, n: nat)
    requires n <= |s|
  {
    forall i | 0 <= i < n :: !IsBreak(s[i])
  }

  predicate NoSpaceBreak(s: Text, n: nat)
    requires n <= |s|
  {
    forall i | 0 <= i < n - 1 :: s[i] == SPACE ==> !IsBreak(s[i + 1])
  }

  predicate NoBreakSpace(s: Text, n: nat)
    requires n <= |s|
  {
    forall i | 0 <= i < n - 1 :: IsBreak(s[i]) ==> s[i + 1] != SPACE
  }

  lemma Grow(s: Text, n: nat, unicode: bool)
    requires n < |s|
    ensures NoFlowIndicator(s, n + 1) <==> NoFlowIndicator(s, n) && !FlowIndicatorAt(s, n)
    ensures NoBlockIndicator(s, n + 1) <==> NoBlockIndicator(s, n) && !BlockIndicatorAt(s, n)
    ensures NoSpecial(s, n + 1, unicode) <==> NoSpecial(s, n, unicode) && IsPlainlyWritten(s[n], unicode)
    ensures NoBreak(s, n + 1) <==> NoBreak(s, n) && !IsBreak(s[n])
  {
    hide FlowIndicatorAt, BlockIndicatorAt, IsPlainlyWritten, IsBreak;
  }

  lemma GrowPairs(s: Text, n: nat)
    requires n < |s|
    ensures NoSpaceBreak(s, n + 1) <==> NoSpaceBreak(s, n) && !(n > 0 && s[n - 1] == SPACE && IsBreak(s[n]))
    ensures NoBreakSpace(s, n + 1) <==> NoBreakSpace(s, n) && !(n > 0 && IsBreak(s[n - 1]) && s[n] == SPACE)
  {
    hide IsBreak;
    if n > 0 {
      assert s[n] == s[(n - 1) + 1];
    }
  }

  lemma FlowSafe(s: Text)
    requires s != []
    ensures NoFlowIndicator(s, |s|) <==> PlainScalars.IsSafe(s, true) && !FlowIndicatorAt(s, 0)
  {
    hide D.IsIndicator, P.IsFlowIndicator, IsBlankZ;
    if NoFlowIndicator(s, |s|) {
      forall i | 0 <= i < |s|
        ensures !P.IsFlowIndicator(s[i]) && s[i] != '?' as nat && s[i] != ':' as nat
        ensures 0 < i && s[i] == HASH ==> !IsBlankZ(s[i - 1])
      {
        assert !FlowIndicatorAt(s, i);
      }
    }
  }

  lemma BlockSafe(s: Text)
    requires s != []
    ensures NoBlockIndicator(s, |s|) <==> PlainScalars.IsSafe(s, false) && !BlockIndicatorAt(s, 0)
  {
    hide D.IsIndicator, P.IsFlowIndicator, IsBlankZ;
    if NoBlockIndicator(s, |s|) {
      forall i | 0 <= i < |s|
        ensures s[i] == ':' as nat ==> !IsBlankZ(Look(s, i + 1))
        ensures 0 < i && s[i] == HASH ==> !IsBlankZ(s[i - 1])
      {
        assert !BlockIndicatorAt(s, i);
      }
    }
  }

  /** The conditions on a whole value, put together. */
  lemma Verdict(s: Text, unicode: bool)
    requires s != []
    ensures
      var n, onLine := |s|, NoSpecial(s, |s|, unicode) && NoBreak(s, |s|) && s[0] != SPACE && s[|s| - 1] != SPACE;
      && (PlainScalars.PlainAllowed(s, true, unicode)
          <==> onLine && NoFlowIndicator(s, n) && !PlainScalars.StartsDocument(s))
      && (PlainScalars.PlainAllowed(s, false, unicode)
          <==> onLine && NoBlockIndicator(s, n) && !PlainScalars.StartsDocument(s))
  {
    FlowSafe(s);
    BlockSafe(s);
    assert PlainScalars.IsSafe(s, true) ==> !P.IsFlowIndicator(s[0]) && s[0] != '?' as nat && s[0] != ':' as nat;
    assert PlainScalars.IsSafe(s, false) ==> s[0] == ':' as nat ==> !IsBlankZ(Look(s, 1));
    hide IsPlainlyWritten, IsBreak, PlainScalars.StartsDocument, PlainScalars.IsSafe, IsBlankZ, D.IsIndicator,
      P.IsFlowIndicator, NoFlowIndicator, NoBlockIndicator;
  }

  lemma VerdictQuoted(s: Text, unicode: bool)
    requires s != []
    ensures SingleQuotedScalars.SingleQuotable(s, unicode)
       <==> NoSpecial(s, |s|, unicode) && NoSpaceBreak(s, |s|) && NoBreakSpace(s, |s|)
    ensures LiteralScalars.LiteralAllowed(s, unicode)
       <==> NoSpecial(s, |s|, unicode) && NoSpaceBreak(s, |s|) && s[|s| - 1] != SPACE
    ensures NoBreak(s, |s|) ==> NoSpaceBreak(s, |s|) && NoBreakSpace(s, |s|)
    ensures !NoBreak(s, |s|) <==> exists i | 0 <= i < |s| :: IsBreak(s[i])
  {
    hide IsPlainlyWritten, IsBreak;
  }

  /** Where spaces and line breaks were seen, and which of them comes last. */
  datatype Spacing = Spacing(
    leadingSpace: bool, leadingBreak: bool, trailingSpace: bool, trailingBreak: bool,
    breakSpace: bool, spaceBreak: bool, previousSpace: bool, previousBreak: bool)

  predicate SpacingIs(s: Text, n: nat, x: Spacing)
    requires n <= |s|
  {
    && (x.leadingSpace <==> n > 0 && s[0] == SPACE)
    && (x.trailingSpace <==> 0 < n == |s| && s[n - 1] == SPACE)
    && (x.leadingBreak || x.trailingBreak ==> !NoBreak(s, n))
    && (x.previousSpace <==> n > 0 && s[n - 1] == SPACE)
    && (x.previousBreak <==> n > 0 && IsBreak(s[n - 1]))
    && (!x.spaceBreak <==> NoSpaceBreak(s, n))
    && (!x.breakSpace <==> NoBreakSpace(s, n))
  }

  method NoteSpacing(s: Text, i: nat, x: Spacing) returns (y: Spacing)
    requires i < |s| && SpacingIs(s, i, x)
    ensures SpacingIs(s, i + 1, y)
  {
    assert !IsBreak(SPACE);
    hide IsBreak, NoBreak, NoSpaceBreak, NoBreakSpace;
    Grow(s, i, true);
    GrowPairs(s, i);
    y := x;
    if s[i] == SPACE {
      if i == 0 {
        y := y.(leadingSpace := true);
      }
      if i + 1 == |s| {
        y := y.(trailingSpace := true);
      }
      if x.previousBreak {
        y := y.(breakSpace := true);
      }
      y := y.(previousSpace := true, previousBreak := false);
    } else if IsBreak(s[i]) {
      if i == 0 {
        y := y.(leadingBreak := true);
      }
      if i + 1 == |s| {
        y := y.(trailingBreak := true);
      }
      if x.previousSpace {
        y := y.(spaceBreak := true);
      }
      y := y.(previousSpace := false, previousBreak := true);
    } else {
      y := y.(previousSpace := false, previousBreak := false);
    }
  }

  /** What the analysis means: which styles the value allows. */
  predicate IsAnalysis(a: Analysis, s: Text, unicode: bool) {
    && (a.multiline <==> exists i | 0 <= i < |s| :: IsBreak(s[i]))
    && (a.flowPlainAllowed <==> PlainScalars.PlainAllowed(s, true, unicode))
    && (a.blockPlainAllowed <==> s == [] || PlainScalars.PlainAllowed(s, false, unicode))
    && (a.singleQuotedAllowed <==> SingleQuotedScalars.SingleQuotable(s, unicode))
    && (a.blockAllowed <==> LiteralScalars.LiteralAllowed(s, unicode))
  }

  /** A scalar may be written plain, single-quoted or as a block exactly if the analysis says so. */
  method AnalyzeScalar(s: Text, unicode: bool) returns (a: Analysis)
    ensures IsAnalysis(a, s, unicode)
  {
    if s == [] {
      return Analysis(false, false, true, true, false);
    }
    var startsDocument := PlainScalars.StartsDocument(s);
    var flowIndicators, blockIndicators := startsDocument, startsDocument;
    var lineBreaks, specialCharacters := false, false;
    var spacing := Spacing(false, false, false, false, false, false, false, false);
    var precededByWhitespace, followedByWhitespace := true, IsBlankZ(Look(s, 1));
    var i := 0;
    assert SpacingIs(s, 0, spacing);
    hide PlainScalars.StartsDocument, PlainScalars.PlainAllowed, SingleQuotedScalars.SingleQuotable,
      LiteralScalars.LiteralAllowed, FlowIndicatorAt, BlockIndicatorAt, IsPlainlyWritten, IsBreak, IsBlankZ,
      NoSpaceBreak, NoBreakSpace;
    while i < |s|
      invariant 0 <= i <= |s|
      invariant i > 0 ==> precededByWhitespace == IsBlankZ(s[i - 1])
      invariant i < |s| ==> followedByWhitespace == IsBlankZ(Look(s, i + 1))
      invariant !flowIndicators <==> !startsDocument && NoFlowIndicator(s, i)
      invariant !blockIndicators <==> !startsDocument && NoBlockIndicator(s, i)
      invariant !specialCharacters <==> NoSpecial(s, i, unicode)
      invariant !lineBreaks <==> NoBreak(s, i)
      invariant SpacingIs(s, i, spacing)
    {
      hide SpacingIs, NoFlowIndicator, NoBlockIndicator, NoSpecial, NoBreak;
      Grow(s, i, unicode);
      var flowIndicator, blockIndicator := FindIndicators(s, i, precededByWhitespace, followedByWhitespace);
      flowIndicators := flowIndicators || flowIndicator;
      blockIndicators := blockIndicators || blockIndicator;
      if !IsPlainlyWritten(s[i], unicode) {
        specialCharacters := true;
      }
      if IsBreak(s[i]) {
        lineBreaks := true;
      }
      spacing := NoteSpacing(s, i, spacing);
      precededByWhitespace := IsBlankZ(s[i]);
      i := i + 1;
      if i < |s| {
        followedByWhitespace := IsBlankZ(Look(s, i + 1));
      }
    }
    a := Conclude(s, unicode, flowIndicators, blockIndicators, lineBreaks, specialCharacters, spacing);
  }

  method Conclude(s: Text, unicode: bool, flowIndicators: bool, blockIndicators: bool, lineBreaks: bool,
      specialCharacters: bool, spacing: Spacing) returns (a: Analysis)
    requires s != [] && SpacingIs(s, |s|, spacing)
    requires !flowIndicators <==> !PlainScalars.StartsDocument(s) && NoFlowIndicator(s, |s|)
    requires !blockIndicators <==> !PlainScalars.StartsDocument(s) && NoBlockIndicator(s, |s|)
    requires !specialCharacters <==> NoSpecial(s, |s|, unicode)
    requires !lineBreaks <==> NoBreak(s, |s|)
    ensures IsAnalysis(a, s, unicode)
  {
    hide PlainScalars.StartsDocument, PlainScalars.PlainAllowed, SingleQuotedScalars.SingleQuotable,
      LiteralScalars.LiteralAllowed, IsBreak, NoFlowIndicator, NoBlockIndicator, NoSpecial, NoBreak, NoSpaceBreak, NoBreakSpace;
    Verdict(s, unicode);
    VerdictQuoted(s, unicode);
    var outer := spacing.leadingSpace || spacing.leadingBreak || spacing.trailingSpace || spacing.trailingBreak;
    var unquotable := spacing.spaceBreak || specialCharacters;
    var onOneLine := !outer && !spacing.breakSpace && !unquotable && !lineBreaks;
    a := Analysis(lineBreaks, onOneLine && !flowIndicators, onOneLine && !blockIndicators,
      !spacing.breakSpace && !unquotable, !spacing.trailingSpace && !unquotable);
  }

  // ---- The choice ----

  /** Where the scalar stands: inside a flow collection or not, as a simple key or not; and
      whether the output is canonical. */
  datatype Site = Site(inFlow: bool, simpleKey: bool, canonical: bool)

  /** What the event says about its tag. */
  datatype Tagging = Tagging(noTag: bool, plainImplicit: bool, quotedImplicit: bool)

  datatype Choice = Chosen(style: ScalarStyle, addsHandle: bool) | NoTagAndNotImplicit

  function SelectStyle(requested: ScalarStyle, a: Analysis, isEmpty: bool, at: Site, g: Tagging): Choice {
    if g.noTag && !g.plainImplicit && !g.quotedImplicit then NoTagAndNotImplicit
    else
      var s0 := if requested.AnyScalarStyle? then Plain else requested;
      var s1 := if at.canonical || (at.simpleKey && a.multiline) then DoubleQuoted else s0;
      var s2 :=
        if s1.Plain?
           && ((if at.inFlow then !a.flowPlainAllowed else !a.blockPlainAllowed)
               || (isEmpty && (at.inFlow || at.simpleKey))
               || (g.noTag && !g.plainImplicit))
        then SingleQuoted else s1;
      var s3 := if s2.SingleQuoted? && !a.singleQuotedAllowed then DoubleQuoted else s2;
      var s4 :=
        if (s3.Literal? || s3.Folded?) && (!a.blockAllowed || at.inFlow || at.simpleKey)
        then DoubleQuoted else s3;
      Chosen(s4, g.noTag && !g.quotedImplicit && !s4.Plain?)
  }

  /** The chosen style is one that the value allows where it stands; a plain style is only
      chosen if the scanner will resolve the scalar as the event wants it. */
  lemma ChoiceIsAllowed(requested: ScalarStyle, a: Analysis, s: Text, unicode: bool, at: Site, g: Tagging)
    requires IsAnalysis(a, s, unicode)
    ensures
      var c := SelectStyle(requested, a, s == [], at, g);
      && (c.NoTagAndNotImplicit? <==> g.noTag && !g.plainImplicit && !g.quotedImplicit)
      && (c.Chosen? ==>
           && !c.style.AnyScalarStyle?
           && (c.style.Plain? ==>
                if s == [] then !at.inFlow && !at.simpleKey else PlainScalars.PlainAllowed(s, at.inFlow, unicode))
           && (c.style.SingleQuoted? ==> SingleQuotedScalars.SingleQuotable(s, unicode))
           && (c.style.Literal? || c.style.Folded? ==>
                LiteralScalars.LiteralAllowed(s, unicode) && !at.inFlow && !at.simpleKey)
           && (at.simpleKey && a.multiline ==> c.style.DoubleQuoted?)
           && (g.noTag && !c.addsHandle ==> if c.style.Plain? then g.plainImplicit else g.quotedImplicit))
  {
  }

  // ---- Writing and reading a scalar ----

  function ScalarText(style: ScalarStyle, value: Text, p: Pen, l: Settings, inFlow: bool, bestIndent: nat): Text {
    match style
    case Plain => SpacedScalars.PlainText(value, p, l, inFlow)
    case SingleQuoted => SpacedScalars.SingleQuotedText(value, p, l)
    case Literal => LiteralScalars.LiteralText(value, p, l, bestIndent)
    case Folded => FoldedScalars.FoldedText(value, p, l, bestIndent)
    case _ => DoubleQuotedScalars.DoubleQuotedText(value, p, l)
  }

  /** Whether a block scalar that ends the document leaves it open: 2 if its last line breaks are
      kept, 0 if not; other scalars change nothing. */
  function OpenEnd(style: ScalarStyle, value: Text, openEnded: nat): nat {
    if style.Literal? || style.Folded? then (if LiteralScalars.ChompingFor(value).Keep? then 2 else 0) else openEnded
  }

  predicate IsBlockStyle(style: ScalarStyle) {
    style.Literal? || style.Folded?
  }

  /** Writes a scalar in a chosen style. */
  method ProcessScalar(w: Writer, style: ScalarStyle, l: Settings, value: Text, inFlow: bool, bestIndent: nat, openEnded: nat)
      returns (openEnded': nat)
    requires w.Valid() && 2 <= bestIndent <= 9 && !style.AnyScalarStyle?
    modifies w
    ensures w.Valid() && w.text == old(w.text) + ScalarText(style, value, old(w.CurrentPen()), l, inFlow, bestIndent)
    ensures openEnded' == OpenEnd(style, value, openEnded)
    ensures w.whitespace == IsBlockStyle(style) && w.indention == (IsBlockStyle(style) && LiteralScalars.LeavesLine(value))
  {
    hide LiteralScalars.ChompingFor;
    openEnded' := openEnded;
    match style {
      case Plain =>
        SpacedScalars.WritePlain(w, l, value, inFlow);
      case SingleQuoted =>
        SpacedScalars.WriteSingleQuoted(w, l, value);
      case DoubleQuoted =>
        DoubleQuotedScalars.WriteDoubleQuoted(w, l, value);
      case Literal =>
        var keeps := LiteralScalars.WriteLiteral(w, l, value, bestIndent);
        openEnded' := if keeps then 2 else 0;
      case Folded =>
        var keeps := FoldedScalars.WriteFolded(w, l, value, bestIndent);
        openEnded' := if keeps then 2 else 0;
    }
  }

  /** The scalar that the scanner reads at `t`; `parserIndent` is its current indentation. */
  function ReadScalar(t: Text, column: nat, inFlow: bool, parserIndent: int): FlowScanner.Scanned
    requires parserIndent >= -1
  {
    match D.KindAt(t, column, inFlow)
    case Literal => if t == [] then FlowScanner.Failed else BlockScanner.ScanBlock(t[1..], column + 1, parserIndent, true)
    case Folded => if t == [] then FlowScanner.Failed else BlockScanner.ScanBlock(t[1..], column + 1, parserIndent, false)
    case SingleQuotedScalar => if t == [] then FlowScanner.Failed else FlowScanner.ScanLine(t[1..], column + 1, [], true)
    case DoubleQuotedScalar => if t == [] then FlowScanner.Failed else FlowScanner.ScanLine(t[1..], column + 1, [], false)
    case PlainScalar => P.ScanLine(t, column, [], FlowScanner.NO_GAP, P.Context(inFlow, parserIndent + 1))
    case _ => FlowScanner.Failed
  }

  /** What may follow a scalar of each style. */
  predicate AllowsTail(style: ScalarStyle, rest: Text, value: Text, l: Settings, inFlow: bool, parserIndent: int)
    requires parserIndent >= -1
  {
    match style
    case Plain => PlainScalars.Stops(rest, P.Context(inFlow, parserIndent + 1))
    case SingleQuoted => Look(rest, 0) != APOSTROPHE
    case Literal | Folded => LiteralScalars.EndsBlockScalar(rest, value, l)
    case _ => true
  }

  /** What is left after the scanner has read the scalar. */
  function Leftover(style: ScalarStyle, rest: Text): Text {
    match style
    case Plain => PlainScalars.SkipGap(rest)
    case Literal | Folded => LiteralScalars.Leftover(rest)
    case _ => rest
  }

  /** Where the scanner finds the scalar: behind the space that may separate it. */
  function Start(p: Pen): nat {
    if p.whitespace then 0 else 1
  }

  lemma QuoteKind(t: Text, column: nat, inFlow: bool)
    requires t != []
    ensures t[0] == APOSTROPHE ==> D.KindAt(t, column, inFlow) == D.SingleQuotedScalar
    ensures t[0] == QUOTE ==> D.KindAt(t, column, inFlow) == D.DoubleQuotedScalar
  {
  }

  /** The style choice is sound: for every value and every requested style, the text that the
      emitter writes in the chosen style is read back as that value, wherever the scalar stands,
      provided that what follows is what the emitter may write next; in the folded style exactly
      if no line that begins with a space was folded. */
  lemma StyleChoiceIsSound(
      requested: ScalarStyle, a: Analysis, value: Text, at: Site, g: Tagging,
      p: Pen, l: Settings, bestIndent: nat, rest: Text, column: nat, parserIndent: int)
    requires IsText(value) && IsAnalysis(a, value, l.unicode)
    requires 2 <= bestIndent <= 9 && parserIndent >= -1 && l.indent > 0
    requires at.inFlow || (parserIndent <= column && parserIndent < l.indent)
    requires at.inFlow || at.simpleKey || l.indent == BlockScanner.Max(parserIndent, 0) + bestIndent
    requires var c := SelectStyle(requested, a, value == [], at, g);
      && c.Chosen? && (c.style.Plain? ==> value != [])
      && AllowsTail(c.style, rest, value, l, at.inFlow, parserIndent)
    ensures
      var style := SelectStyle(requested, a, value == [], at, g).style;
      var text := ScalarText(style, value, p, l, at.inFlow, bestIndent) + rest;
      && |text| > Start(p) && text[..Start(p)] == Spaces(Start(p))
      && (ReadScalar(text[Start(p)..], column, at.inFlow, parserIndent)
          == FlowScanner.Value(value, Leftover(style, rest))
          <==> (style.Folded? ==> FoldedScalars.Faithful(value, FoldedScalars.START, l)))
  {
    hide SelectStyle, IsAnalysis, ReadScalar, Spaces, FoldedScalars.Faithful, PlainScalars.PlainAllowed, LiteralScalars.LiteralAllowed,
      SingleQuotedScalars.SingleQuotable, SpacedScalars.PlainText, SpacedScalars.SingleQuotedText, DoubleQuotedScalars.DoubleQuotedText,
      LiteralScalars.LiteralText, FoldedScalars.FoldedText;
    ChoiceIsAllowed(requested, a, value, l.unicode, at, g);
    var style := SelectStyle(requested, a, value == [], at, g).style;
    match style {
      case Plain =>
        PlainIsRead(value, p, l, rest, column, at.inFlow, parserIndent);
      case SingleQuoted =>
        SingleQuotedIsRead(value, p, l, rest, column, at.inFlow, parserIndent);
      case Literal =>
        LiteralIsRead(value, p, l, bestIndent, rest, column, parserIndent);
      case Folded =>
        FoldedIsRead(value, p, l, bestIndent, rest, column, parserIndent);
      case _ =>
        DoubleQuotedIsRead(value, p, l, rest, column, at.inFlow, parserIndent);
    }
  }

  lemma PlainIsRead(value: Text, p: Pen, l: Settings, rest: Text, column: nat, inFlow: bool, i: int)
    requires PlainScalars.PlainAllowed(value, inFlow, l.unicode) && l.indent > 0 && i >= -1
    requires PlainScalars.Stops(rest, P.Context(inFlow, i + 1)) && (inFlow || (i + 1 <= l.indent && i <= column))
    ensures
      var text := SpacedScalars.PlainText(value, p, l, inFlow) + rest;
      && |text| > Start(p) && text[..Start(p)] == Spaces(Start(p))
      && ReadScalar(text[Start(p)..], column, inFlow, i) == FlowScanner.Value(value, PlainScalars.SkipGap(rest))
  {
    hide SpacedScalars.PlainText, P.ScanLine, D.KindAt, Spaces, PlainScalars.PlainAllowed, PlainScalars.Stops;
    PlainScalars.PlainComesBack(value, p, l, rest, column, P.Context(inFlow, i + 1));
  }

  lemma SingleQuotedIsRead(value: Text, p: Pen, l: Settings, rest: Text, column: nat, inFlow: bool, i: int)
    requires SingleQuotedScalars.SingleQuotable(value, l.unicode) && l.indent > 0 && Look(rest, 0) != APOSTROPHE && i >= -1
    ensures
      var text := SpacedScalars.SingleQuotedText(value, p, l) + rest;
      && |text| > Start(p) && text[..Start(p)] == Spaces(Start(p))
      && ReadScalar(text[Start(p)..], column, inFlow, i) == FlowScanner.Value(value, rest)
  {
    hide SpacedScalars.SingleQuotedText, FlowScanner.ScanLine, D.KindAt, Spaces;
    SingleQuotedScalars.SingleQuotedComesBack(value, p, l, rest, column);
    var text := SpacedScalars.SingleQuotedText(value, p, l) + rest;
    QuoteKind(text[Start(p)..], column, inFlow);
    assert text[Start(p)..][1..] == text[Start(p) + 1..];
  }

  lemma DoubleQuotedIsRead(value: Text, p: Pen, l: Settings, rest: Text, column: nat, inFlow: bool, i: int)
    requires IsText(value) && l.indent > 0 && i >= -1
    ensures
      var text := DoubleQuotedScalars.DoubleQuotedText(value, p, l) + rest;
      && |text| > Start(p) && text[..Start(p)] == Spaces(Start(p))
      && ReadScalar(text[Start(p)..], column, inFlow, i) == FlowScanner.Value(value, rest)
  {
    hide DoubleQuotedScalars.DoubleQuotedText, FlowScanner.ScanLine, D.KindAt, Spaces;
    DoubleQuotedScalars.DoubleQuotedComesBack(value, p, l, rest, column);
    var text := DoubleQuotedScalars.DoubleQuotedText(value, p, l) + rest;
    QuoteKind(text[Start(p)..], column, inFlow);
    assert text[Start(p)..][1..] == text[Start(p) + 1..];
  }

  lemma LiteralIsRead(value: Text, p: Pen, l: Settings, bestIndent: nat, rest: Text, column: nat, i: int)
    requires LiteralScalars.LiteralAllowed(value, l.unicode) && 2 <= bestIndent <= 9 && i >= -1
    requires l.indent == BlockScanner.Max(i, 0) + bestIndent && LiteralScalars.EndsBlockScalar(rest, value, l)
    ensures
      var text := LiteralScalars.LiteralText(value, p, l, bestIndent) + rest;
      && |text| > Start(p) && text[..Start(p)] == Spaces(Start(p))
      && ReadScalar(text[Start(p)..], column, false, i) == FlowScanner.Value(value, LiteralScalars.Leftover(rest))
  {
    hide LiteralScalars.LiteralText, BlockScanner.ScanBlock, D.KindAt, Spaces, LiteralScalars.Leftover;
    LiteralScalars.LiteralComesBack(value, p, l, bestIndent, rest, column, i);
    var text := LiteralScalars.LiteralText(value, p, l, bestIndent) + rest;
    assert text[Start(p)..][1..] == text[Start(p) + 1..];
  }

  lemma FoldedIsRead(value: Text, p: Pen, l: Settings, bestIndent: nat, rest: Text, column: nat, i: int)
    requires LiteralScalars.LiteralAllowed(value, l.unicode) && 2 <= bestIndent <= 9 && i >= -1
    requires l.indent == BlockScanner.Max(i, 0) + bestIndent && LiteralScalars.EndsBlockScalar(rest, value, l)
    ensures
      var text := FoldedScalars.FoldedText(value, p, l, bestIndent) + rest;
      && |text| > Start(p) && text[..Start(p)] == Spaces(Start(p))
      && (ReadScalar(text[Start(p)..], column, false, i) == FlowScanner.Value(value, LiteralScalars.Leftover(rest))
          <==> FoldedScalars.Faithful(value, FoldedScalars.START, l))
  {
    hide FoldedScalars.FoldedText, BlockScanner.ScanBlock, D.KindAt, Spaces, LiteralScalars.Leftover, FoldedScalars.Faithful;
    FoldedScalars.FoldedComesBack(value, p, l, bestIndent, rest, column, i);
    var text := FoldedScalars.FoldedText(value, p, l, bestIndent) + rest;
    assert text[Start(p)..][1..] == text[Start(p) + 1..];
  }
}
