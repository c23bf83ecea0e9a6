/** The scanner of plain scalars. */
module PlainScanner {
  import opened Characters
  import opened FlowScanner

  /** Whether the scanner is inside a flow collection, and the least column of the lines that
      continue a plain scalar. */
  datatype Context = Context(inFlow: bool, indent: nat)

  predicate IsFlowIndicator(c: nat) {
    c == ',' as nat || c == '[' as nat || c == ']' as nat || c == '{' as nat || c == '}' as nat
  }

  /** A colon that a flow scalar may not hold. */
  predicate IsBadColon(t: Text, x: Context) {
    x.inFlow && Look(t, 0) == ':' as nat && (IsFlowIndicator(Look(t, 1)) || Look(t, 1) == '?' as nat)
  }

  predicate EndsPlain(t: Text, x: Context) {
    (Look(t, 0) == ':' as nat && IsBlankZ(Look(t, 1))) || (x.inFlow && IsFlowIndicator(Look(t, 0)))
  }

  predicate IsBadTab(t: Text, column: nat, g: Gap, x: Context) {
    g.broken && column < x.indent && Look(t, 0) == TAB
  }

  // ---- The scanner as a function of the text that is left ----

  function ScanLine(t: Text, column: nat, value: Text, g: Gap, x: Context): Scanned
    decreases |t|, 1
  {
    if column == 0 && IsDocumentIndicator(t) then Value(value, t)
    else if Look(t, 0) == HASH then Value(value, t)
    else ScanWord(t, column, value, g, x)
  }

  /** Inside a word, or at the start of one, with a gap before it that belongs to the value only
      if the word is not empty. */
  function ScanWord(t: Text, column: nat, value: Text, g: Gap, x: Context): Scanned
    decreases |t|, 0
  {
    if t == [] || t[0] == NUL then Value(value, t)
    else if IsGapChar(t[0]) then ScanGap(t[GapWidth(t)..], GapColumn(t, column), value, Widen(NO_GAP, t), x)
    else if IsBadColon(t, x) then Failed
    else if EndsPlain(t, x) then Value(value, t)
    else ScanWord(t[1..], column + 1, value + Folded(g) + [t[0]], NO_GAP, x)
  }

  function ScanGap(t: Text, column: nat, value: Text, g: Gap, x: Context): Scanned
    decreases |t|, 2
  {
    if t != [] && IsGapChar(t[0]) then
      if IsBadTab(t, column, g, x) then Failed
      else ScanGap(t[GapWidth(t)..], GapColumn(t, column), value, Widen(g, t), x)
    else if !x.inFlow && column < x.indent then Value(value, t)
    else ScanLine(t, column, value, g, x)
  }

  // ---- The scanner itself ----

  /** Scans a plain scalar that starts at `column`. */
  method ScanPlainScalar(t: Text, column: nat, x: Context) returns (r: Scanned)
    requires t != [] && !IsBlankZ(t[0])
    ensures r == ScanLine(t, column, [], NO_GAP, x)
  {
    ghost var goal := ScanLine(t, column, [], NO_GAP, x);
    var rest: Text, col: nat, value: Text, gap := t, column, [], NO_GAP;
    while true
      invariant goal == ScanLine(rest, col, value, gap, x)
      invariant rest != [] ==> !IsGapChar(rest[0])
      decreases |rest|
    {
      if (col == 0 && IsDocumentIndicator(rest)) || Look(rest, 0) == HASH {
        return Value(value, rest);
      }
      ghost var before := rest;
      while rest != [] && !IsBlankZ(rest[0])
        invariant goal == ScanWord(rest, col, value, gap, x)
        invariant |rest| <= |before|
        invariant rest != [] && IsGapChar(rest[0]) ==> |rest| < |before|
        decreases |rest|
      {
        if IsBadColon(rest, x) {
          return Failed;
        }
        if EndsPlain(rest, x) {
          break;
        }
        value := value + Folded(gap) + [rest[0]];
        gap := NO_GAP;
        rest, col := rest[1..], col + 1;
      }
      if rest == [] || !IsGapChar(rest[0]) {
        return Value(value, rest);
      }
      gap := NO_GAP;
      while rest != [] && IsGapChar(rest[0])
        invariant goal == ScanGap(rest, col, value, gap, x)
        invariant |rest| < |before|
        decreases |rest|
      {
        if IsBadTab(rest, col, gap, x) {
          return Failed;
        }
        gap := Widen(gap, rest);
        rest, col := rest[GapWidth(rest)..], GapColumn(rest, col);
      }
      if !x.inFlow && col < x.indent {
        return Value(value, rest);
      }
    }
  }
}
