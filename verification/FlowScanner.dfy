/** The scanner of quoted scalars: unescaping, unfolding, and the closing quote. */
module FlowScanner {
  import opened Characters

  /** What a scan gives: the value and the text that follows the scalar, or failure. */
  datatype Scanned = Value(value: Text, rest: Text) | Failed

  // ---- Escapes ----

  predicate IsHex(c: nat) {
    0x30 <= c <= 0x39 || 0x41 <= c <= 0x46 || 0x61 <= c <= 0x66
  }

  function AsHex(c: nat): (d: nat)
    requires IsHex(c)
    ensures d < 16
  {
    if 0x41 <= c <= 0x46 then c - 0x41 + 10 else if 0x61 <= c <= 0x66 then c - 0x61 + 10 else c - 0x30
  }

  predicate AllHex(t: Text) {
    forall i | 0 <= i < |t| :: IsHex(t[i])
  }

  function HexValue(t: Text): nat
    requires AllHex(t)
  {
    if t == [] then 0 else HexValue(t[..|t| - 1]) * 16 + AsHex(t[|t| - 1])
  }

  /** The character that an escape of one letter stands for; -1 for other letters. */
  function Simple(letter: nat): (c: int)
    ensures c >= -1
  {
    if letter == '0' as nat then 0x00
    else if letter == 'a' as nat then 0x07
    else if letter == 'b' as nat then 0x08
    else if letter == 't' as nat || letter == TAB then 0x09
    else if letter == 'n' as nat then 0x0A
    else if letter == 'v' as nat then 0x0B
    else if letter == 'f' as nat then 0x0C
    else if letter == 'r' as nat then 0x0D
    else if letter == 'e' as nat then 0x1B
    else if letter == ' ' as nat then 0x20
    else if letter == '"' as nat then 0x22
    else if letter == '/' as nat then 0x2F
    else if letter == '\\' as nat then 0x5C
    else if letter == 'N' as nat then 0x85
    else if letter == '_' as nat then 0xA0
    else if letter == 'L' as nat then 0x2028
    else if letter == 'P' as nat then 0x2029
    else -1
  }

  /** The number of hexadecimal digits after the escape character; 0 if there are none. */
  function CodeLength(c: nat): nat {
    if c == 'x' as nat then 2 else if c == 'u' as nat then 4 else if c == 'U' as nat then 8 else 0
  }

  datatype Escape = Escape(code: nat, width: nat) | NoEscape

  /** The escape sequence at the start of `t`, which begins with a backslash. */
  function ReadEscape(t: Text): (r: Escape)
    ensures r.Escape? ==> 2 <= r.width <= |t|
  {
    var letter, n := Look(t, 1), CodeLength(Look(t, 1));
    if |t| < 2 then NoEscape
    else if Simple(letter) >= 0 then Escape(Simple(letter), 2)
    else if n == 0 || |t| < 2 + n || !AllHex(t[2..2 + n]) then NoEscape
    else if !IsScalarValue(HexValue(t[2..2 + n])) then NoEscape
    else Escape(HexValue(t[2..2 + n]), 2 + n)
  }

  // ---- Blanks and line breaks ----

  predicate IsCrLf(t: Text) {
    Look(t, 0) == CR && Look(t, 1) == LF
  }

  /** How many characters the line break at the start of `t` takes. */
  function BreakWidth(t: Text): (n: nat)
    requires t != []
    ensures 1 <= n <= |t|
  {
    if IsCrLf(t) then 2 else 1
  }

  /** A line break as it enters a value: a line feed, or LS or PS as it is. */
  function BreakText(t: Text): Text
    requires t != []
  {
    if t[0] == LS || t[0] == PS then [t[0]] else [LF]
  }

  /** The blanks and breaks between two words, as far as they were read: whether a line break was
      among them, the blanks before it, the first break and the further ones. */
  datatype Gap = Gap(broken: bool, blanks: Text, first: Text, more: Text)

  const NO_GAP := Gap(false, [], [], [])

  predicate IsGapChar(c: nat) {
    IsBlank(c) || IsBreak(c)
  }

  function GapWidth(t: Text): (n: nat)
    requires t != []
    ensures 1 <= n <= |t|
  {
    if IsBlank(t[0]) then 1 else BreakWidth(t)
  }

  function GapColumn(t: Text, column: nat): nat
    requires t != []
  {
    if IsBlank(t[0]) then column + 1 else 0
  }

  function Widen(g: Gap, t: Text): Gap
    requires t != []
  {
    if IsBlank(t[0]) then (if g.broken then g else g.(blanks := g.blanks + [t[0]]))
    else if !g.broken then Gap(true, [], BreakText(t), g.more)
    else g.(more := g.more + BreakText(t))
  }

  /** What a gap contributes to the value. */
  function Folded(g: Gap): Text {
    if !g.broken then g.blanks
    else if Look(g.first, 0) == LF then (if g.more == [] then [SPACE] else g.more)
    else g.first + g.more
  }

  // ---- The scanner as a function of the text that is left ----

  /** --- or ... followed by a blank, a break or the end. */
  predicate IsDocumentIndicator(t: Text) {
    && ((Look(t, 0) == DASH && Look(t, 1) == DASH && Look(t, 2) == DASH)
        || (Look(t, 0) == DOT && Look(t, 1) == DOT && Look(t, 2) == DOT))
    && IsBlankZ(Look(t, 3))
  }

  function Quote(single: bool): nat {
    if single then APOSTROPHE else QUOTE
  }

  /** At the start of a word, possibly an empty one. */
  function ScanLine(t: Text, column: nat, value: Text, single: bool): Scanned
    decreases |t|, 1
  {
    if column == 0 && IsDocumentIndicator(t) then Failed
    else if Look(t, 0) == NUL then Failed
    else ScanWord(t, column, value, single)
  }

  /** Inside a word. */
  function ScanWord(t: Text, column: nat, value: Text, single: bool): Scanned
    requires t != []
    decreases |t|, 0
  {
    if t[0] == NUL then Failed
    else if IsGapChar(t[0]) then
      ScanGap(t[GapWidth(t)..], GapColumn(t, column), value, Widen(NO_GAP, t), single)
    else if single && t[0] == APOSTROPHE && Look(t, 1) == APOSTROPHE then
      ScanOn(t[2..], column + 2, value + [APOSTROPHE], single)
    else if t[0] == Quote(single) then Value(value, t[1..])
    else if !single && t[0] == BACKSLASH && IsBreak(Look(t, 1)) then
      var after := t[1 + BreakWidth(t[1..])..];
      if Look(after, 0) == QUOTE then Value(value, after[1..])
      else ScanGap(after, 0, value, NO_GAP.(broken := true), single)
    else if !single && t[0] == BACKSLASH then
      match ReadEscape(t)
      case NoEscape => Failed
      case Escape(code, width) => ScanOn(t[width..], column + width, value + [code], single)
    else ScanOn(t[1..], column + 1, value + [t[0]], single)
  }

  function ScanOn(t: Text, column: nat, value: Text, single: bool): Scanned
    decreases |t|, 2
  {
    if t == [] then Failed else ScanWord(t, column, value, single)
  }

  /** Among the blanks and breaks after a word. */
  function ScanGap(t: Text, column: nat, value: Text, g: Gap, single: bool): Scanned
    decreases |t|, 3
  {
    if t != [] && IsGapChar(t[0]) then
      ScanGap(t[GapWidth(t)..], GapColumn(t, column), value, Widen(g, t), single)
    else ScanLine(t, column, value + Folded(g), single)
  }

  // ---- The scanner itself ----

  /** Scans a quoted scalar; `t` follows the opening quote, which is at `column` - 1. */
  method ScanFlowScalar(t: Text, column: nat, single: bool) returns (r: Scanned)
    ensures r == ScanLine(t, column, [], single)
  {
    ghost var goal := ScanLine(t, column, [], single);
    var rest: Text, col: nat, value: Text := t, column, [];
    while true
      invariant goal == ScanLine(rest, col, value, single)
      decreases |rest|
    {
      if col == 0 && IsDocumentIndicator(rest) {
        return Failed;
      }
      if Look(rest, 0) == NUL {
        return Failed;
      }
      var gap := NO_GAP;
      ghost var before := rest;
      while rest != [] && !IsBlankZ(rest[0])
        invariant !gap.broken && gap == NO_GAP
        invariant goal == ScanOn(rest, col, value, single)
        invariant |rest| <= |before|
        decreases |rest|
      {
        if single && rest[0] == APOSTROPHE && Look(rest, 1) == APOSTROPHE {
          value := value + [APOSTROPHE];
          rest, col := rest[2..], col + 2;
        } else if rest[0] == Quote(single) {
          break;
        } else if !single && rest[0] == BACKSLASH && IsBreak(Look(rest, 1)) {
          rest, col := rest[1 + BreakWidth(rest[1..])..], 0;
          gap := gap.(broken := true);
          break;
        } else if !single && rest[0] == BACKSLASH {
          var escape := ReadEscape(rest);
          if escape.NoEscape? {
            return Failed;
          }
          value := value + [escape.code];
          rest, col := rest[escape.width..], col + escape.width;
        } else {
          value := value + [rest[0]];
          rest, col := rest[1..], col + 1;
        }
      }
      if Look(rest, 0) == Quote(single) {
        return Value(value, rest[1..]);
      }
      while rest != [] && IsGapChar(rest[0])
        invariant goal == ScanGap(rest, col, value, gap, single)
        invariant |rest| <= |before|
        invariant |rest| < |before| || (rest != [] && IsBlankZ(rest[0]))
        decreases |rest|
      {
        gap := Widen(gap, rest);
        rest, col := rest[GapWidth(rest)..], GapColumn(rest, col);
      }
      value := value + Folded(gap);
      if Look(rest, 0) == NUL {
        return Failed;
      }
    }
  }
}
