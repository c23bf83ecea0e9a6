/** The scanner of literal and folded block scalars: the header, the indentation, the lines and the chomping
    of what follows the last one. */
module BlockScanner {
  import opened Characters
  import opened FlowScanner

  // ---- The header ----

  datatype Chomping = Strip | Clip | Keep

  /** The header after `|` or `>`: the chomping, the indentation indicator (0 if there is none) and the
      text that follows. */
  datatype Header = Header(chomping: Chomping, increment: nat, rest: Text) | BadHeader

  predicate IsDigit(c: nat) {
    0x30 <= c <= 0x39
  }

  predicate IsChomping(c: nat) {
    c == '+' as nat || c == '-' as nat
  }

  function ChompingOf(c: nat): Chomping {
    if c == '+' as nat then Keep else Strip
  }

  function HeaderAt(t: Text): (h: Header)
    ensures h.Header? ==> |h.rest| <= |t|
  {
    if IsChomping(Look(t, 0)) then
      if !IsDigit(Look(t, 1)) then Header(ChompingOf(t[0]), 0, t[1..])
      else if t[1] == '0' as nat then BadHeader
      else Header(ChompingOf(t[0]), t[1] - 0x30, t[2..])
    else if IsDigit(Look(t, 0)) then
      if t[0] == '0' as nat then BadHeader
      else if IsChomping(Look(t, 1)) then Header(ChompingOf(t[1]), t[0] - 0x30, t[2..])
      else Header(Clip, t[0] - 0x30, t[1..])
    else Header(Clip, 0, t)
  }

  function SkipBlanks(t: Text): (r: Text)
    ensures |r| <= |t|
  {
    if t != [] && IsBlank(t[0]) then SkipBlanks(t[1..]) else t
  }

  function SkipToBreak(t: Text): (r: Text)
    ensures |r| <= |t|
  {
    if t != [] && !IsBreakZ(t[0]) then SkipToBreak(t[1..]) else t
  }

  /** The blanks and the comment behind the header. */
  function SkipComment(t: Text): (r: Text)
    ensures |r| <= |t|
  {
    var after := SkipBlanks(t);
    if Look(after, 0) == HASH then SkipToBreak(after) else after
  }

  function SkipBreak(t: Text): (r: Text)
    ensures |r| <= |t|
  {
    if t != [] && IsBreak(t[0]) then t[BreakWidth(t)..] else t
  }

  // ---- The lines ----

  function Max(a: int, b: int): int {
    if a >= b then a else b
  }

  /** How the lines are put together. */
  datatype Manner = Manner(literal: bool, chomping: Chomping)

  /** What was read: the value, the break after its last line, the empty lines after that, and
      whether the last line began with a blank. */
  datatype Lines = Lines(value: Text, leading: Text, trailing: Text, blank: bool)

  /** The break after the last line is folded, if a line that begins with `c` follows. */
  predicate Folds(n: Lines, c: nat, literal: bool) {
    !literal && Look(n.leading, 0) == LF && !n.blank && !IsBlank(c)
  }

  /** The value with the breaks before a line that begins with `c`. */
  function Joined(n: Lines, c: nat, literal: bool): Text {
    if Folds(n, c, literal) then n.value + (if n.trailing == [] then [SPACE] else n.trailing)
    else n.value + n.leading + n.trailing
  }

  function Chomped(n: Lines, c: Chomping): Text {
    match c
    case Strip => n.value
    case Clip => n.value + n.leading
    case Keep => n.value + n.leading + n.trailing
  }

  predicate IsShort(column: nat, indent: nat) {
    indent == 0 || column < indent
  }

  /** The indentation that the first line that is not empty gives, if the header does not. */
  function Settled(indent: nat, maxIndent: nat, parserIndent: int): (n: nat)
    ensures n > 0
  {
    if indent != 0 then indent else Max(Max(maxIndent, parserIndent + 1), 1)
  }

  /** Among indentation and empty lines. */
  function ScanBreaks(t: Text, column: nat, n: Lines, indent: nat, maxIndent: nat, parserIndent: int, c: Manner): Scanned
    decreases |t|, 1
  {
    if IsShort(column, indent) && t != [] && t[0] == SPACE then
      ScanBreaks(t[1..], column + 1, n, indent, maxIndent, parserIndent, c)
    else if IsShort(column, indent) && Look(t, 0) == TAB then Failed
    else if t != [] && IsBreak(t[0]) then
      ScanBreaks(t[BreakWidth(t)..], 0, n.(trailing := n.trailing + BreakText(t)), indent, Max(maxIndent, column), parserIndent, c)
    else ScanNext(t, column, n, Settled(indent, Max(maxIndent, column), parserIndent), parserIndent, c)
  }

  /** A line follows if it is indented enough. */
  function ScanNext(t: Text, column: nat, n: Lines, indent: nat, parserIndent: int, c: Manner): Scanned
    requires indent > 0 && !(t != [] && IsBreak(t[0]))
    decreases |t|, 0
  {
    if column == indent && Look(t, 0) != NUL then
      ScanText(t[1..], column + 1, Joined(n, t[0], c.literal) + [t[0]], IsBlank(t[0]), indent, parserIndent, c)
    else Value(Chomped(n, c.chomping), t)
  }

  /** Inside a line. */
  function ScanText(t: Text, column: nat, value: Text, blank: bool, indent: nat, parserIndent: int, c: Manner): Scanned
    requires indent > 0
    decreases |t|, 2
  {
    if t == [] || t[0] == NUL then ScanBreaks(t, column, Lines(value, [], [], blank), indent, 0, parserIndent, c)
    else if IsBreak(t[0]) then
      ScanBreaks(t[BreakWidth(t)..], 0, Lines(value, BreakText(t), [], blank), indent, 0, parserIndent, c)
    else ScanText(t[1..], column + 1, value + [t[0]], blank, indent, parserIndent, c)
  }

  /** The whole scalar; `t` follows the indicator. */
  function ScanBlock(t: Text, column: nat, parserIndent: int, literal: bool): Scanned
    requires parserIndent >= -1
  {
    var h := HeaderAt(t);
    if h.BadHeader? then Failed
    else
      var line := SkipComment(h.rest);
      if !IsBreakZ(Look(line, 0)) then Failed
      else
        var start := if IsBreak(Look(line, 0)) then 0 else column + |t| - |line|;
        var indent := if h.increment == 0 then 0 else Max(parserIndent, 0) + h.increment;
        ScanBreaks(SkipBreak(line), start, Lines([], [], [], false), indent, 0, parserIndent, Manner(literal, h.chomping))
  }

  // ---- The scanner itself ----

  method ScanBlockBreaks(t: Text, column: nat, indent0: nat, breaks0: Text, parserIndent: int)
      returns (ok: bool, rest: Text, col: nat, indent: nat, breaks: Text)
    ensures ok ==> indent > 0 && !(rest != [] && IsBreak(rest[0]))
    ensures |rest| <= |t|
    ensures forall n: Lines, c | n.trailing == breaks0 ::
      ScanBreaks(t, column, n, indent0, 0, parserIndent, c)
      == if ok then ScanNext(rest, col, n.(trailing := breaks), indent, parserIndent, c) else Failed
  {
    indent, rest, col, breaks, ok := indent0, t, column, breaks0, false;
    var maxIndent: nat := 0;
    while true
      invariant |rest| <= |t|
      invariant forall n: Lines, c | n.trailing == breaks0 ::
        ScanBreaks(t, column, n, indent0, 0, parserIndent, c)
        == ScanBreaks(rest, col, n.(trailing := breaks), indent0, maxIndent, parserIndent, c)
      decreases |rest|
    {
      ghost var entry := rest;
      while IsShort(col, indent0) && rest != [] && rest[0] == SPACE
        invariant |rest| <= |entry|
        invariant forall n: Lines, c | n.trailing == breaks0 ::
          ScanBreaks(t, column, n, indent0, 0, parserIndent, c)
          == ScanBreaks(rest, col, n.(trailing := breaks), indent0, maxIndent, parserIndent, c)
        decreases |rest|
      {
        rest, col := rest[1..], col + 1;
      }
      var widest: nat := Max(maxIndent, col);
      if IsShort(col, indent0) && Look(rest, 0) == TAB {
        return;
      }
      if !(rest != [] && IsBreak(rest[0])) {
        indent := Settled(indent0, widest, parserIndent);
        ok := true;
        return;
      }
      maxIndent := widest;
      breaks := breaks + BreakText(rest);
      rest, col := rest[BreakWidth(rest)..], 0;
    }
  }

  /** Scans a block scalar; `t` follows the indicator, which is at `column` - 1. */
  method ScanBlockScalar(t: Text, column: nat, parserIndent: int, literal: bool) returns (r: Scanned)
    requires parserIndent >= -1
    ensures r == ScanBlock(t, column, parserIndent, literal)
  {
    var h := HeaderAt(t);
    if h.BadHeader? {
      return Failed;
    }
    var line := SkipComment(h.rest);
    if !IsBreakZ(Look(line, 0)) {
      return Failed;
    }
    var rest: Text, col: nat := SkipBreak(line), if IsBreak(Look(line, 0)) then 0 else column + |t| - |line|;
    var value: Text, leading: Text, trailing: Text, blank := [], [], [], false;
    var indent: nat := if h.increment == 0 then 0 else Max(parserIndent, 0) + h.increment;
    ghost var goal := ScanBlock(t, column, parserIndent, literal);
    var ok;
    ok, rest, col, indent, trailing := ScanBlockBreaks(rest, col, indent, [], parserIndent);
    if !ok {
      return Failed;
    }
    while col == indent && Look(rest, 0) != NUL
      invariant indent > 0 && !(rest != [] && IsBreak(rest[0]))
      invariant goal == ScanNext(rest, col, Lines(value, leading, trailing, blank), indent, parserIndent, Manner(literal, h.chomping))
      decreases |rest|
    {
      ghost var before, entry := Lines(value, leading, trailing, blank), rest;
      if !literal && Look(leading, 0) == LF && !blank && !IsBlank(rest[0]) {
        if trailing == [] {
          value := value + [SPACE];
        }
      } else {
        value := value + leading;
      }
      value := value + trailing;
      assert value == Joined(before, rest[0], literal);
      blank := IsBlank(rest[0]);
      value := value + [rest[0]];
      rest, col := rest[1..], col + 1;
      while rest != [] && !IsBreakZ(rest[0])
        invariant |rest| < |entry|
        invariant goal == ScanText(rest, col, value, blank, indent, parserIndent, Manner(literal, h.chomping))
        decreases |rest|
      {
        value := value + [rest[0]];
        rest, col := rest[1..], col + 1;
      }
      leading := [];
      if rest != [] && IsBreak(rest[0]) {
        leading := BreakText(rest);
        rest, col := rest[BreakWidth(rest)..], 0;
      }
      ok, rest, col, indent, trailing := ScanBlockBreaks(rest, col, indent, [], parserIndent);
      if !ok {
        return Failed;
      }
    }
    return Value(Chomped(Lines(value, leading, trailing, blank), h.chomping), rest);
  }
}
