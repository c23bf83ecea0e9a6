/** Characters as code points, and the checks that the scanner and the emitter make on them. */
module Characters {

  type Text = seq<nat>

  const NUL: nat := 0x00
  const TAB: nat := 0x09
  const LF: nat := 0x0A
  const CR: nat := 0x0D
  const SPACE: nat := 0x20
  const QUOTE: nat := 0x22
  const HASH: nat := 0x23
  const APOSTROPHE: nat := 0x27
  const DASH: nat := 0x2D
  const DOT: nat := 0x2E
  const COLON: nat := 0x3A
  const GREATER: nat := 0x3E
  const BACKSLASH: nat := 0x5C
  const NEL: nat := 0x85
  const LS: nat := 0x2028
  const PS: nat := 0x2029
  const BOM: nat := 0xFEFF

  /** The code points that a UTF-8 string can hold, surrogates excepted. */
  predicate IsScalarValue(c: nat) {
    c <= 0x10FFFF && !(0xD800 <= c <= 0xDFFF)
  }

  predicate IsText(t: Text) {
    forall i | 0 <= i < |t| :: IsScalarValue(t[i])
  }

  /** A string as a text. */
  function TextOf(s: string): (t: Text)
    ensures |t| == |s| && IsText(t)
  {
    seq(|s|, i requires 0 <= i < |s| => s[i] as nat)
  }

  predicate IsAlpha(c: nat) {
    0x30 <= c <= 0x39 || 0x41 <= c <= 0x5A || 0x61 <= c <= 0x7A || c == '_' as nat || c == DASH
  }

  predicate IsBlank(c: nat) {
    c == SPACE || c == TAB
  }

  predicate IsBreak(c: nat) {
    c == CR || c == LF || c == NEL || c == LS || c == PS
  }

  predicate IsBreakZ(c: nat) {
    IsBreak(c) || c == NUL
  }

  predicate IsBlankZ(c: nat) {
    IsBlank(c) || IsBreakZ(c)
  }

  /** The characters that the emitter may write as they are.  Code points from 0x10000 on are
      not among them. */
  predicate IsPrintable(c: nat) {
    || c == LF || 0x20 <= c <= 0x7E
    || 0xA0 <= c <= 0xD7FF || (0xE000 <= c <= 0xFFFD && c != BOM)
  }

  predicate IsAscii(c: nat) {
    c <= 0x7F
  }

  /** The characters that are written as they are, given the character set. */
  predicate IsPlainlyWritten(c: nat, unicode: bool) {
    IsPrintable(c) && (unicode || IsAscii(c))
  }

  /** The character at an offset; the buffer ends with a NUL. */
  function Look(t: Text, k: nat): nat {
    if k < |t| then t[k] else NUL
  }

  function Spaces(n: int): (t: Text)
    ensures |t| == if n < 0 then 0 else n
    ensures forall i | 0 <= i < |t| :: t[i] == SPACE
  {
    if n <= 0 then [] else [SPACE] + Spaces(n - 1)
  }

  lemma Assoc(a: Text, b: Text, c: Text)
    ensures (a + b) + c == a + (b + c)
  {
  }

  lemma TakeOne(a: Text, s: Text)
    requires s != []
    ensures (a + [s[0]]) + s[1..] == a + s
  {
  }

  lemma TailIsText(s: Text, k: nat)
    requires IsText(s) && k <= |s|
    ensures IsText(s[k..])
  {
  }

  // ---- UTF-8 ----

  function Utf8(c: nat): (bytes: seq<nat>)
    requires c <= 0x10FFFF
    ensures forall i | 0 <= i < |bytes| :: bytes[i] < 256
    ensures |bytes| == if c <= 0x7F then 1 else if c <= 0x7FF then 2 else if c <= 0xFFFF then 3 else 4
  {
    if c <= 0x7F then [c]
    else if c <= 0x7FF then [0xC0 + c / 64, 0x80 + c % 64]
    else if c <= 0xFFFF then [0xE0 + c / 4096, 0x80 + c / 64 % 64, 0x80 + c % 64]
    else [0xF0 + c / 262144, 0x80 + c / 4096 % 64, 0x80 + c / 64 % 64, 0x80 + c % 64]
  }

  /** The check on the bytes of a character, as the macro makes it. */
  predicate IsPrintableBytes(b: seq<nat>)
    requires |b| > 0
  {
    var b1, b2 := if |b| > 1 then b[1] else 0, if |b| > 2 then b[2] else 0;
    || b[0] == 0x0A
    || 0x20 <= b[0] <= 0x7E
    || (b[0] == 0xC2 && b1 >= 0xA0)
    || 0xC2 < b[0] < 0xED
    || (b[0] == 0xED && b1 < 0xA0)
    || b[0] == 0xEE
    || (b[0] == 0xEF && !(b1 == 0xBB && b2 == 0xBF) && !(b1 == 0xBF && (b2 == 0xBE || b2 == 0xBF)))
  }

  predicate IsBreakBytes(b: seq<nat>)
    requires |b| > 0
  {
    var b1, b2 := if |b| > 1 then b[1] else 0, if |b| > 2 then b[2] else 0;
    || b[0] == 0x0D || b[0] == 0x0A
    || (b[0] == 0xC2 && b1 == 0x85)
    || (b[0] == 0xE2 && b1 == 0x80 && (b2 == 0xA8 || b2 == 0xA9))
  }

  /** The checks on bytes and on code points agree. */
  lemma ChecksAgree(c: nat)
    requires IsScalarValue(c)
    ensures IsPrintableBytes(Utf8(c)) <==> IsPrintable(c)
    ensures IsBreakBytes(Utf8(c)) <==> IsBreak(c)
  {
  }
}
