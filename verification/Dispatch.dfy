/** How the scanner tells which token starts at the current character. */
module Dispatch {
  import opened Characters
  import opened FlowScanner

  datatype Kind =
    | StreamEnd | Directive | DocumentStart | DocumentEnd
    | FlowSequenceStart | FlowMappingStart | FlowSequenceEnd | FlowMappingEnd | FlowEntry
    | BlockEntry | Key | ValueIndicator | Alias | Anchor | Tag
    | Literal | Folded | SingleQuotedScalar | DoubleQuotedScalar | PlainScalar | Unknown

  /** The characters that a plain scalar does not start with, whatever follows. */
  predicate IsIndicator(c: nat) {
    || c == HASH || c == ',' as nat || c == '[' as nat || c == ']' as nat || c == '{' as nat || c == '}' as nat
    || c == '&' as nat || c == '*' as nat || c == '!' as nat || c == '|' as nat || c == '>' as nat
    || c == APOSTROPHE || c == QUOTE || c == '%' as nat || c == '@' as nat || c == '`' as nat
  }

  predicate StartsPlain(t: Text, inFlow: bool) {
    var c := Look(t, 0);
    || !(IsBlankZ(c) || c == DASH || c == '?' as nat || c == ':' as nat || IsIndicator(c))
    || (c == DASH && !IsBlank(Look(t, 1)))
    || (!inFlow && (c == '?' as nat || c == ':' as nat) && !IsBlankZ(Look(t, 1)))
  }

  /** The kind of the token that starts at `t`. */
  function KindAt(t: Text, column: nat, inFlow: bool): Kind {
    var c := Look(t, 0);
    if c == NUL then StreamEnd
    else if column == 0 && c == '%' as nat then Directive
    else if column == 0 && c == DASH && IsDocumentIndicator(t) then DocumentStart
    else if column == 0 && c == DOT && IsDocumentIndicator(t) then DocumentEnd
    else if c == '[' as nat then FlowSequenceStart
    else if c == '{' as nat then FlowMappingStart
    else if c == ']' as nat then FlowSequenceEnd
    else if c == '}' as nat then FlowMappingEnd
    else if c == ',' as nat then FlowEntry
    else if c == DASH && IsBlankZ(Look(t, 1)) then BlockEntry
    else if c == '?' as nat && (inFlow || IsBlankZ(Look(t, 1))) then Key
    else if c == ':' as nat && (inFlow || IsBlankZ(Look(t, 1))) then ValueIndicator
    else if c == '*' as nat then Alias
    else if c == '&' as nat then Anchor
    else if c == '!' as nat then Tag
    else if c == '|' as nat && !inFlow then Literal
    else if c == '>' as nat && !inFlow then Folded
    else if c == APOSTROPHE then SingleQuotedScalar
    else if c == QUOTE then DoubleQuotedScalar
    else if StartsPlain(t, inFlow) then PlainScalar
    else Unknown
  }
}
