/** Tags: how the emitter shortens and writes them, and that the scanner and the parser get them
    back. */
module Tags {
  import opened Events
  import opened Characters
  import opened Layout
  import opened Encodings
  import FlowScanner
  import BlockScanner
  import DoubleQuoted
  import Parser

  const BANG: nat := '!' as nat
  const PERCENT: nat := '%' as nat
  const LESS: nat := '<' as nat
  const COMMA: nat := ',' as nat

  predicate IsFlowMark(c: nat) {
    c == COMMA || c == '[' as nat || c == ']' as nat
  }

  predicate IsUriMark(c: nat) {
    || c == ';' as nat || c == '/' as nat || c == '?' as nat || c == ':' as nat || c == '@' as nat
    || c == '&' as nat || c == '=' as nat || c == '+' as nat || c == '$' as nat || c == '.' as nat
    || c == '~' as nat || c == '*' as nat || c == '\'' as nat || c == '(' as nat || c == ')' as nat
  }

  /** The characters that the scanner takes as they are; the flow indicators only in a verbatim
      tag or in a prefix. */
  predicate IsUriChar(c: nat, verbatim: bool) {
    IsAlpha(c) || IsUriMark(c) || c == BANG || (verbatim && IsFlowMark(c))
  }

  /** The characters that the emitter writes as they are. */
  predicate IsWrittenAsIs(c: nat) {
    IsAlpha(c) || IsUriMark(c) || IsFlowMark(c)
  }

  // ---- The text that is written ----

  function PercentText(b: Byte): Text {
    [PERCENT, DoubleQuoted.HexDigit(b / 16), DoubleQuoted.HexDigit(b % 16)]
  }

  function PercentTexts(bytes: Bytes): (t: Text)
    ensures |t| == 3 * |bytes|
  {
    if bytes == [] then [] else PercentText(bytes[0]) + PercentTexts(bytes[1..])
  }

  function PieceText(c: nat): Text
    requires c <= 0x10FFFF
  {
    if IsWrittenAsIs(c) then [c] else PercentTexts(Utf8(c))
  }

  /** A tag, or the suffix or the prefix of one, as it is written. */
  function ContentText(t: Text): Text
    requires InRange(t)
  {
    if t == [] then [] else PieceText(t[0]) + ContentText(t[1..])
  }

  /** A tag as it was analyzed; a handle without a suffix is the tag `!`. */
  datatype TagData = TagData(handle: Option<string>, suffix: Option<string>)

  const NO_TAG := TagData(None, None)

  function TagBody(g: TagData): Text {
    match g
    case TagData(Some(handle), None) => TextOf(handle)
    case TagData(Some(handle), Some(suffix)) => TextOf(handle) + ContentText(TextOf(suffix))
    case TagData(None, Some(suffix)) => [BANG, LESS] + ContentText(TextOf(suffix)) + [GREATER]
    case TagData(None, None) => []
  }

  function Spacer(p: Pen): Text {
    if p.whitespace then [] else [SPACE]
  }

  function TagText(g: TagData, p: Pen): Text {
    if g == NO_TAG then [] else Spacer(p) + TagBody(g)
  }

  /** Where the pen is after a property of a node. */
  function AfterProperty(p: Pen, t: Text): Pen {
    if t == [] then p else Pen(p.column + |t|, false, false)
  }

  // ---- The writers ----

  method WritePercent(w: Writer, b: Byte)
    requires w.Valid()
    modifies w
    ensures w.Valid() && w.text == old(w.text) + PercentText(b)
    ensures w.CurrentPen() == Move(old(w.CurrentPen()), 3)
  {
    w.Put(PERCENT);
    w.Put(DoubleQuoted.HexDigit(b / 16));
    w.Put(DoubleQuoted.HexDigit(b % 16));
  }

  /** Writes a character of a tag, escaped octet by octet if need be. */
  method WritePiece(w: Writer, c: nat)
    requires w.Valid() && c <= 0x10FFFF
    modifies w
    ensures w.Valid() && w.text == old(w.text) + PieceText(c)
    ensures w.CurrentPen() == Move(old(w.CurrentPen()), |PieceText(c)|)
  {
    hide Utf8, ColumnOf, PercentText;
    if IsWrittenAsIs(c) {
      w.Put(c);
      return;
    }
    var bytes: Bytes := Utf8(c);
    assert bytes[0..] == bytes;
    for i := 0 to |bytes|
      invariant w.Valid() && w.text + PercentTexts(bytes[i..]) == old(w.text) + PercentTexts(bytes)
      invariant w.CurrentPen() == Move(old(w.CurrentPen()), 3 * i)
    {
      assert bytes[i..][1..] == bytes[i + 1..];
      Assoc(w.text, PercentText(bytes[i]), PercentTexts(bytes[i + 1..]));
      WritePercent(w, bytes[i]);
    }
    assert bytes[|bytes|..] == [];
    assert w.text + [] == w.text;
  }

  method WriteTagContent(w: Writer, t: Text, needWhitespace: bool)
    requires w.Valid() && InRange(t)
    modifies w
    ensures w.Valid()
    ensures w.text == old(w.text) + (if needWhitespace then Spacer(old(w.CurrentPen())) else []) + ContentText(t)
    ensures w.CurrentPen()
         == Pen(old(w.column) + (if needWhitespace then |Spacer(old(w.CurrentPen()))| else 0) + |ContentText(t)|, false, false)
  {
    hide PieceText, ColumnOf;
    if needWhitespace && !w.whitespace {
      w.Put(SPACE);
    }
    ghost var goal, at := w.text + ContentText(t), w.column + |ContentText(t)|;
    assert t[0..] == t;
    for i := 0 to |t|
      invariant w.Valid() && w.text + ContentText(t[i..]) == goal && w.column + |ContentText(t[i..])| == at
    {
      assert t[i..][1..] == t[i + 1..];
      Assoc(w.text, PieceText(t[i]), ContentText(t[i + 1..]));
      WritePiece(w, t[i]);
    }
    assert t[|t|..] == [];
    assert w.text + [] == w.text;
    w.whitespace, w.indention := false, false;
  }

  /** Writes a handle, or an anchor behind its indicator. */
  method WriteName(w: Writer, t: Text, needWhitespace: bool)
    requires w.Valid() && forall i | 0 <= i < |t| :: !IsBreak(t[i])
    modifies w
    ensures w.Valid()
    ensures w.text == old(w.text) + (if needWhitespace then Spacer(old(w.CurrentPen())) else []) + t
    ensures w.CurrentPen()
         == Pen(old(w.column) + (if needWhitespace then |Spacer(old(w.CurrentPen()))| else 0) + |t|, false, false)
  {
    w.WriteIndicator(t, needWhitespace, false, false);
  }

  /** No part of a handle breaks the line. */
  predicate IsHandle(handle: string) {
    && handle != "" && handle[0] == '!' && handle[|handle| - 1] == '!'
    && forall i | 1 <= i < |handle| - 1 :: IsAlpha(handle[i] as nat)
  }

  lemma HandleHasNoBreak(handle: string)
    requires IsHandle(handle)
    ensures forall i | 0 <= i < |TextOf(handle)| :: !IsBreak(TextOf(handle)[i])
  {
  }

  predicate HasValidHandle(g: TagData) {
    g.handle.Some? ==> IsHandle(g.handle.value)
  }

  /** Writes a tag. */
  method ProcessTag(w: Writer, g: TagData)
    requires w.Valid() && HasValidHandle(g)
    modifies w
    ensures w.Valid() && w.text == old(w.text) + TagText(g, old(w.CurrentPen()))
    ensures w.CurrentPen() == AfterProperty(old(w.CurrentPen()), TagText(g, old(w.CurrentPen())))
  {
    hide ColumnOf, ContentText;
    ghost var before, space := w.text, Spacer(w.CurrentPen());
    match g {
      case TagData(Some(handle), suffix) =>
        HandleHasNoBreak(handle);
        hide IsHandle;
        WriteName(w, TextOf(handle), true);
        if suffix.Some? {
          WriteTagContent(w, TextOf(suffix.value), false);
          ghost var content := ContentText(TextOf(suffix.value));
          assert before + space + TextOf(handle) + [] + content == before + (space + (TextOf(handle) + content));
        } else {
          Assoc(before, space, TextOf(handle));
        }
      case TagData(None, Some(suffix)) =>
        w.WriteIndicator([BANG, LESS], true, false, false);
        WriteTagContent(w, TextOf(suffix), false);
        w.WriteIndicator([GREATER], false, false, false);
        ghost var content := ContentText(TextOf(suffix));
        assert before + space + [BANG, LESS] + [] + content + [] + [GREATER]
            == before + (space + ([BANG, LESS] + content + [GREATER]));
      case TagData(None, None) =>
        assert w.text + [] == w.text;
    }
  }

  // ---- The scanner ----

  predicate IsOctet(t: Text) {
    |t| >= 3 && t[0] == PERCENT && FlowScanner.IsHex(t[1]) && FlowScanner.IsHex(t[2])
  }

  function OctetAt(t: Text): Byte
    requires IsOctet(t)
  {
    FlowScanner.AsHex(t[1]) * 16 + FlowScanner.AsHex(t[2])
  }

  /** Octets of one character and the text that follows them. */
  datatype Octets = Octets(bytes: Bytes, rest: Text) | BadOctets

  function ReadTrailing(t: Text, n: nat, bytes: Bytes): Octets
    decreases n
  {
    if n == 0 then Octets(bytes, t)
    else if !IsOctet(t) || !IsTrailing(OctetAt(t)) then BadOctets
    else ReadTrailing(t[3..], n - 1, bytes + [OctetAt(t)])
  }

  /** The escapes of one character. */
  function ReadCharacter(t: Text): Octets {
    if !IsOctet(t) || WidthOf(OctetAt(t)) == 0 then BadOctets
    else ReadTrailing(t[3..], WidthOf(OctetAt(t)) - 1, [OctetAt(t)])
  }

  lemma {:induction false} TrailingShorter(t: Text, n: nat, bytes: Bytes)
    ensures
      var o := ReadTrailing(t, n, bytes);
      o.Octets? ==> |o.rest| <= |t|
    decreases n
  {
    if n > 0 && IsOctet(t) && IsTrailing(OctetAt(t)) {
      TrailingShorter(t[3..], n - 1, bytes + [OctetAt(t)]);
    }
  }

  lemma CharacterShorter(t: Text)
    ensures ReadCharacter(t).Octets? ==> |ReadCharacter(t).rest| < |t|
  {
    if IsOctet(t) && WidthOf(OctetAt(t)) > 0 {
      TrailingShorter(t[3..], WidthOf(OctetAt(t)) - 1, [OctetAt(t)]);
    }
  }

  datatype Uri = Uri(bytes: Bytes, rest: Text) | BadUri

  /** A URI with its escapes undone, and the text that follows; `length` counts what was read
      before. */
  function ScanUri(t: Text, verbatim: bool, uri: Bytes, length: nat): Uri
    decreases |t|
  {
    if t != [] && t[0] == PERCENT then
      CharacterShorter(t);
      match ReadCharacter(t)
      case BadOctets => BadUri
      case Octets(bytes, rest) => ScanUri(rest, verbatim, uri + bytes, length + 1)
    else if t != [] && IsUriChar(t[0], verbatim) then ScanUri(t[1..], verbatim, uri + [t[0]], length + 1)
    else if length == 0 then BadUri
    else Uri(uri, t)
  }

  function AlphaPrefix(t: Text): (n: nat)
    ensures n <= |t| && forall i | 0 <= i < n :: IsAlpha(t[i])
    ensures n < |t| ==> !IsAlpha(t[n])
  {
    if t != [] && IsAlpha(t[0]) then 1 + AlphaPrefix(t[1..]) else 0
  }

  /** The length of the handle at the start of `t`, or of what begins like one. */
  function HandleLength(t: Text): (n: nat)
    requires t != []
    ensures 1 <= n <= |t|
  {
    var n := 1 + AlphaPrefix(t[1..]);
    if Look(t, n) == BANG then n + 1 else n
  }

  predicate LooksLikeHandle(h: Text) {
    |h| > 1 && h[|h| - 1] == BANG
  }

  datatype ScannedTag = ScannedTag(handle: Text, suffix: Bytes, rest: Text) | BadTag

  function AsBytes(t: Text): (b: Bytes)
    requires forall i | 0 <= i < |t| :: t[i] < 256
    ensures b == t
  {
    t
  }

  lemma HandleIsBytes(t: Text)
    requires Look(t, 0) == BANG
    ensures t != [] && forall i | 0 <= i < HandleLength(t) :: t[..HandleLength(t)][i] < 128
  {
    var n := AlphaPrefix(t[1..]);
    forall i | 1 <= i <= n ensures t[i] < 128 {
      assert t[1..][i - 1] == t[i];
    }
  }

  /** The form without a verbatim tag. */
  function ScanShort(t: Text): ScannedTag {
    if Look(t, 0) != BANG then BadTag
    else
      HandleIsBytes(t);
      var n := HandleLength(t);
      var h, after := t[..n], t[n..];
      if LooksLikeHandle(h) then
        var uri := ScanUri(after, false, [], 0);
        if uri.BadUri? then BadTag else ScannedTag(h, uri.bytes, uri.rest)
      else
        assert forall i | 0 <= i < |h[1..]| :: h[1..][i] == h[i + 1];
        var uri := ScanUri(after, false, AsBytes(h[1..]), |h|);
        if uri.BadUri? then BadTag
        else if uri.bytes == [] then ScannedTag([], [BANG], uri.rest)
        else ScannedTag([BANG], uri.bytes, uri.rest)
  }

  function ScanVerbatim(t: Text): ScannedTag
    requires |t| >= 2
  {
    var uri := ScanUri(t[2..], true, [], 0);
    if uri.BadUri? || Look(uri.rest, 0) != GREATER then BadTag
    else ScannedTag([], uri.bytes, uri.rest[1..])
  }

  /** What may follow a tag. */
  predicate EndsTag(t: Text, inFlow: bool) {
    IsBlankZ(Look(t, 0)) || (inFlow && Look(t, 0) == COMMA)
  }

  /** The tag at the start of `t`. */
  function ScanTag(t: Text, inFlow: bool): ScannedTag {
    var r := if Look(t, 1) == LESS then ScanVerbatim(t) else ScanShort(t);
    if r.BadTag? || !EndsTag(r.rest, inFlow) then BadTag else r
  }

  // ---- The scanner itself ----

  method ScanUriEscapes(t: Text) returns (o: Octets)
    ensures o == ReadCharacter(t)
  {
    if !IsOctet(t) {
      return BadOctets;
    }
    var width := WidthOf(OctetAt(t));
    if width == 0 {
      return BadOctets;
    }
    var bytes: Bytes, rest := [OctetAt(t)], t[3..];
    width := width - 1;
    while width > 0
      invariant ReadCharacter(t) == ReadTrailing(rest, width, bytes)
    {
      if !IsOctet(rest) || !IsTrailing(OctetAt(rest)) {
        return BadOctets;
      }
      bytes, rest, width := bytes + [OctetAt(rest)], rest[3..], width - 1;
    }
    return Octets(bytes, rest);
  }

  /** Scans a URI behind `head`, of which the first character is dropped. */
  method ScanTagUri(t: Text, verbatim: bool, head: Bytes) returns (r: Uri)
    ensures r == ScanUri(t, verbatim, if head == [] then [] else head[1..], |head|)
  {
    hide ReadCharacter, IsUriChar;
    var uri: Bytes, rest, length: nat := [], t, |head|;
    if length > 1 {
      uri := head[1..];
    }
    assert uri == if head == [] then [] else head[1..];
    while rest != [] && (rest[0] == PERCENT || IsUriChar(rest[0], verbatim))
      invariant ScanUri(t, verbatim, if head == [] then [] else head[1..], |head|) == ScanUri(rest, verbatim, uri, length)
      decreases |rest|
    {
      if rest[0] == PERCENT {
        CharacterShorter(rest);
        var o := ScanUriEscapes(rest);
        if o.BadOctets? {
          return BadUri;
        }
        uri, rest := uri + o.bytes, o.rest;
      } else {
        uri, rest := uri + ReadOne(rest[0], verbatim), rest[1..];
      }
      length := length + 1;
    }
    if length == 0 {
      return BadUri;
    }
    return Uri(uri, rest);
  }

  /** The one octet of a character that a URI may hold. */
  function ReadOne(c: nat, verbatim: bool): (b: Bytes)
    requires IsUriChar(c, verbatim)
    ensures b == [c]
  {
    [c]
  }

  method ScanTagHandle(t: Text) returns (n: nat)
    requires t != []
    ensures n == HandleLength(t)
  {
    n := 1;
    assert t[1..] == t[n..];
    while n < |t| && IsAlpha(t[n])
      invariant 1 <= n <= |t| && 1 + AlphaPrefix(t[1..]) == n + AlphaPrefix(t[n..])
    {
      assert t[n..][1..] == t[n + 1..];
      n := n + 1;
    }
    assert AlphaPrefix(t[n..]) == 0;
    if Look(t, n) == BANG {
      n := n + 1;
    }
  }

  method ScanShortTag(t: Text) returns (r: ScannedTag)
    ensures r == ScanShort(t)
  {
    hide ScanUri, HandleLength, IsUriChar;
    if Look(t, 0) != BANG {
      return BadTag;
    }
    var n := ScanTagHandle(t);
    HandleIsBytes(t);
    var h, after := t[..n], t[n..];
    if LooksLikeHandle(h) {
      var uri := ScanTagUri(after, false, []);
      return if uri.BadUri? then BadTag else ScannedTag(h, uri.bytes, uri.rest);
    }
    var uri := ScanTagUri(after, false, AsBytes(h));
    if uri.BadUri? {
      return BadTag;
    }
    return if uri.bytes == [] then ScannedTag([], [BANG], uri.rest) else ScannedTag([BANG], uri.bytes, uri.rest);
  }

  /** Scans a tag. */
  method ScanTagToken(t: Text, inFlow: bool) returns (r: ScannedTag)
    ensures r == ScanTag(t, inFlow)
  {
    hide ScanUri, ScanShort, IsBlankZ;
    if Look(t, 1) == LESS {
      var uri := ScanTagUri(t[2..], true, []);
      if uri.BadUri? || Look(uri.rest, 0) != GREATER {
        return BadTag;
      }
      r := ScannedTag([], uri.bytes, uri.rest[1..]);
    } else {
      r := ScanShortTag(t);
    }
    if r.ScannedTag? && !EndsTag(r.rest, inFlow) {
      r := BadTag;
    }
  }

  // ---- The escapes are undone ----

  lemma PercentReads(b: Byte, t: Text)
    ensures IsOctet(PercentText(b) + t) && OctetAt(PercentText(b) + t) == b && (PercentText(b) + t)[3..] == t
  {
  }

  lemma {:induction false} TrailingReads(bytes: Bytes, more: Bytes, t: Text)
    requires forall i | 0 <= i < |more| :: IsTrailing(more[i])
    ensures ReadTrailing(PercentTexts(more) + t, |more|, bytes) == Octets(bytes + more, t)
    decreases |more|
  {
    hide PercentText, OctetAt, IsOctet;
    if more == [] {
      assert PercentTexts(more) + t == t && bytes + more == bytes;
    } else {
      Assoc(PercentText(more[0]), PercentTexts(more[1..]), t);
      PercentReads(more[0], PercentTexts(more[1..]) + t);
      TrailingReads(bytes + [more[0]], more[1..], t);
      assert bytes + [more[0]] + more[1..] == bytes + more;
    }
  }

  /** A character that is written octet by octet is read as these octets. */
  lemma CharacterReads(c: nat, t: Text)
    requires c <= 0x10FFFF
    ensures
      var text := PercentTexts(Utf8(c)) + t;
      text != [] && text[0] == PERCENT && ReadCharacter(text) == Octets(Utf8(c), t)
  {
    var b: Bytes := Utf8(c);
    Utf8Joins(c);
    hide Utf8, PercentText, OctetAt, IsOctet, Joined, WidthOf, LeadBits;
    Assoc(PercentText(b[0]), PercentTexts(b[1..]), t);
    PercentReads(b[0], PercentTexts(b[1..]) + t);
    assert forall i | 0 <= i < |b[1..]| :: IsTrailing(b[1..][i]);
    TrailingReads([b[0]], b[1..], t);
    assert [b[0]] + b[1..] == b;
    PercentStarts(b[0]);
  }

  lemma PercentStarts(b: Byte)
    ensures PercentText(b)[0] == PERCENT && |PercentText(b)| == 3
  {
  }

  lemma WrittenIsUri(c: nat, verbatim: bool)
    requires IsWrittenAsIs(c)
    ensures c < 128 && c != PERCENT && c != BANG && c != LESS && c != GREATER && Utf8(c) == [c]
    ensures IsUriChar(c, verbatim) <==> verbatim || !IsFlowMark(c)
  {
  }

  /** The characters up to the first that the scanner does not take in a shorthand. */
  function Clean(t: Text, verbatim: bool): (n: nat)
    ensures n <= |t| && (verbatim ==> n == |t|)
    ensures n < |t| ==> IsFlowMark(t[n])
    ensures !verbatim ==> forall i | 0 <= i < n :: !IsFlowMark(t[i])
  {
    if t == [] || (!verbatim && IsFlowMark(t[0])) then 0 else 1 + Clean(t[1..], verbatim)
  }

  /** Nothing of a URI follows. */
  predicate EndsUri(t: Text, verbatim: bool) {
    Look(t, 0) != PERCENT && !IsUriChar(Look(t, 0), verbatim)
  }

  /** Scanning undoes the escapes, as far as the characters go that may stand in the URI. */
  lemma {:induction false} UriReads(t: Text, verbatim: bool, uri: Bytes, length: nat, rest: Text)
    requires InRange(t) && EndsUri(rest, verbatim)
    ensures
      var n := Clean(t, verbatim);
      ScanUri(ContentText(t) + rest, verbatim, uri, length)
      == if length + n == 0 then BadUri else Uri(uri + Encode(t[..n], Utf8Encoding), ContentText(t[n..]) + rest)
    decreases |t|
  {
    hide PieceText, EndsUri, ScanUri, EncodeOne, IsFlowMark;
    var n := Clean(t, verbatim);
    if t == [] {
      assert ContentText(t) + rest == rest && t[..0] == [] && uri + [] == uri && t[n..] == t;
      UriStops(rest, verbatim, uri, length);
    } else {
      var after := ContentText(t[1..]) + rest;
      Assoc(PieceText(t[0]), ContentText(t[1..]), rest);
      PieceReads(t[0], verbatim, uri, length, after);
      if n == 0 {
        assert t[..0] == [] && uri + [] == uri && t[0..] == t;
      } else {
        UriReads(t[1..], verbatim, uri + EncodeOne(t[0], Utf8Encoding), length + 1, rest);
        assert t[..n][1..] == t[1..][..n - 1] && t[1..][n - 1..] == t[n..];
        Assoc(uri, EncodeOne(t[0], Utf8Encoding), Encode(t[1..][..n - 1], Utf8Encoding));
      }
    }
  }

  lemma UriStops(t: Text, verbatim: bool, uri: Bytes, length: nat)
    requires EndsUri(t, verbatim)
    ensures ScanUri(t, verbatim, uri, length) == if length == 0 then BadUri else Uri(uri, t)
  {
  }

  lemma PieceReads(c: nat, verbatim: bool, uri: Bytes, length: nat, after: Text)
    requires c <= 0x10FFFF
    ensures ScanUri(PieceText(c) + after, verbatim, uri, length)
         == if !verbatim && IsFlowMark(c) then (if length == 0 then BadUri else Uri(uri, PieceText(c) + after))
            else ScanUri(after, verbatim, uri + EncodeOne(c, Utf8Encoding), length + 1)
  {
    hide IsUriMark, IsAlpha, ReadCharacter, Utf8;
    if IsWrittenAsIs(c) {
      WrittenIsUri(c, verbatim);
      assert ([c] + after)[1..] == after;
    } else {
      CharacterReads(c, after);
    }
  }

  // ---- Shortening ----

  /** The tag with the first prefix that it starts with, without being it, left off. */
  function Shorten(tag: string, directives: seq<TagDirective>): TagData {
    if directives == [] then TagData(None, Some(tag))
    else if |directives[0].prefix| < |tag| && directives[0].prefix <= tag then
      TagData(Some(directives[0].handle), Some(tag[|directives[0].prefix|..]))
    else Shorten(tag, directives[1..])
  }

  method AnalyzeTag(tag: string, directives: seq<TagDirective>) returns (ok: bool, g: TagData)
    ensures ok <==> tag != ""
    ensures ok ==> g == Shorten(tag, directives)
  {
    if tag == "" {
      return false, NO_TAG;
    }
    for i := 0 to |directives|
      invariant Shorten(tag, directives) == Shorten(tag, directives[i..])
    {
      assert directives[i..][1..] == directives[i + 1..];
      if |directives[i].prefix| < |tag| && directives[i].prefix <= tag {
        return true, TagData(Some(directives[i].handle), Some(tag[|directives[i].prefix|..]));
      }
    }
    return true, TagData(None, Some(tag));
  }

  predicate ValidHandles(directives: seq<TagDirective>) {
    forall i | 0 <= i < |directives| :: IsHandle(directives[i].handle)
  }

  /** What the parser looks up for a tag. */
  function HandleOf(g: TagData): string {
    if g.handle.Some? then g.handle.value else ""
  }

  function SuffixOf(g: TagData): string {
    if g.suffix.Some? then g.suffix.value else ""
  }

  /** Expanding undoes shortening. */
  lemma {:induction false} ShortenResolves(tag: string, directives: seq<TagDirective>)
    requires tag != "" && Parser.DistinctHandles(directives) && ValidHandles(directives)
    ensures
      var g := Shorten(tag, directives);
      && g.suffix.Some? && g.suffix.value != "" && HasValidHandle(g)
      && (g.handle.Some? ==> Parser.HasHandle(directives, g.handle.value))
      && Parser.ResolveTag(directives, HandleOf(g), SuffixOf(g)) == Some(tag)
    decreases |directives|
  {
    if directives != [] {
      var d, g := directives[0], Shorten(tag, directives);
      if |d.prefix| < |tag| && d.prefix <= tag {
        assert d.prefix + tag[|d.prefix|..] == tag;
      } else {
        ShortenResolves(tag, directives[1..]);
        if g.handle.Some? {
          var i :| 0 <= i < |directives[1..]| && directives[1..][i].handle == g.handle.value;
          assert directives[i + 1].handle == g.handle.value;
        }
      }
    }
  }

  // ---- The round trip ----

  lemma EndIsNoUri(rest: Text, inFlow: bool)
    requires EndsTag(rest, inFlow)
    ensures EndsUri(rest, false) && !IsAlpha(Look(rest, 0)) && Look(rest, 0) != BANG && Look(rest, 0) != LESS
  {
  }

  /** What a piece of a URI starts with. */
  lemma PieceStarts(c: nat)
    requires c <= 0x10FFFF
    ensures
      var t := PieceText(c);
      && t != [] && t[0] != BANG && t[0] != LESS && (IsAlpha(t[0]) <==> IsAlpha(c))
      && (IsAlpha(c) ==> t == [c])
  {
    if IsWrittenAsIs(c) {
      WrittenIsUri(c, true);
    } else {
      CharacterReads(c, []);
      assert PercentTexts(Utf8(c)) + [] == PercentTexts(Utf8(c));
    }
  }

  lemma ContentStarts(t: Text, rest: Text, inFlow: bool)
    requires InRange(t) && EndsTag(rest, inFlow) && (t != [] ==> !IsAlpha(t[0]))
    ensures var c := Look(ContentText(t) + rest, 0); !IsAlpha(c) && c != BANG && c != LESS
  {
    hide PieceText, IsAlpha, EndsTag;
    EndIsNoUri(rest, inFlow);
    if t != [] {
      PieceStarts(t[0]);
    } else {
      assert ContentText(t) + rest == rest;
    }
  }

  /** Letters at the start are written as they are. */
  lemma {:induction false} ContentAlpha(t: Text, n: nat)
    requires InRange(t) && n <= |t| && forall i | 0 <= i < n :: IsAlpha(t[i])
    ensures ContentText(t) == t[..n] + ContentText(t[n..])
    ensures Encode(t[..n], Utf8Encoding) == t[..n]
    decreases n
  {
    hide PieceText, IsAlpha;
    if n == 0 {
      assert t[..0] == [] && t[0..] == t;
    } else {
      PieceStarts(t[0]);
      ContentAlpha(t[1..], n - 1);
      AlphaIsOne(t[0]);
      assert t[1..][n - 1..] == t[n..] && t[..n][1..] == t[1..][..n - 1];
      assert [t[0]] + t[1..][..n - 1] == t[..n];
    }
  }

  lemma AlphaIsOne(c: nat)
    requires IsAlpha(c)
    ensures EncodeOne(c, Utf8Encoding) == [c] && !IsFlowMark(c) && !IsBreak(c)
  {
  }

  lemma {:induction false} AlphasThen(a: Text, u: Text)
    requires (forall i | 0 <= i < |a| :: IsAlpha(a[i])) && !IsAlpha(Look(u, 0))
    ensures AlphaPrefix(a + u) == |a|
  {
    hide IsAlpha;
    if a == [] {
      assert a + u == u;
    } else {
      assert (a + u)[1..] == a[1..] + u;
      AlphasThen(a[1..], u);
    }
  }

  lemma {:induction false} CleanAfter(t: Text, j: nat)
    requires j <= |t| && forall i | 0 <= i < j :: !IsFlowMark(t[i])
    ensures Clean(t, false) == j + Clean(t[j..], false)
    decreases j
  {
    hide IsFlowMark;
    if j == 0 {
      assert t[0..] == t;
    } else {
      assert t[1..][j - 1..] == t[j..];
      CleanAfter(t[1..], j - 1);
    }
  }

  /** A handle and a suffix. */
  lemma HandleReads(handle: Text, content: Text)
    requires |handle| >= 2 && handle[0] == BANG && handle[|handle| - 1] == BANG
    requires forall i | 1 <= i < |handle| - 1 :: IsAlpha(handle[i])
    ensures
      var t := handle + content;
      && HandleLength(t) == |handle| && t[..|handle|] == handle && t[|handle|..] == content
      && LooksLikeHandle(handle) && Look(t, 1) != LESS && Look(t, 0) == BANG
  {
    var t, a := handle + content, handle[1..|handle| - 1];
    assert t[1..] == a + ([BANG] + content);
    assert !IsAlpha(BANG) && !IsAlpha(LESS);
    hide IsAlpha;
    AlphasThen(a, [BANG] + content);
  }

  lemma NamedReads(handle: Text, s: Text, rest: Text, inFlow: bool)
    requires |handle| >= 2 && handle[0] == BANG && handle[|handle| - 1] == BANG
    requires forall i | 1 <= i < |handle| - 1 :: IsAlpha(handle[i])
    requires IsText(s) && s != [] && EndsTag(rest, inFlow)
    ensures
      var r := ScanTag(handle + (ContentText(s) + rest), inFlow);
      if Clean(s, false) == |s| then r == ScannedTag(handle, Encode(s, Utf8Encoding), rest)
      else r.BadTag? || |rest| < |r.rest|
  {
    hide ContentText, ScanUri, Encode, IsAlpha, HandleLength, LooksLikeHandle, IsBlankZ, Clean;
    var content, n := ContentText(s) + rest, Clean(s, false);
    HandleReads(handle, content);
    EndIsNoUri(rest, inFlow);
    UriReads(s, false, [], 0, rest);
    Rest(s, n, rest);
    assert [] + Encode(s[..n], Utf8Encoding) == Encode(s[..n], Utf8Encoding);
  }

  lemma Rest(s: Text, n: nat, rest: Text)
    requires InRange(s) && n <= |s|
    ensures n == |s| ==> s[..n] == s && ContentText(s[n..]) + rest == rest
    ensures n < |s| ==> |rest| < |ContentText(s[n..]) + rest|
  {
    hide PieceText;
    if n < |s| {
      PieceStarts(s[n]);
    } else {
      assert s[n..] == [] && [] + rest == rest;
    }
  }

  lemma BangLength(s: Text, rest: Text, inFlow: bool)
    requires IsText(s) && EndsTag(rest, inFlow)
    ensures
      var t, j := [BANG] + (ContentText(s) + rest), AlphaPrefix(s);
      && HandleLength(t) == 1 + j && t[..1 + j] == [BANG] + s[..j] && t[1 + j..] == ContentText(s[j..]) + rest
      && !LooksLikeHandle([BANG] + s[..j]) && Look(t, 1) != LESS && Look(t, 0) == BANG
  {
    hide IsBlankZ, IsAlpha, ContentText, AlphaPrefix, EndsTag;
    var t, j := [BANG] + (ContentText(s) + rest), AlphaPrefix(s);
    var a, u := s[..j], ContentText(s[j..]) + rest;
    ContentAlpha(s, j);
    Assoc(a, ContentText(s[j..]), rest);
    Behind(BANG, a, u);
    assert j < |s| ==> s[j..][0] == s[j];
    ContentStarts(s[j..], rest, inFlow);
    AlphasThen(a, u);
    NotAlpha();
    if j > 0 {
      assert IsAlpha(s[j - 1]) && IsAlpha(a[0]);
    }
  }

  lemma Behind(c: nat, a: Text, u: Text)
    ensures
      var t := [c] + (a + u);
      && t[0] == c && t[1..] == a + u && t[..1 + |a|] == [c] + a && t[1 + |a|..] == u
      && (if a != [] then t[1] == a[0] else a + u == u && (u != [] ==> t[1] == u[0]))
  {
  }

  lemma NotAlpha()
    ensures !IsAlpha(BANG) && !IsAlpha(LESS)
  {
  }

  /** The handle `!` and a suffix, or the tag `!` if there is none. */
  lemma BangReads(s: Text, rest: Text, inFlow: bool)
    requires IsText(s) && EndsTag(rest, inFlow)
    ensures
      var r := ScanTag([BANG] + (ContentText(s) + rest), inFlow);
      if s == [] then r == ScannedTag([], [BANG], rest)
      else if Clean(s, false) == |s| then r == ScannedTag([BANG], Encode(s, Utf8Encoding), rest)
      else r.BadTag? || |rest| < |r.rest|
  {
    hide ContentText, Encode, EndsTag, Clean, ScanTag, BangResult;
    var uri := BangUri(s, rest, inFlow);
    var n := Clean(s, false);
    Rest(s, n, rest);
    BangResultIs(uri, inFlow);
    if s == [] {
      NothingEncoded(Utf8Encoding);
    } else {
      NotEmpty(s);
    }
  }

  /** The URI behind `!`. */
  lemma BangUri(s: Text, rest: Text, inFlow: bool) returns (uri: Uri)
    requires IsText(s) && EndsTag(rest, inFlow)
    ensures ScanTag([BANG] + (ContentText(s) + rest), inFlow) == BangResult(uri, inFlow)
    ensures
      var n := Clean(s, false);
      uri == Uri(Encode(s[..n], Utf8Encoding), ContentText(s[n..]) + rest)
  {
    hide ContentText, ScanUri, Encode, EndsTag, Clean, ScanTag, BangResult, EndsUri;
    var j := AlphaPrefix(s);
    var head := BangHead(s, rest, inFlow);
    EndIsNoUri(rest, inFlow);
    uri := ScanUri(ContentText(s[j..]) + rest, false, head, 1 + j);
    UriAfter(s, j, head, rest);
  }

  lemma UriAfter(s: Text, j: nat, head: Bytes, rest: Text)
    requires IsText(s) && j <= |s| && Encode(s[..j], Utf8Encoding) == head && EndsUri(rest, false)
    requires Clean(s, false) == j + Clean(s[j..], false)
    ensures
      var n := Clean(s, false);
      ScanUri(ContentText(s[j..]) + rest, false, head, 1 + j) == Uri(Encode(s[..n], Utf8Encoding), ContentText(s[n..]) + rest)
  {
    hide ContentText, ScanUri, Encode, Clean, EndsUri;
    var m := Clean(s[j..], false);
    UriReads(s[j..], false, head, 1 + j, rest);
    EncodeAppend(s[..j], s[j..][..m], Utf8Encoding);
    assert s[..j] + s[j..][..m] == s[..j + m] && s[j..][m..] == s[j + m..];
  }

  /** What the scanner makes of a URI behind `!`. */
  function BangResult(uri: Uri, inFlow: bool): ScannedTag {
    if uri.BadUri? || !EndsTag(uri.rest, inFlow) then BadTag
    else if uri.bytes == [] then ScannedTag([], [BANG], uri.rest)
    else ScannedTag([BANG], uri.bytes, uri.rest)
  }

  lemma BangResultIs(uri: Uri, inFlow: bool)
    ensures var r := BangResult(uri, inFlow);
      && (r.ScannedTag? ==> uri.Uri? && r.rest == uri.rest)
      && (uri.Uri? && EndsTag(uri.rest, inFlow) ==>
            r == if uri.bytes == [] then ScannedTag([], [BANG], uri.rest) else ScannedTag([BANG], uri.bytes, uri.rest))
  {
  }

  lemma BangHead(s: Text, rest: Text, inFlow: bool) returns (head: Bytes)
    requires IsText(s) && EndsTag(rest, inFlow)
    ensures
      var j := AlphaPrefix(s);
      && Encode(s[..j], Utf8Encoding) == head && Clean(s, false) == j + Clean(s[j..], false)
      && ScanTag([BANG] + (ContentText(s) + rest), inFlow)
         == BangResult(ScanUri(ContentText(s[j..]) + rest, false, head, 1 + j), inFlow)
  {
    hide ContentText, ScanUri, Encode, IsAlpha, HandleLength, EndsTag, Clean;
    var t, j := [BANG] + (ContentText(s) + rest), AlphaPrefix(s);
    BangLength(s, rest, inFlow);
    ContentAlpha(s, j);
    HandleIsBytes(t);
    forall i | 0 <= i < j ensures s[i] < 128 && !IsFlowMark(s[i]) {
      assert t[..1 + j][1 + i] == s[i];
      AlphaIsOne(s[i]);
    }
    CleanAfter(s, j);
    head := AsBytes(s[..j]);
    assert ([BANG] + s[..j])[1..] == head;
  }

  lemma NotEmpty(s: Text)
    requires InRange(s)
    ensures s != [] ==> Encode(s, Utf8Encoding) != []
  {
  }

  lemma VerbatimReads(s: Text, rest: Text, inFlow: bool)
    requires IsText(s) && s != [] && EndsTag(rest, inFlow)
    ensures ScanTag([BANG, LESS] + (ContentText(s) + ([GREATER] + rest)), inFlow) == ScannedTag([], Encode(s, Utf8Encoding), rest)
  {
    hide ContentText, ScanUri, Encode, EndsTag;
    var content := ContentText(s) + ([GREATER] + rest);
    assert ([BANG, LESS] + content)[2..] == content;
    ContentReads(s, rest);
    assert ([GREATER] + rest)[1..] == rest;
  }

  lemma ContentReads(s: Text, rest: Text)
    requires IsText(s) && s != []
    ensures ScanUri(ContentText(s) + ([GREATER] + rest), true, [], 0) == Uri(Encode(s, Utf8Encoding), [GREATER] + rest)
  {
    hide ContentText, ScanUri, Encode;
    assert EndsUri([GREATER] + rest, true);
    UriReads(s, true, [], 0, [GREATER] + rest);
    Rest(s, |s|, [GREATER] + rest);
    assert [] + Encode(s, Utf8Encoding) == Encode(s, Utf8Encoding);
  }

  /** A shorthand whose suffix has no flow indicator, or a verbatim tag. */
  predicate Unmarred(g: TagData) {
    g.handle.Some? && g.suffix.Some? ==> Clean(TextOf(g.suffix.value), false) == |g.suffix.value|
  }

  /** The scanner reads a written tag back, with its escapes undone, exactly if it is verbatim or
      its suffix has no comma and no bracket. */
  lemma TagReads(g: TagData, rest: Text, inFlow: bool)
    requires HasValidHandle(g) && g.suffix.Some? && g.suffix.value != "" && EndsTag(rest, inFlow)
    ensures
      ScanTag(TagBody(g) + rest, inFlow)
      == ScannedTag(TextOf(HandleOf(g)), Encode(TextOf(SuffixOf(g)), Utf8Encoding), rest)
      <==> Unmarred(g)
  {
    hide ContentText, ScanTag, Encode, EndsTag, Clean;
    var s := TextOf(g.suffix.value);
    if g.handle.None? {
      assert TagBody(g) + rest == [BANG, LESS] + (ContentText(s) + ([GREATER] + rest));
      assert TextOf("") == [];
      VerbatimReads(s, rest, inFlow);
    } else {
      var h := TextOf(g.handle.value);
      Assoc(h, ContentText(s), rest);
      if |h| == 1 {
        assert h == [BANG];
        BangReads(s, rest, inFlow);
      } else {
        NamedReads(h, s, rest, inFlow);
      }
    }
  }

  /** Whatever the directives are, a tag that the emitter shortens and writes is scanned and
      expanded to itself, unless its shorthand suffix has a comma or a bracket. */
  lemma TagComesBack(tag: string, directives: seq<TagDirective>, rest: Text, inFlow: bool)
    requires tag != "" && Parser.DistinctHandles(directives) && ValidHandles(directives) && EndsTag(rest, inFlow)
    ensures
      var g := Shorten(tag, directives);
      && Parser.ResolveTag(directives, HandleOf(g), SuffixOf(g)) == Some(tag)
      && (ScanTag(TagBody(g) + rest, inFlow)
          == ScannedTag(TextOf(HandleOf(g)), Encode(TextOf(SuffixOf(g)), Utf8Encoding), rest)
          <==> Unmarred(g))
  {
    hide ScanTag, Encode, EndsTag, Unmarred, Shorten, Parser.ResolveTag, TagBody;
    ShortenResolves(tag, directives);
    TagReads(Shorten(tag, directives), rest, inFlow);
  }

  // ---- The %TAG directive ----

  /** The value of a %TAG directive: a handle and a prefix. */
  function ScanTagDirective(t: Text): ScannedTag {
    var start := BlockScanner.SkipBlanks(t);
    if Look(start, 0) != BANG then BadTag
    else
      var n := HandleLength(start);
      var h := start[..n];
      if !(LooksLikeHandle(h) || h == [BANG]) || !IsBlank(Look(start, n)) then BadTag
      else
        var uri := ScanUri(BlockScanner.SkipBlanks(start[n..]), true, [], 0);
        if uri.BadUri? || !IsBlankZ(Look(uri.rest, 0)) then BadTag else ScannedTag(h, uri.bytes, uri.rest)
  }

  /** A directive that the emitter writes is read back, whatever its prefix. */
  lemma DirectiveComesBack(d: TagDirective, rest: Text)
    requires IsHandle(d.handle) && d.prefix != "" && IsBlankZ(Look(rest, 0))
    ensures
      ScanTagDirective([SPACE] + (TextOf(d.handle) + ([SPACE] + (ContentText(TextOf(d.prefix)) + rest))))
      == ScannedTag(TextOf(d.handle), Encode(TextOf(d.prefix), Utf8Encoding), rest)
  {
    hide ContentText, ScanUri, Encode, IsAlpha, HandleLength;
    var h, s := TextOf(d.handle), TextOf(d.prefix);
    var content := ContentText(s) + rest;
    var start := h + ([SPACE] + content);
    assert ([SPACE] + start)[1..] == start && ([SPACE] + content)[1..] == content;
    PrefixStarts(s, rest);
    if |h| > 1 {
      HandleReads(h, [SPACE] + content);
    } else {
      assert h == [BANG];
      SpaceEndsHandle(content);
      assert start[..1] == h && start[1..] == [SPACE] + content;
    }
    assert BlockScanner.SkipBlanks(start) == start && BlockScanner.SkipBlanks(content) == content;
    assert BlockScanner.SkipBlanks([SPACE] + start) == start && BlockScanner.SkipBlanks([SPACE] + content) == content;
    assert start[..|h|] == h && start[|h|..] == [SPACE] + content && Look(start, |h|) == SPACE;
    BlankIsNoUri(rest);
    UriReads(s, true, [], 0, rest);
    Rest(s, |s|, rest);
    assert [] + Encode(s, Utf8Encoding) == Encode(s, Utf8Encoding);
  }

  lemma BlankIsNoUri(rest: Text)
    requires IsBlankZ(Look(rest, 0))
    ensures EndsUri(rest, true)
  {
  }

  lemma SpaceEndsHandle(content: Text)
    ensures HandleLength([BANG] + ([SPACE] + content)) == 1
  {
    assert ([BANG] + ([SPACE] + content))[1..] == [SPACE] + content;
  }

  lemma PrefixStarts(s: Text, rest: Text)
    requires InRange(s) && s != []
    ensures var t := ContentText(s) + rest; t != [] && !IsBlank(t[0])
  {
    if !IsWrittenAsIs(s[0]) {
      CharacterReads(s[0], ContentText(s[1..]) + rest);
      Assoc(PieceText(s[0]), ContentText(s[1..]), rest);
    }
  }
}
