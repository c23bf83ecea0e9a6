# libyaml, modelled and proved in Dafny

libyaml reads YAML as a pipeline, bytes to characters (reader), characters to tokens (scanner),
tokens to events (parser), events to a node graph (loader), and writes it by the way back: graph
to events (dumper), events to text (emitter), text to bytes (writer). This project models the
stateful core of each stage and proves what the stages promise each other: that one undoes the
other, that chunking, look-ahead and buffering make no difference, that the state machines read
and accept exactly what their grammars say, and that their stacks never underflow.

Where the code is a loop or an object that changes in place, the model is a method or a class with
the same branches, proved against a function on values; the laws are lemmas about those functions.

| module | what it holds |
|---|---|
| `Events`, `Nesting` | events, and well nested event sequences as an automaton and as a grammar of trees |
| `Parser`, `Grammar`, `Printing` | the parser's state machine, the productions it follows, and the event streams it can make |
| `Documents`, `Dumper`, `DumpProperties` | node graphs, the depth-first walk, the two passes of the dumper |
| `Loader`, `RoundTrip`, `LoadedGraphs` | the composer, loading after dumping, the graphs that loading gives |
| `Characters`, `Layout`, `Folding`, `Dispatch` | character classes, columns and indentation, and how the scanner tells scalars apart |
| `FlowScanner`, `PlainScanner`, `BlockScanner` | the scalar scanners |
| `DoubleQuoted`, `SpacedScalars`, `SingleQuoted`, `PlainScalars`, `LiteralScalars`, `FoldedScalars` | the scalar writers and their round trips |
| `ScalarStyles` | the analysis of a value, the choice of a style, and that it is sound |
| `Tags` | shortening, escaping, scanning and resolving tags |
| `Tokens`, `TokenQueue`, `Alignment`, `TokenScanner` | simple keys and indentation levels in the token queue |
| `Encodings`, `Reader`, `OutputBuffer` | UTF-8 and UTF-16, chunked reading, buffered writing |
| `EmitterStates`, `EmittedNodes`, `Pages`, `Emitter`, `SimpleKeys` | the emitter's transitions, the text of each event, look-ahead, and simple keys |
| `Continuations`, `EmittedText` | whole runs of the emitter: every scalar is read back from the text, and the text from its bytes |
| `Buffers` | the growable queue, stack and string buffer |

Text is a sequence of code points; strings of events are Dafny strings, whose characters are
Unicode scalar values. Marks carry index, line and column where the scanner compares them.
`dafny verify dfyconfig.toml` checks the whole project.

Two places where a natural statement is false are kept as the code has them. Folding does not
check whether a line begins with a blank, so `FoldedScalars.FoldedComesBack` gives the exact
condition and `Continuations.FoldedMayBeLost` a value that is lost. The writer masks the second
surrogate with 0xFF, so `Encodings.Utf16Reads` tells exactly which characters survive its recoding
and `Encodings.LostCharacter` shows one that does not; the emitter escapes all of these, so that
`EmittedText.EmittedTextComesBack` holds for all it writes. The grammar
in the comment at the head of `parser.c` admits more than the code: a VALUE without a KEY in a
block mapping is an error, and an empty key of a single pair consumes the token behind it. The
productions in `Grammar` follow the code.

## Model

| member | source | states |
|---|---|---|
| `Nesting.DocumentIsOneTree` | original/src/parser.c:3-40 | Events complete a document for the push-down automaton exactly if they are the events of one tree of nodes, in which every mapping has an even number of children. |
| `Nesting.TreeRuns` | original/src/parser.c:3-40 | Grammar to automaton: the events of a tree are admitted wherever a node is awaited and count as one child. |
| `Nesting.TreeOf` | original/src/parser.c:3-40 | Automaton to grammar: content that leaves nothing of a node open starts with the events of one tree. |
| `Grammar.ParseStream` | original/src/parser.c:170-304 | For every token sequence the run ends; its events are exactly those that recursive descent over the productions reads, it fails exactly where the productions are broken, the events are a prefix of a well nested stream and a complete one exactly if nothing failed, and they hold exactly the anchors, aliases and scalars of the tokens consumed. |
| `Grammar.StreamReads` | original/src/parser.c:226-304 | The machine with 24 states and a return-state stack, started on any tokens, makes the events of the recursive reading and then stands behind the same token, or is stuck. |
| `Grammar.RestReads` | original/src/parser.c:726-1199 | From each of the fifteen states inside a collection the machine reads what the production for the rest of that collection reads, and comes back to the enclosing state. |
| `Grammar.NodeReads` | original/src/parser.c:529-717 | The same for one node with its properties, whichever collection it opens. |
| `Grammar.OneEnd` | original/src/parser.c:226-304 | The machine can come to only one end, so the reading determines the run. |
| `Printing.ParserRange` | original/src/parser.c:170-1199 | Exactly which complete event streams the parser can make: those of documents whose flags follow from the tags, with no block collection in a flow one and only the first document without a start. |
| `Printing.PrintedIsRead` | original/src/parser.c:3-40 | Each such stream is the reading of tokens that are given for it: reading undoes printing. |
| `Printing.NodePrinted` | original/src/parser.c:529-717 | The tokens of a tree, followed by a token that cannot belong to it, read as the events of that tree, in block and flow context. |
| `Printing.DocumentsAreParsed` | original/src/parser.c:342-497 | Every complete reading is the events of such documents. |
| `Parser.Parser.Parse` | original/src/parser.c:170-189 | One step keeps the invariant of the stacks, makes an event that is in place, consumes a token or lowers the rank, loses and invents no anchor, alias or scalar, and is the step that the state and the tokens call for. |
| `Parser.Parser.ParseStreamStart` | original/src/parser.c:313-331 | STREAM-START, and failure without it. |
| `Parser.Parser.ParseDocumentStart` | original/src/parser.c:342-431 | The step at the start of a document: extra DOCUMENT-END tokens, a bare document, directives, the end of the stream, and each failure. |
| `Parser.Parser.ParseDocumentContent` | original/src/parser.c:440-459 | The root of a document, or an empty scalar in its place. |
| `Parser.Parser.ParseDocumentEnd` | original/src/parser.c:470-497 | The end of a document drops all tag directives. |
| `Parser.Parser.ParseNode` | original/src/parser.c:529-717 | A node carries the anchor, the resolved tag and the flags that its properties give; the machine returns to the state on top of the stack or enters the collection, whose start token stays at the head. |
| `Parser.Parser.ParseBlockSequenceEntry` | original/src/parser.c:726-775 | Entries and the end of a block sequence, empty entries included. |
| `Parser.Parser.ParseIndentlessSequenceEntry` | original/src/parser.c:784-819 | Entries of a sequence without its own start, which ends without consuming a token. |
| `Parser.Parser.ParseBlockMappingKey` | original/src/parser.c:834-884 | Keys of a block mapping; a VALUE without a KEY is an error. |
| `Parser.Parser.ParseBlockMappingValue` | original/src/parser.c:899-932 | Values of a block mapping, empty ones included. |
| `Parser.Parser.ParseFlowSequenceEntry` | original/src/parser.c:949-1001 | Entries of a flow sequence, and single pairs, which open a mapping without a state of their own for the sequence. |
| `Parser.Parser.ParseFlowSequenceEntryMappingKey` | original/src/parser.c:1010-1031 | The key of a single pair; an empty key consumes the token behind it, whichever it is. |
| `Parser.Parser.ParseFlowSequenceEntryMappingValue` | original/src/parser.c:1040-1062 | The value of a single pair. |
| `Parser.Parser.ParseFlowSequenceEntryMappingEnd` | original/src/parser.c:1071-1083 | The end of a single pair consumes nothing. |
| `Parser.Parser.ParseFlowMappingKey` | original/src/parser.c:1100-1161 | Keys of a flow mapping, and nodes without KEY, whose value is empty. |
| `Parser.Parser.ParseFlowMappingValue` | original/src/parser.c:1170-1199 | Values of a flow mapping. |
| `Parser.Parser.ProcessDirectives` | original/src/parser.c:1229-1335 | Succeeds exactly on directives with at most one known version and distinct handles; gives those between the two tokens, and installs them with the defaults. |
| `Parser.Parser.AppendTagDirective` | original/src/parser.c:1342-1374 | A handle is declared once; a second declaration fails unless duplicates are allowed, and then changes nothing. |
| `Parser.ResolveTag` | original/src/parser.c:594-629 | A tag cannot be resolved exactly if it has a handle that is not declared. |
| `Documents.WalkVisitsReachable` | original/src/dumper.c:207-294 | The depth-first walk ends on every graph, cyclic ones included, and visits exactly the nodes that can be reached from the root, each once. |
| `DumpProperties.PassesAgree` | original/src/dumper.c:207-294 | The two passes agree on every graph: the alias events are just the visits counted beyond the first, in their order, so that each node with an anchor has as many aliases as further references; every alias names an anchor that an earlier node event carries, an anchor stands on a node event exactly if an alias names it, and no two node events share one. |
| `Dumper.AnchorNamesDiffer` | original/src/dumper.c:248-257 | The names made from different anchor numbers differ, also beyond three digits. |
| `Dumper.Dumper.AnchorNode` | original/src/dumper.c:207-238 | After the first pass below a node the reference counts and anchors are those of the walk. |
| `Dumper.Dumper.DumpNode` | original/src/dumper.c:264-309 | Emits the events of the walk below the node and marks what was serialized. |
| `Dumper.Dumper.DumpChildren` | original/src/dumper.c:339-393 | Emits the items, or keys and values, in order. |
| `Dumper.Dumper.DumpNodes` | original/src/dumper.c:112-160 | Both passes together emit the events of the node graph. |
| `Dumper.Dumper.Dump` | original/src/dumper.c:112-160 | Emits a document, with STREAM-START before the first one; an empty document closes the stream once. |
| `Loader.LoadNodes` | original/src/loader.c:217-257 | The loop over the events of a document is the fold of the single steps, failures included. |
| `Loader.Loader.RegisterAnchor` | original/src/loader.c:264-292 | An anchor is registered once; a duplicate fails. |
| `Loader.Loader.AddNode` | original/src/loader.c:299-344 | A child is added to its parent: to the items, as a new key, or as the value of the last key. |
| `Loader.Loader.LoadAlias` | original/src/loader.c:351-368 | An alias adds the node that carries the anchor, and fails if there is none. |
| `Loader.Loader.LoadBegin` | original/src/loader.c:375-408 | A node gets its number, its tag and its anchor, and becomes a child of its parent. |
| `Loader.Loader.LoadCollection` | original/src/loader.c:415-527 | A collection becomes the context of what follows. |
| `Loader.Loader.LoadEnd` | original/src/loader.c:462-544 | The end of a collection leaves its context, which must be of its kind. |
| `Loader.Loader.LoadEvent` | original/src/loader.c:217-257 | Dispatch of one event. |
| `RoundTrip.LoadAfterDump` | original/src/dumper.c:206-393 | Loading the dump of any document with ids in range gives the subgraph that can be reached from the root, numbered in the order of first visits, with sharing and cycles kept; a tag is the same exactly if it is not the non-specific tag "!". |
| `LoadedGraphs.LoadedDocument` | original/src/loader.c:217-544 | Every complete document loads without reaching a case that could not happen, and it loads exactly if no two node events carry the same anchor and every alias names one that an earlier node event carries; then all ids are in range, no key is without its value, every node can be reached from the root, nodes are numbered as the walk visits them, and anchors are unique. |
| `LoadedGraphs.LoadedComesBack` | original/src/loader.c:216-544 | A node array that the loader built comes back identical from dumping and loading. |
| `Characters.ChecksAgree` | original/src/yaml_private.h:252-373 | The checks for printable characters and line breaks on UTF-8 bytes agree with those on code points, for every Unicode scalar value. |
| `Layout.Writer.WriteIndent` | original/src/emitter.c:1788-1805 | Writes the break and the spaces that lead to the indentation, and stands there. |
| `Layout.Writer.WriteIndicator` | original/src/emitter.c:1808-1830 | Writes the separating space if asked for and needed, and the indicator; tracks white space, indentation and column. |
| `Layout.Writer.PutBreak` | original/src/emitter.c:26-37 | Writes the chosen line break and returns to column 0. |
| `Layout.Writer.WriteBreak` | original/src/emitter.c:53-62 | A line feed of a value becomes the chosen line break, other breaks stay. |
| `FlowScanner.ScanFlowScalar` | original/src/scanner.c:3025-3391 | The scanning loop for quoted scalars gives what line by line reading with unfolding and escapes gives, or fails with it. |
| `DoubleQuoted.WriteDoubleQuoted` | original/src/emitter.c:2051-2204 | The writing loop appends the escaped and folded text of the value. |
| `DoubleQuoted.EscapeComesBack` | original/src/emitter.c:2088-2170 | Reading an escape undoes writing it, for every Unicode scalar value and whatever follows. |
| `DoubleQuoted.DoubleQuotedComesBack` | original/src/emitter.c:2051-2204 | For every sequence of Unicode scalar values and every column, width, indentation, line break and character set, scanning the written text gives the value back and stops behind the closing quote. |
| `SpacedScalars.WriteSingleQuoted` | original/src/emitter.c:1985-2048 | The writing loop appends the folded text with doubled quotes. |
| `SpacedScalars.WritePlain` | original/src/emitter.c:1919-1982 | The writing loop appends the folded text of a plain scalar. |
| `SingleQuoted.SingleQuotedComesBack` | original/src/emitter.c:1985-2048 | Every value that may be single-quoted is scanned back exactly, breaks of all kinds included. |
| `PlainScanner.ScanPlainScalar` | original/src/scanner.c:3398-3598 | The scanning loop for plain scalars gives what the line by line reading gives. |
| `PlainScalars.PlainComesBack` | original/src/emitter.c:1919-1982 | Every non-empty value that may be plain in its context is dispatched to the plain scanner and scanned back exactly, if what follows ends a plain scalar. |
| `PlainScalars.StopsAtNewLine` | original/src/scanner.c:3568-3572 | A new line that is indented less, a document indicator, the end, or the colon of a complex key ends one. |
| `BlockScanner.ScanBlockScalar` | original/src/scanner.c:2741-2955 | The scanning loop for literal and folded scalars, with header, chomping, detected indentation and line joining, gives what the line by line reading gives. |
| `BlockScanner.ScanBlockBreaks` | original/src/scanner.c:2963-3018 | Passing over breaks and indentation, and detecting it, is the corresponding part of that reading. |
| `LiteralScalars.WriteLiteral` | original/src/emitter.c:2265-2301 | The writing loop appends indicator, hints and indented lines; tells whether the document is left open. |
| `LiteralScalars.WriteHints` | original/src/emitter.c:2207-2262 | Writes the indentation and chomping hints the value needs. |
| `LiteralScalars.LiteralComesBack` | original/src/emitter.c:2265-2301 | Every value that may be a block scalar is dispatched and scanned back with all its breaks, by way of the hints. |
| `FoldedScalars.WriteFolded` | original/src/emitter.c:2304-2358 | The writing loop appends the folded text. |
| `FoldedScalars.FoldedComesBack` | original/src/emitter.c:2304-2358 | A folded scalar is scanned back exactly if the emitter folded no line that begins with a blank. |
| `FoldedScalars.PlainLinesAreFaithful` | original/src/emitter.c:2344-2348 | That holds for every value none of whose lines begins with a blank. |
| `ScalarStyles.AnalyzeScalar` | original/src/emitter.c:1501-1694 | One pass over the value finds exactly whether it may be plain in flow and in block context, single-quoted, a block scalar, and whether it has line breaks, in terms of properties of the whole value. |
| `ScalarStyles.ChoiceIsAllowed` | original/src/emitter.c:1198-1253 | The chosen style is one the analysis allows where the scalar stands; it fails exactly without tag and flags; plain only if the tag will resolve as wanted. |
| `ScalarStyles.ProcessScalar` | original/src/emitter.c:1313-1345 | Writes the text of the chosen style and notes whether the document is left open. |
| `ScalarStyles.StyleChoiceIsSound` | original/src/emitter.c:1198-1253 | Whatever style is chosen, the text it is written in, followed by any text that may stand behind that style, is dispatched and scanned back as the same value; in the folded style exactly if no line that begins with a blank was folded. `Continuations` shows that a run writes no other text there. |
| `Continuations.ScalarsComeBack` | original/src/emitter.c:987-1054 | In every run of the emitter, from the text at any later point of the run, each scalar that is not an empty plain one is dispatched and scanned back at the column where it stands, with the indentation of the collection that holds it; in the folded style exactly if no line that begins with a blank was folded. |
| `Continuations.ScalarContinues` | original/src/emitter.c:746-980 | Whatever events follow, the text that a run writes behind a scalar is one that its style allows: a colon and a separation behind a simple key, an indicator in a flow collection, a line that is not indented deeper in a block collection, a document mark outside. |
| `Continuations.BlockItemsAligned` | original/src/emitter.c:883-980 | In every run each item, complex key and complex value of a block collection is marked at the column of its collection, and each simple key begins there. |
| `Continuations.RunSettles` | original/src/emitter.c:1061-1191 | In every run a simple key that is a collection is an empty one, which ends with the next event, and a collection that is written as a block is not empty. |
| `Continuations.FoldedMayBeLost` | original/src/emitter.c:2344-2348 | A value that is lost with a layout the emitter accepts: the folded style is chosen and the scanner does not read the value back. |
| `Tags.AnalyzeTag` | original/src/emitter.c:1458-1494 | Fails exactly on the empty tag; otherwise takes the first directive whose prefix is a proper prefix. |
| `Tags.ShortenResolves` | original/src/emitter.c:1458-1494 | Resolving what was chosen gives the tag back, for any directives with distinct handles. |
| `Tags.WriteTagContent` | original/src/emitter.c:1871-1916 | Writes a tag with its octets percent-encoded where needed. |
| `Tags.ProcessTag` | original/src/emitter.c:1278-1306 | Writes a shorthand, a verbatim tag, or a handle alone. |
| `Tags.ScanUriEscapes` | original/src/scanner.c:2672-2734 | Reads the escaped octets of one UTF-8 character, or fails. |
| `Tags.ScanTagUri` | original/src/scanner.c:2571-2665 | The loop over a URI gives the recursive reading of it. |
| `Tags.ScanTagHandle` | original/src/scanner.c:2504-2564 | Finds the length of a handle, or of what begins like one. |
| `Tags.ScanTagToken` | original/src/scanner.c:2387-2497 | Scans verbatim tags, shorthands and the tag "!", and what must follow them. |
| `Tags.UriReads` | original/src/scanner.c:2571-2665 | Scanning undoes the percent-encoding up to the first character that may not stand in the URI. |
| `Tags.TagReads` | original/src/emitter.c:1871-1916 | A written tag is scanned back exactly if it is verbatim or its suffix has no comma and no bracket. |
| `Tags.TagComesBack` | original/src/parser.c:594-629 | Shortening, writing, scanning and resolving together give the tag back under the same condition. |
| `Tags.BangReads` | original/src/scanner.c:2432-2470 | The handle "!" with a suffix, and the tag "!" alone. |
| `Tags.DirectiveComesBack` | original/src/scanner.c:2257-2318 | A %TAG directive that the emitter writes is scanned back, whatever its prefix. |
| `TokenScanner.ScanStream` | original/src/scanner.c:743-854 | For every sequence of lexemes the tokens handed over are those of a scan that hands over nothing before all is known, and the run fails exactly if that does; the tokens of the text keep their order, every added KEY stands directly before its key, every block entry and key of a block mapping stands at the column of the innermost open block collection, no prefix closes more blocks than it opens, and at flow level 0 all are closed. |
| `TokenQueue.KeptFetches` | original/src/scanner.c:825-838 | That stale keys are looked for early, while the queue is drained, makes no difference to any later token or error. |
| `TokenQueue.KeyFoundFits` | original/src/scanner.c:1697-1717 | Putting KEY, and BLOCK-MAPPING-START if needed, into the queue keeps all invariants and the order of the tokens of the text. |
| `TokenQueue.KeyInReach` | original/src/scanner.c:1057-1090 | A key that is still possible begins at a token that is still in the queue, on the same line and within 1024 characters. |
| `TokenQueue.Drain` | original/src/scanner.c:815-846 | The head may be handed over when no possible key begins there. |
| `Tokens.OwnInsert` | original/src/yaml_private.h:483-493 | An inserted token changes the order of no other token. |
| `Tokens.OpenInsertStart` | original/src/scanner.c:1206-1249 | A block start that is inserted where only other tokens follow opens the innermost collection. |
| `Tokens.OpenPrefix` | original/src/scanner.c:1259-1285 | No prefix of balanced tokens has more ends than starts. |
| `Alignment.FetchedTidy` | original/src/scanner.c:861-1049 | Every fetched token keeps block entries and keys of block mappings at the column of their collection, also through later insertions. |
| `Alignment.BottomKeyAligned` | original/src/scanner.c:1697-1717 | The KEY of a simple key in a block stands at the column where its mapping begins. |
| `TokenScanner.Scanner.StaleKeys` | original/src/scanner.c:1057-1090 | Drops exactly the stale keys; fails exactly if one of them is required. |
| `TokenScanner.Scanner.SaveKey` | original/src/scanner.c:1098-1128 | Notes a possible key at the next token where one is allowed. |
| `TokenScanner.Scanner.RemoveKey` | original/src/scanner.c:1135-1155 | Drops the key of the current level; fails exactly if it is required. |
| `TokenScanner.Scanner.RollIndent` | original/src/scanner.c:1206-1249 | Opens a block collection exactly at a deeper column outside flow collections; levels stay strictly rising from -1 and are the columns of the open collections. |
| `TokenScanner.Scanner.UnrollIndent` | original/src/scanner.c:1259-1285 | Closes the collections that are deeper; does nothing in flow context. |
| `TokenScanner.Scanner.FetchStreamStart` | original/src/scanner.c:1292-1323 | Sets up the levels and the first token. |
| `TokenScanner.Scanner.FetchStreamEnd` | original/src/scanner.c:1330-1361 | Moves to a new line, closes all blocks outside flow collections, drops the last key. |
| `TokenScanner.Scanner.FetchOutermost` | original/src/scanner.c:1368-1442 | Directives and document indicators close all blocks. |
| `TokenScanner.Scanner.FetchFlowStart` | original/src/scanner.c:1449-1485 | May begin a key, and opens a level of its own for keys. |
| `TokenScanner.Scanner.FetchFlowEnd` | original/src/scanner.c:1492-1528 | Leaves the level; at level 0 nothing is popped. |
| `TokenScanner.Scanner.FetchAfterKey` | original/src/scanner.c:1535-1563 | A flow entry ends a possible key. |
| `TokenScanner.Scanner.FetchBlockIndicator` | original/src/scanner.c:1570-1677 | A block entry or complex key opens its collection; fails exactly where it is not allowed. |
| `TokenScanner.Scanner.FetchValue` | original/src/scanner.c:1684-1759 | A possible key gets its KEY before its first token, on the same line and within 1024 characters; without one a complex value opens its mapping where that is allowed. |
| `TokenScanner.Scanner.FetchKeyToken` | original/src/scanner.c:1766-1913 | Anchors, aliases, tags and scalars may begin a key. |
| `TokenScanner.Scanner.FetchNextToken` | original/src/scanner.c:861-1049 | Drops stale keys, closes deeper blocks and dispatches. |
| `TokenScanner.Scanner.FetchMoreTokens` | original/src/scanner.c:801-854 | Fetches until no possible key begins at the head of the queue. |
| `TokenScanner.Scanner.Scan` | original/src/scanner.c:743-776 | Hands over the head; the last token is the end of the stream. |
| `Encodings.Utf8Inverse` | original/src/reader.c:208-296 | A character decoded from UTF-8 has exactly the bytes it came from. |
| `Encodings.Utf8Forward` | original/src/reader.c:208-296 | Decoding undoes encoding for every character the reader allows. |
| `Encodings.Utf16Reads` | original/src/writer.c:67-124 | A character written in UTF-16 is read back if it is below 0x10000 or bits 10 to 15 of its offset are zero, and is rejected as a bad low surrogate otherwise, in both byte orders. |
| `Encodings.WrittenTextReads` | original/src/writer.c:67-124 | A written text is read up to the first lost character, where the error and its offset are known. |
| `Encodings.WrittenTextComesBack` | original/src/writer.c:67-124 | Writing and reading is the identity exactly on texts without lost characters. |
| `Encodings.OutputComesBack` | original/src/emitter.c:1776-1785 | Any text, with the byte order mark that UTF-16 output begins with, is detected and read back exactly if UTF-16 loses no character of it and it does not begin with a mark in UTF-8; there the reader drops that first mark and gives the rest. |
| `Encodings.LostCharacter` | original/src/writer.c:114-121 | A character that UTF-16 loses, with the error that the reader reports. |
| `EmittedText.EmittedTextComesBack` | original/src/writer.c:32-140 | Emitter, writer and reader together: in every run all characters are printable, below 0x10000 and no byte order mark, in ASCII if so told, and the reader gets the text back from its bytes in every encoding. |
| `Encodings.Utf8InputIsKept` | original/src/reader.c:208-296 | UTF-8 input comes back byte for byte. |
| `Reader.ReadAll` | original/src/reader.c:142-469 | However a read handler splits the input, and however many characters up to eight the scanner asks for each time, the characters are those of the input decoded as a whole; if there is a problem, it and its offset are too, and the characters before it are exactly those handed over and those left in the buffer. |
| `Reader.Reader.DetermineEncoding` | original/src/reader.c:51-87 | Three bytes settle the encoding; the mark is dropped. |
| `Reader.Reader.UpdateRaw` | original/src/reader.c:94-132 | Takes over any number of bytes without losing or changing any. |
| `Reader.Reader.UpdateBuffer` | original/src/reader.c:142-469 | Provides the characters asked for or the end; `unread` counts the buffered characters, one NUL is appended at the end, and the buffer never exceeds its size. |
| `Reader.Reader.DecodeRaw` | original/src/reader.c:182-461 | Decodes as far as the raw bytes go; on failure the problem and offset are those of the whole input. |
| `OutputBuffer.FlushPointsDoNotMatter` | original/src/writer.c:32-140 | The chunks given to the handler and the pending buffer together are the recoding of all that was written, and chunks end on character boundaries. |
| `OutputBuffer.RawFits` | original/src/yaml_private.h:45-67 | Recoding to UTF-16 at most doubles the bytes, so the raw buffer suffices. |
| `OutputBuffer.Output.Flush` | original/src/writer.c:32-140 | Hands the buffer over without changing the logical output. |
| `OutputBuffer.Output.Recode` | original/src/writer.c:67-124 | The recoding loop gives the encoding of the pending text and fits the raw buffer. |
| `OutputBuffer.Output.Put` | original/src/emitter.c:8-20 | Appends one character, flushing first where little room is left. |
| `EmitterStates.NextNests` | original/src/emitter.c:424-1102 | The emitter accepts an event exactly if its anchor, tag or directives can be written and it is well nested; the stacks then fit the new nesting, the flow level counts the flow collections, and no block collection is opened in a flow one. |
| `EmitterStates.FlatNesting` | original/src/emitter.c:552-738 | Outside documents all stacks are empty and the indentation is -1. |
| `EmitterStates.EntersFits` | original/src/emitter.c:403-417 | Entering a collection keeps the stacks and indentation levels fit. |
| `EmitterStates.LeavesFits` | original/src/emitter.c:746-955 | Leaving one never pops an empty stack and restores the enclosing level. |
| `Emitter.EmitStream` | original/src/emitter.c:281-297 | For every event sequence the emitter processes events once and in order by the steps that the whole remaining sequence calls for, holds at most three back, writes the text those steps give, stops exactly at the first event that cannot be written or is out of place, and accepts every complete well nested stream. |
| `Emitter.LookAheadSuffices` | original/src/emitter.c:309-357 | What the step decides and writes with the queue in view is what it decides and writes with all later events in view. |
| `Emitter.NoWaitSuffices` | original/src/emitter.c:309-357 | A queue that need not wait shows whether its head is an empty collection. |
| `Emitter.CompleteDoesNotWait` | original/src/emitter.c:309-357 | At the end of a complete stream nothing is held back. |
| `Emitter.HistoryNests` | original/src/emitter.c:424-488 | After every step the stacks fit the nesting of the events so far. |
| `Emitter.Emitter.NeedMoreEvents` | original/src/emitter.c:309-357 | Waits exactly if the queue is short and shows no complete head. |
| `Emitter.Emitter.Emit` | original/src/emitter.c:281-297 | Takes an event and processes all that need not wait. |
| `Emitter.Emitter.StateMachine` | original/src/emitter.c:424-488 | Each step changes the configuration and the text as the transitions say, or fails exactly where they do. |
| `Emitter.Emitter.EmitStreamStart` | original/src/emitter.c:495-545 | Settles indentation and width. |
| `Emitter.Emitter.EmitDocumentStart` | original/src/emitter.c:552-684 | Directives, the document start where it is needed, and the end of the stream. |
| `Emitter.Emitter.EmitDocumentContent` | original/src/emitter.c:691-698 | The root node. |
| `Emitter.Emitter.EmitDocumentEnd` | original/src/emitter.c:705-738 | The document end mark, and whether the document is left open. |
| `Emitter.Emitter.EmitFlowSequenceItem` | original/src/emitter.c:746-788 | Brackets, commas and items. |
| `Emitter.Emitter.EmitFlowMappingKey` | original/src/emitter.c:795-851 | Braces, commas, simple and complex keys. |
| `Emitter.Emitter.EmitFlowMappingValue` | original/src/emitter.c:858-876 | Colons and values. |
| `Emitter.Emitter.EmitBlockSequenceItem` | original/src/emitter.c:883-910 | Dashes and items, without extra indentation in a mapping. |
| `Emitter.Emitter.EmitBlockMappingKey` | original/src/emitter.c:917-955 | Simple and complex keys. |
| `Emitter.Emitter.EmitBlockMappingValue` | original/src/emitter.c:962-980 | Colons and values. |
| `Emitter.Emitter.EmitNode` | original/src/emitter.c:987-1015 | The text of a node and where it leads. |
| `Emitter.Emitter.EmitAlias` | original/src/emitter.c:1022-1031 | An alias, with a space behind it as a simple key. |
| `Emitter.Emitter.EmitScalar` | original/src/emitter.c:1038-1054 | A scalar in its chosen style; fails exactly if no style is allowed. |
| `Emitter.Emitter.EmitStart` | original/src/emitter.c:1061-1102 | A collection in flow style where it must be: in flow context, in canonical form, or if it is empty. |
| `Emitter.Emitter.CheckSimpleKey` | original/src/emitter.c:1147-1191 | Exactly the nodes on one line within the budget of 128 bytes, empty collections included. |
| `Emitter.Emitter.SelectScalarStyle` | original/src/emitter.c:1198-1253 | The choice that the analysis of the whole value calls for, and the tag "!" that it may add. |
| `Emitter.Emitter.AnalyzeEvent` | original/src/emitter.c:1701-1769 | Fails exactly on anchors and tags that cannot be written. |
| `Emitter.Emitter.AnalyzeAnchor` | original/src/emitter.c:1422-1451 | Accepts exactly non-empty alphanumeric anchors. |
| `Emitter.Emitter.AnalyzeTagDirective` | original/src/emitter.c:1371-1415 | Accepts exactly directives with a valid handle and a prefix. |
| `Emitter.Emitter.AppendDirectives` | original/src/emitter.c:570-584 | Installs directives with distinct handles and the defaults, or fails. |
| `Emitter.Emitter.IncreaseIndent` | original/src/emitter.c:403-417 | Pushes the indentation and goes deeper. |
| `EmittedNodes.ProcessAnchor` | original/src/emitter.c:1260-1271 | Writes an anchor or an alias. |
| `SimpleKeys.SimpleKeyIsShort` | original/src/emitter.c:1147-1191 | Whatever is written as a simple key stays on one line and has at most 4 * 128 + 15 characters, after worst-case escaping. |
| `Continuations.RunKeysStayLive` | original/src/scanner.c:1057-1090 | In every run a node that is taken for a simple key is written whole with the colon directly behind it, and the scanner, wherever in the key it noted it, has not dropped it when it comes to that colon. |
| `Buffers.RunQueue` | original/src/yaml_private.h:471-493 | After any mix of operations the array queue holds what a sequence would. |
| `Buffers.RunStrings` | original/src/yaml_private.h:145-164 | After any mix of appending, joining and clearing, a string and the white space beside it hold what sequences would, with nothing but zeros behind their ends. |
| `Buffers.Queue.Extend` | original/src/api.c:142-169 | Growing or moving down keeps the contents and leaves a free slot. |
| `Buffers.Queue.Enqueue` | original/src/yaml_private.h:471-478 | Appends. |
| `Buffers.Queue.Dequeue` | original/src/yaml_private.h:480-481 | Takes the first element. |
| `Buffers.Queue.Insert` | original/src/yaml_private.h:483-493 | Inserts before any position, also when the array is full. |
| `Buffers.Stack.Push` | original/src/api.c:119-135 | Pushes, doubling the array; refuses exactly when it is full and as big as half the greatest integer. |
| `Buffers.Stack.Pop` | original/src/yaml_private.h:453-454 | Undoes a push. |
| `Buffers.StringBuffer.Extend` | original/src/api.c:74-88 | Doubles the buffer and keeps the zeroed tail. |
| `Buffers.StringBuffer.Append` | original/src/yaml_private.h:397-417 | Appends the octets of a character; at least one zero stays behind the pointer. |
| `Buffers.StringBuffer.Join` | original/src/api.c:95-112 | Appends another string and empties it. |
| `Buffers.StringBuffer.Clear` | original/src/yaml_private.h:153-155 | Empties and zeroes the buffer. |

## Left out

- Allocation failure, freeing and ownership: allocation is taken to succeed.
- File and callback handlers, the foreign function boundary of the Rust port, and structure layouts. A read handler is any way of splitting the input; one that fails is not modelled.
- Error messages and problem marks, except the kind and offset of reader errors. Behaviour after an error.
- The scanner from text to lexemes as a whole: `TokenScanner` starts from lexemes with their marks, and the scalar and tag scanners from the text of one token. Skipping blanks and comments, %YAML version numbers and anchors are not scanned.
- Parsing back the whole text of the emitter as one sequence of tokens: every scalar is read back from the text of a whole run, tags and %TAG directives from their own texts, simple keys are shown to be live at their colon, and block items to be aligned.
- Reader.Reader.UpdateBuffer: leaves out the failure on inputs of half the address space or more (`MAX_FILE_SIZE`).
- Loader.Loader.AddNode: leaves out the limit of INT_MAX - 1 items or pairs in a collection, beyond which loading fails.
- Loader.Loader.LoadBegin: leaves out the same limit on the nodes of a document and on open collections.
- ScalarStyles.StyleChoiceIsSound: leaves out the empty plain scalar, for which nothing is written and the parser supplies the empty scalar.
- Emitter.EmitStream: the text is stated for runs that succeed; what a refused event leaves half written is not.
- Emitter.Emitter.EmitStreamStart: leaves out the encoding and the byte order mark, which is part of `Encodings.Output`.
- An alias event without an anchor: the emitter model refuses it, where the C code would dereference NULL. The loader's laws ask that aliases have a name.
- `root_context` and `sequence_context` of the emitter are never read and are left out.
- `yaml_check_utf8` and the functions that build documents and events by hand (`yaml_document_add_*`, `yaml_document_append_*`): short code with easy claims.
- The Rust port repeats the C code; where it returns failure instead of asserting, the asserted cases are shown to be unreachable for complete documents.
