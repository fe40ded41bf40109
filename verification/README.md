# The YAML engine and the node trust protocol

This project models two parts of the repository and proves what they are for.

**The YAML engine** committed under `tmpcache/gomod/gopkg.in/yaml.v3@v3.0.1`: the reader that decodes
UTF-8 and UTF-16 in chunks, the scanner's scalars and its token layer, the pushdown parser, the tree
builder and the decoder with aliases and merge keys, and in the other direction the event-driven
emitter with its scalar analysis and writers.

**The node trust protocol** of `services/core-platform`: nonces of signed requests, certificate issue,
rotation, renewal and sweep, issuer activation, the renewal schedule and runtime revisions.

What the source does by assignment is a class here, with the source's fields and loops: each method is
proved to compute a specification function or to keep an invariant, and the theorems are about those
functions, over all inputs and whole runs.

## How the files hang together

| files | what they hold |
|---|---|
| `Options`, `Chars`, `CharacterSets` | missing values; characters, UTF-8 and the byte tests; sets of characters written as texts |
| `Decoding`, `Reader` | the reader: what the input means, and the two sliding buffers that deliver it |
| `ScalarEmitter`, `ScalarScanner`, `TextReading` | analysis, writers and scanners of scalars |
| `ScalarSpellings`, `QuotedSpellings`, `PlainSpellings`, `TagSpellings` | how scalars and tags are spelled and what each spelling means, an account that knows no scanner; and that the scanners read every text so |
| `PlainScalars`, `SingleQuotedScalars`, `DoubleQuotedScalars`, `TagUri`, `ScalarRoundTrip` | printing and scanning undo each other |
| `Tokens`, `Events` | what the scanner hands to the parser; the grammar of event streams and the trees they spell, which knows no parser and no emitter |
| `Parser`, `ParserGrammar`, `ParserTable`, `EventParser` | the productions, their safety and progress, which tokens each state takes, and the object that performs them |
| `TokenTrees`, `TokenReading` | the token grammar and its meaning from the tree's side, which know no parser, and the proofs of which spellings are read as their trees |
| `Graph`, `TreeBuilder` | nodes in the order they are made, and the builder that reads them off the events |
| `EmitterMachine`, `EmitterGrammar`, `EmitterRuns`, `StreamEmitter` | the emitter's states, what it accepts, what a node restores, and the object with its event queue |
| `TreePrinter`, `ScalarInk`, `EmittedInk` | a recursive printer that knows no emitter, and that the emitter prints its text, up to white space |
| `BlockLayout` | where block entries stand in print, and how deep the indentation goes |
| `EmittedScalars`, `EmittedText`, `WhatFollows`, `StreamScalars` | where scalars are printed, what the emitter prints behind them, and that they read back in the text of the stream |
| `Decoder`, `DecodedValues`, `MergeKeys`, `MapKeys`, `NodeDecoder`, `AliasCycles` | decoding, what each kind of node decodes to, the meaning of merge keys, collections and texts as keys, the object with its counters, cycles |
| `TokenQueue`, `SimpleKeys`, `ScanSteps`, `TokenScanner` | the token queue, the simple keys with their index, what a lexeme does to the state, and the object with indentation, flow level and queue |
| `BlockColumns`, `BlockEntries` | laws about the tokens alone: no open block is left behind to the right, and where blocks start and end and entries and their keys stand |
| `ScanKeys` | where simple keys may begin, and which slots hold one |
| `Nonces`, `Issuers`, `Certificates`, `Renewal`, `RuntimeRevisions` | the control plane |

`dafny verify dfyconfig.toml` checks everything.

## Where the code is not what one would expect

Each of these is a consequence of the code as it stands, with the lemma that shows it.

- A plain scalar followed by a blank does not always end there: the scanner reads on over blanks.
  `PlainScalars.PlainRoundTrip` states exactly what must follow.
- `is_bom` (yamlprivateh.go:103-105), used by the double-quoted writer, looks at the start of the value
  whatever the position: a value that begins with a byte order mark is escaped throughout. It still
  reads back (`DoubleQuotedScalars.DoubleQuotedRoundTrip`).
- `open_ended` is set for a literal or folded scalar with the `+` hint, and printing the hint clears it
  again (emitterc.go:1856-1886): such a document is not closed by `...`. It stays set behind a root scalar
  printed plain, for which the emitter does print `...` (`EmitterGrammar.ScalarOpens`,
  `EmittedInk.PlainRootEndsInDots`); the encoder clears the field first (encode.go:69-74).
- The grammar at the head of parserc.go makes KEY optional in a block mapping; the parser does not.
  `: v` is an error (`TokenReading.ValueWithoutKey`), and a block mapping is read as the grammar has it
  exactly when every row has its KEY (`TokenReading.BlockTableExactlyWhen`).
- In a pair without a key in a flow sequence the parser skips the token in front: `[? : v]` is an error
  (`TokenReading.ValueOfMissingKey`), and `TokenReading.KeylessPairExactlyWhen` says what is read.
- Anchors are not forgotten between documents: an alias may stand for a node of an earlier document
  (`TreeBuilder.AliasAcrossDocuments`, `TreeBuilder.Builder.Parse`).
- A merged mapping loses an ordinary key whose text is that of the merge key (`MergeKeys.QuotedMergeKeyIsLost`);
  otherwise decoding is the left-biased union (`MergeKeys.UnionExactlyWhen`).
- A collection used as a key of a merged mapping is looked up in `mergedFields` before it is refused, and
  Go panics for want of a hash, when the map being filled keeps values for keys, that is, when some own key
  of the mapping that merges is not tagged as a string: `{1: x, <<: {? [a] : b}}`
  (`MapKeys.CollectionKeyCrashes`). With string keys the entry is skipped (`MapKeys.CollectionKeyIsSkipped`),
  and other keys become strings (`MapKeys.IntegerKeyBecomesText`).
- A mapping that merges first claims its own keys, decoded as values, so a collection tagged as a string
  panics there although all keys count as strings: `{!!str [a]: b, <<: {}}`
  (`MapKeys.TaggedCollectionCrashes`). `MapKeys.DecodeCrashesExactlyWhen` says for every mapping that merges
  which of the two panics it meets, and when it is an invalid key instead.
- The scanner's index of simple keys loses a key that is still possible: when a flow collection that may be
  a key itself ends, and no key was saved inside it on its own level, the entry deleted is that of the
  collection (scannerc.go:959-987). Its bracket is then handed out early, and KEY and BLOCK-MAPPING-START
  come behind it, in the wrong order: `[? a : b]: c` (`TokenScanner.FlowCollectionAsKey`), which is valid
  and which the parser refuses (`TokenReading.LateKeyIsRefused`). KEY is in its place exactly when the key's
  first token is still queued (`TokenScanner.KeyInFrontExactlyWhen`), and
  `TokenScanner.LostKeyIsLateExactlyWhen` says when a lost key is late.
- Keys are compared by kind and text, and collections have no text: a mapping with two lists for keys counts as
  one that defines a key twice, a type error, whatever the lists hold: `{[a]: 1, [b]: 2}`
  (`DecodedValues.DuplicatedExactlyWhen`, `DecodedValues.TwoListsAreOneKey`).
- The comment on `allowedAliasRatio` promises 396,000 to 400,000 alias-driven steps over the whole
  range. That holds at its two ends only (`NodeDecoder.PromiseHoldsExactlyWhen`); in the middle nearly
  1,200,000 are allowed (`NodeDecoder.AliasStepsExceedTheComment`, `NodeDecoder.AliasStepsPeak`).
- A serial number is unique for an authority, not for a node: with two authorities a usable certificate
  can be refused in favour of another row (`Certificates.SerialOfTwoAuthorities`).
- A renewal window shorter than two minutes makes the scheduler fall back to one hour, which is longer
  than the window (`Renewal.GapExactlyWhen`).
- `InsertRuntimeRevision` with `applied` set would leave two applied revisions if one was applied
  before; its callers never set it (`RuntimeRevisions.InsertedConsistent`).
- When the old certificate has been revoked and inserting the new one fails, the node is left without
  a certificate (`Certificates.PkiService.Issue`).

## Model

| member | source | states |
|---|---|---|
| `Chars.AssembleEncode` | tmpcache/gomod/gopkg.in/yaml.v3@v3.0.1/readerc.go:384-410 | the masks and shifts that write a code point as UTF-8, read back the way the scanner does, give the code point |
| `Chars.ByteClassesAgree` | tmpcache/gomod/gopkg.in/yaml.v3@v3.0.1/yamlprivateh.go:80-198 | stepping through encoded text by `width`, the byte tests for printable and break characters are the tests on the character that starts there, so the rest of the model may speak of characters |
| `Chars.WidthMasks` | tmpcache/gomod/gopkg.in/yaml.v3@v3.0.1/yamlprivateh.go:181-198 | `width` finds the length of a character from its first octet, by the bit masks of the source |
| `Chars.AcceptedExactlyWhen` | tmpcache/gomod/gopkg.in/yaml.v3@v3.0.1/readerc.go:364-381 | the reader accepts what the emitter prints as it stands and TAB, CR, NEL, the byte order mark and everything above 0xFFFF, and nothing else |
| `Decoding.DecodesExactly` | tmpcache/gomod/gopkg.in/yaml.v3@v3.0.1/readerc.go:113-434 | decoding is the inverse of encoding, in UTF-8 and both UTF-16: the reader delivers `s` without error if and only if the input is the encoding of `s` and `s` has only accepted characters; so overlong forms, surrogates and unpaired units are all rejected |
| `Decoding.FoundIsEncoded` | tmpcache/gomod/gopkg.in/yaml.v3@v3.0.1/readerc.go:180-381 | a character is found at a position exactly when its encoding stands there and the reader accepts it |
| `Decoding.Utf8Found` | tmpcache/gomod/gopkg.in/yaml.v3@v3.0.1/readerc.go:180-274 | the UTF-8 octet tests accept a sequence exactly when it is the shortest encoding of a code point that is no surrogate and not above 0x10FFFF |
| `Decoding.Utf16Found` | tmpcache/gomod/gopkg.in/yaml.v3@v3.0.1/readerc.go:276-358 | one unit, or a high and a low surrogate, are accepted exactly when they encode the code point |
| `Decoding.SeeingMore` | tmpcache/gomod/gopkg.in/yaml.v3@v3.0.1/readerc.go:218-226 | an answer given with few octets in sight stays the answer when more are seen |
| `Decoding.MarkTellsEncoding` | tmpcache/gomod/gopkg.in/yaml.v3@v3.0.1/readerc.go:47-74 | U+FEFF encoded in each of the three encodings tells that encoding and is skipped; without any of them the input is UTF-8 from its first octet |
| `Decoding.MarkedTextIsRead` | tmpcache/gomod/gopkg.in/yaml.v3@v3.0.1/readerc.go:47-74 | a text of accepted characters, behind its mark in any of the three encodings, is read as it was written |
| `Decoding.ReadUpToProblem` | tmpcache/gomod/gopkg.in/yaml.v3@v3.0.1/readerc.go:113-434 | whatever the input, the characters read are exactly those in front of the first place where no accepted character is encoded, and a problem is reported there or behind it exactly when that is not the end |
| `Decoding.Utf8ProblemTells` | tmpcache/gomod/gopkg.in/yaml.v3@v3.0.1/readerc.go:180-274 | which problem is reported tells what stands there: an octet that begins no character, one short of its continuations, a wrong continuation and where, a number fewer octets would hold, a number no character has, or a character that is not accepted |
| `Reader.Reader.constructor` | tmpcache/gomod/gopkg.in/yaml.v3@v3.0.1/apic.go:49-56 | a fresh reader has delivered nothing |
| `Reader.Reader.UpdateRaw` | tmpcache/gomod/gopkg.in/yaml.v3@v3.0.1/readerc.go:78-107 | moving the octets left to the front and reading behind them keeps the raw buffer a window on the input, whatever the read delivers |
| `Reader.Reader.DetermineEncoding` | tmpcache/gomod/gopkg.in/yaml.v3@v3.0.1/readerc.go:47-74 | the encoding and the octets skipped are those the byte order mark of the input calls for, however it is cut into reads |
| `Reader.Reader.DecodeRaw` | tmpcache/gomod/gopkg.in/yaml.v3@v3.0.1/readerc.go:172-413 | the inner loop appends to the buffer the characters the input continues with, stopping only for want of octets or at the input's error |
| `Reader.Reader.PutCharacter` | tmpcache/gomod/gopkg.in/yaml.v3@v3.0.1/readerc.go:384-412 | the octets written to the buffer are the UTF-8 of the character |
| `Reader.Reader.UpdateBuffer` | tmpcache/gomod/gopkg.in/yaml.v3@v3.0.1/readerc.go:113-434 | for every request the scanner makes, on success `length` characters are unread or the input is at its end, and the buffer holds the UTF-8 of the next ones of the whole input; on failure the error is that of the whole input |
| `Reader.Reader.LookAhead` | tmpcache/gomod/gopkg.in/yaml.v3@v3.0.1/scannerc.go:2842-2848 | the look-ahead of the comment scanners over blanks and line breaks, octet by octet up to 512, takes nothing, stops where it should, and never asks the buffer for more than it has room for |
| `Reader.Reader.ShortFits` | tmpcache/gomod/gopkg.in/yaml.v3@v3.0.1/scannerc.go:505-510 | a request for up to 192 characters always fits the buffer, whatever is held |
| `Reader.Reader.TakeCharacter` | tmpcache/gomod/gopkg.in/yaml.v3@v3.0.1/scannerc.go:542-566 | taking a character off the buffer delivers its octets and leaves the rest |
| `Reader.Reader.NextIsTheInputs` | tmpcache/gomod/gopkg.in/yaml.v3@v3.0.1/readerc.go:113-434 | the next unread character is the one at that place in the decoding of the whole input, or NUL behind its end |
| `Reader.ChunkingIsInvisible` | tmpcache/gomod/gopkg.in/yaml.v3@v3.0.1/readerc.go:78-107 | two readers whose inputs are the same octets, cut into reads in any two ways, deliver the same characters |
| `ScalarEmitter.Emitter.AnalyzeScalar` | tmpcache/gomod/gopkg.in/yaml.v3@v3.0.1/emitterc.go:1255-1406 | the one pass with its flags decides the five questions about a value exactly as they are stated on the value as a whole |
| `ScalarEmitter.Emitter.WritePlainScalar` | tmpcache/gomod/gopkg.in/yaml.v3@v3.0.1/emitterc.go:1609-1666 | the loop over the fields writes the text of the specification, and a root scalar leaves `open_ended` set |
| `ScalarEmitter.Emitter.WriteSingleQuotedScalar` | tmpcache/gomod/gopkg.in/yaml.v3@v3.0.1/emitterc.go:1668-1725 | the loop over the fields writes the text of the specification |
| `ScalarEmitter.Emitter.WriteDoubleQuotedScalar` | tmpcache/gomod/gopkg.in/yaml.v3@v3.0.1/emitterc.go:1727-1846 | the loop over the fields writes the text of the specification |
| `ScalarEmitter.Emitter.EmitIndent` | tmpcache/gomod/gopkg.in/yaml.v3@v3.0.1/emitterc.go:1490-1515 | breaks the line when the position is not the indentation already, and pads up to it |
| `ScalarScanner.Scanner.ScanFlowScalar` | tmpcache/gomod/gopkg.in/yaml.v3@v3.0.1/scannerc.go:2435-2688 | the loops over position, column and blanks compute the scan, value or error, that `QuotedSpellings.QuotedScanIs` says what it is for every text |
| `ScalarScanner.Scanner.ScanPlainScalar` | tmpcache/gomod/gopkg.in/yaml.v3@v3.0.1/scannerc.go:2691-2832 | the loops over position, column and blanks compute the scan, value or error, that `PlainSpellings.PlainScanIs` says what it is for every text |
| `ScalarScanner.Scanner.ReadEscape` | tmpcache/gomod/gopkg.in/yaml.v3@v3.0.1/scannerc.go:2493-2606 | reads the escape, or finds the error, that `QuotedSpellings.LetterReads`, `CodeReads` and `EscapeFails` state for every text |
| `QuotedSpellings.HexIsPlace` | tmpcache/gomod/gopkg.in/yaml.v3@v3.0.1/yamlprivateh.go:63-78 | the value of a hexadecimal digit is its place in `0123456789abcdef` or in `0123456789ABCDEF`, and it is a digit exactly when it has one |
| `QuotedSpellings.ParseHexReads` | tmpcache/gomod/gopkg.in/yaml.v3@v3.0.1/scannerc.go:2555-2570 | digits of either case, however many, are read as the number they spell |
| `QuotedSpellings.LetterReads` | tmpcache/gomod/gopkg.in/yaml.v3@v3.0.1/scannerc.go:2497-2546 | an escape of one letter is read as what stands at the place of that letter in the table of YAML |
| `QuotedSpellings.CodeReads` | tmpcache/gomod/gopkg.in/yaml.v3@v3.0.1/scannerc.go:2541-2599 | `\x`, `\u` and `\U` with two, four and eight digits of either case are read as the character with that number |
| `QuotedSpellings.EscapeFails` | tmpcache/gomod/gopkg.in/yaml.v3@v3.0.1/scannerc.go:2547-2578 | a letter outside the table, a character that is no digit, and a number no character has are refused, each with its error |
| `QuotedSpellings.EveryQuotedSpellingIsRead` | tmpcache/gomod/gopkg.in/yaml.v3@v3.0.1/scannerc.go:2435-2688 | every spelling of a quoted scalar, with escapes, doubled quotes, blanks of either kind, the six line breaks folded or kept, and escaped line breaks, is read as what it means, with the position and the column behind it, unless a line of it begins with the marker of a document, which is the error |
| `QuotedSpellings.QuotedScanIs` | tmpcache/gomod/gopkg.in/yaml.v3@v3.0.1/scannerc.go:2435-2688 | and every text behind an opening quote is such a spelling up to its closing quote, to the end of the stream or to an escape that is refused, so the scan is known, value or error, for every text |
| `PlainSpellings.EveryPlainSpellingIsRead` | tmpcache/gomod/gopkg.in/yaml.v3@v3.0.1/scannerc.go:2691-2832 | every spelling of a plain scalar over any number of lines, in block and in flow context, is read as what it means up to what ends it: an indicator, a comment, a document marker, a line too far left; a tab where a line is indented is the error |
| `PlainSpellings.PlainScanIs` | tmpcache/gomod/gopkg.in/yaml.v3@v3.0.1/scannerc.go:2691-2832 | and every text that may begin a plain scalar is such a spelling, so the scan is known, value, end or error, for every text |
| `PlainSpellings.BeginsPlainExactlyWhen` | tmpcache/gomod/gopkg.in/yaml.v3@v3.0.1/scannerc.go:733-880 | the cascade on the first character comes to a plain scalar exactly at text that is not reserved, at `-` in front of text, in block context at `?` and `:` in front of text, and not at a document marker |
| `PlainScalars.PlainRoundTrip` | tmpcache/gomod/gopkg.in/yaml.v3@v3.0.1/emitterc.go:1609-1666 | a plain text, folded or not, whose style the analysis allows, is dispatched to the plain scanner and scans back to the value, whenever what follows ends a plain scalar |
| `SingleQuotedScalars.SingleQuotedRoundTrip` | tmpcache/gomod/gopkg.in/yaml.v3@v3.0.1/emitterc.go:1668-1725 | for every value the analysis allows, with its breaks, doubled quotes and folds, the single-quoted text scans back to the value |
| `DoubleQuotedScalars.DoubleQuotedRoundTrip` | tmpcache/gomod/gopkg.in/yaml.v3@v3.0.1/emitterc.go:1727-1846 | for every value whatsoever, with `unicode` on or off and folded or not, the double-quoted text scans back to the value |
| `ScalarRoundTrip.ChosenStyleReadsBack` | tmpcache/gomod/gopkg.in/yaml.v3@v3.0.1/emitterc.go:1004-1050 | whatever style was asked for, the style selected reads back as the value in the context it was selected for |
| `ScalarRoundTrip.DoubleQuotedReadable` | tmpcache/gomod/gopkg.in/yaml.v3@v3.0.1/readerc.go:364-381 | every character a double-quoted text adds to the output is one the reader accepts |
| `StreamScalars.StreamScalarReadsBack` | tmpcache/gomod/gopkg.in/yaml.v3@v3.0.1/emitterc.go:251-312 | every scalar of a stream printed plain or quoted, as a value, an item, a simple or complex key or a root, scans back to the event's value in the text of the stream, however much of it has been printed, when the scanner gets there with the emitter's flow level and indentation |
| `StreamScalars.KeysStay` | tmpcache/gomod/gopkg.in/yaml.v3@v3.0.1/emitterc.go:970-1001 | a simple key is printed on one line, no further left than its indentation, and a collection taken for one is ended by the next event |
| `WhatFollows.StepFollows` | tmpcache/gomod/gopkg.in/yaml.v3@v3.0.1/emitterc.go:251-312 | behind a scalar every event prints something that ends it, or nothing, or what only something that ends it can follow: a `:` that a blank must follow, or the start of a line too far left or where a document marker must follow |
| `WhatFollows.FlowFresh` | tmpcache/gomod/gopkg.in/yaml.v3@v3.0.1/emitterc.go:532-727 | in a flow collection a comma, a bracket or a `:` comes next |
| `WhatFollows.BlockFresh` | tmpcache/gomod/gopkg.in/yaml.v3@v3.0.1/emitterc.go:729-848 | in a block collection or at the root a new line or a `:` comes next, or a collection ends and nothing is printed |
| `EmittedText.NodeStarts` | tmpcache/gomod/gopkg.in/yaml.v3@v3.0.1/emitterc.go:855-967 | what a node prints begins with a blank when one is due and else with none, whichever of anchor, tag and text comes first |
| `TagUri.TagScanner.ScanTag` | tmpcache/gomod/gopkg.in/yaml.v3@v3.0.1/scannerc.go:2086-2141 | the scanning loop with its error cases |
| `TagUri.WriteTagContent` | tmpcache/gomod/gopkg.in/yaml.v3@v3.0.1/emitterc.go:1555-1607 | the writing loop over the octets of the suffix |
| `TagUri.TagRoundTrip` | tmpcache/gomod/gopkg.in/yaml.v3@v3.0.1/emitterc.go:1555-1607 | for every nonempty suffix, the percent-encoded text scanned back gives the suffix if and only if the next character cannot belong to a URI |
| `TagSpellings.EveryTagSpellingIsRead` | tmpcache/gomod/gopkg.in/yaml.v3@v3.0.1/scannerc.go:2086-2187 | every spelling of a tag, with the octets of characters escaped by digits of either case, is read as those octets up to the first character that cannot stand in a URI, and a character whose octets do not go on as its first one announces is refused, with the error that tells why |
| `TagSpellings.TagScanIs` | tmpcache/gomod/gopkg.in/yaml.v3@v3.0.1/scannerc.go:2086-2187 | and every text is spelled so, up to such an end or such an error |
| `TagSpellings.PrintedAsItStands` | tmpcache/gomod/gopkg.in/yaml.v3@v3.0.1/emitterc.go:1555-1607 | the writer leaves unescaped exactly what the scanner takes for itself, but for `!` |
| `EmitterGrammar.EveryEventIsAnswered` | tmpcache/gomod/gopkg.in/yaml.v3@v3.0.1/emitterc.go:251-312 | in every reachable state the machine accepts an event exactly when the event grammar does and its anchor, tag flags and directives are usable; it never pops an empty stack, and the invariant (rising indentation, states matching flow level and indents, `open_ended` only behind the root of a document) is kept |
| `EmitterGrammar.ScalarOpens` | tmpcache/gomod/gopkg.in/yaml.v3@v3.0.1/emitterc.go:889-911 | after a scalar `open_ended` is set exactly when it is the root of the document and was printed plain |
| `EmitterGrammar.DeeperRises` | tmpcache/gomod/gopkg.in/yaml.v3@v3.0.1/emitterc.go:229-248 | the new indentation is strictly deeper, so `indents` followed by `indent` stays strictly increasing |
| `BlockLayout.DeeperIs` | tmpcache/gomod/gopkg.in/yaml.v3@v3.0.1/emitterc.go:229-248 | the new indentation: two columns deeper in a block sequence, else the next multiple of the configured one, and none for a block collection at the top |
| `BlockLayout.BlockEntryStands` | tmpcache/gomod/gopkg.in/yaml.v3@v3.0.1/emitterc.go:729-848 | every entry of a block collection is printed, behind nothing but layout and on a new line where there was text on the old one, in the column of the collection's indentation, and begins with its indicator, or as a simple key with none |
| `BlockLayout.LiteralIs` | tmpcache/gomod/gopkg.in/yaml.v3@v3.0.1/emitterc.go:1890-1925 | a literal scalar is printed as its header and then the lines of the value on lines of their own, each that holds anything indented by exactly the indentation |
| `EmitterRuns.AcceptedIff` | tmpcache/gomod/gopkg.in/yaml.v3@v3.0.1/emitterc.go:146-166 | a sequence of events is emitted without error if and only if it is a prefix of a well-formed stream whose events are usable |
| `EmitterRuns.AcceptableExactlyWhen` | tmpcache/gomod/gopkg.in/yaml.v3@v3.0.1/emitterc.go:1183-1253 | which events are usable: an anchor is letters, digits, `_` and `-`, and an alias is not empty; a scalar has a tag or may go without; a directive has a prefix and for handle `!`, or a word between two `!`, and no handle is given twice |
| `EmitterRuns.StreamIsEmitted` | tmpcache/gomod/gopkg.in/yaml.v3@v3.0.1/emitterc.go:318-354 | every well-formed stream of usable events is emitted to its end |
| `EmitterRuns.NodeRestores` | tmpcache/gomod/gopkg.in/yaml.v3@v3.0.1/emitterc.go:532-848 | emitting a complete node restores `indents`, `indent` and the flow level, and pops exactly its continuation |
| `ScalarInk.ScalarIsShown` | tmpcache/gomod/gopkg.in/yaml.v3@v3.0.1/emitterc.go:1097-1115 | in every style, literal and folded included, a writer prints all of the value's characters in order, whatever the column, width, indentation and line breaks; between double quotes exactly what must be is escaped, by its letter or the fewest digits |
| `ScalarInk.DoubleInk` | tmpcache/gomod/gopkg.in/yaml.v3@v3.0.1/emitterc.go:1727-1846 | the only mark line folding leaves in a double-quoted text is the backslash that keeps a second space |
| `EmittedInk.TreeIsPrinted` | tmpcache/gomod/gopkg.in/yaml.v3@v3.0.1/emitterc.go:532-848 | apart from spaces and line breaks, the machine prints for the events of a tree what a recursive printer, which decides on its own about anchors, tags, simple keys and styles, prints for the tree: every bracket, comma, dash, `?`, `:`, anchor and tag |
| `EmittedInk.SameProperties` | tmpcache/gomod/gopkg.in/yaml.v3@v3.0.1/emitterc.go:1409-1476 | what the emitter keeps of an event: its anchor exactly when it has one; its tag exactly when it has one and canonical form or the flags call for it, as the handle of the first directive in force whose prefix and the suffix make up the tag, or in full when there is none |
| `EmittedInk.SimpleDecided` | tmpcache/gomod/gopkg.in/yaml.v3@v3.0.1/emitterc.go:970-1001 | a key is simple exactly when it is an alias, a scalar of one line or an empty collection, and anchor, tag and value have at most 128 octets |
| `EmittedInk.SameStyle` | tmpcache/gomod/gopkg.in/yaml.v3@v3.0.1/emitterc.go:1004-1050 | the style selected is the one asked for where value and place allow it, and otherwise single-quoted or double-quoted, by rules stated on the value as a whole |
| `EmittedInk.StreamIsPrinted` | tmpcache/gomod/gopkg.in/yaml.v3@v3.0.1/emitterc.go:251-530 | the same for a whole stream, with directives, the two that are in force unless redefined, and document markers; `...` stands after a document with an explicit end, and else before directives and before the end of the stream exactly when the root before it was a scalar printed plain |
| `EmittedInk.DocumentPrints` | tmpcache/gomod/gopkg.in/yaml.v3@v3.0.1/emitterc.go:359-460 | one document; behind it `open_ended` is set exactly when its root was a scalar printed plain and its end is implicit |
| `EmittedInk.PlainRootIs` | tmpcache/gomod/gopkg.in/yaml.v3@v3.0.1/emitterc.go:1004-1050 | a root scalar is printed plain exactly when the form is not canonical, no other style was asked for, the value is one trimmed line without indicators or special characters, and a tag is printed or not needed |
| `EmittedInk.PlainRootEndsInDots` | tmpcache/gomod/gopkg.in/yaml.v3@v3.0.1/emitterc.go:462-470 | the stream of one document holding the plain scalar `a`, without markers, is printed as `a` and `...` |
| `EmittedInk.CollectionEnds` | tmpcache/gomod/gopkg.in/yaml.v3@v3.0.1/emitterc.go:532-575 | what the end of a collection prints: its bracket, and a comma before it in canonical form |
| `StreamEmitter.Emitter.Emit` | tmpcache/gomod/gopkg.in/yaml.v3@v3.0.1/emitterc.go:146-166 | after each event the fields, `open_ended` among them, are what the specification gives for all the events emitted so far; an error is reported only when the events so far are not a usable prefix of a stream |
| `StreamEmitter.Emitter.NeedMoreEvents` | tmpcache/gomod/gopkg.in/yaml.v3@v3.0.1/emitterc.go:169-203 | the loop waits exactly while the event at the head is incomplete and fewer than its share are queued |
| `StreamEmitter.Emitter.StateMachine` | tmpcache/gomod/gopkg.in/yaml.v3@v3.0.1/emitterc.go:251-312 | dispatch on the state computes the specification of one event |
| `StreamEmitter.Emitter.EmitScalar` | tmpcache/gomod/gopkg.in/yaml.v3@v3.0.1/emitterc.go:889-911 | analysis, style, anchor, tag and text as specified |
| `StreamEmitter.Emitter.EmitNode` | tmpcache/gomod/gopkg.in/yaml.v3@v3.0.1/emitterc.go:855-876 | sets `root_context` and dispatches on the event, as specified |
| `StreamEmitter.Emitter.CheckSimpleKey` | tmpcache/gomod/gopkg.in/yaml.v3@v3.0.1/emitterc.go:970-1001 | decides what may be a simple key: one line, at most 128 octets, or an empty collection |
| `StreamEmitter.Emitter.IncreaseIndent` | tmpcache/gomod/gopkg.in/yaml.v3@v3.0.1/emitterc.go:229-248 | pushes the indentation and moves to the deeper one |
| `StreamEmitter.NothingWaits` | tmpcache/gomod/gopkg.in/yaml.v3@v3.0.1/emitterc.go:169-203 | once the last event of a well-formed stream is in, no event waits: the queue is emitted to its end |
| `StreamEmitter.SuccessorQueued` | tmpcache/gomod/gopkg.in/yaml.v3@v3.0.1/emitterc.go:952-967 | a collection start is emitted only when the event after it is queued, so the test for an empty collection looks at an event that is there |
| `StreamEmitter.NextUnused` | tmpcache/gomod/gopkg.in/yaml.v3@v3.0.1/emitterc.go:146-166 | for every other event the one behind it makes no difference, so events emitted as they arrive and events emitted with all of them in sight give the same text |
| `StreamEmitter.RangeExtends` | tmpcache/gomod/gopkg.in/yaml.v3@v3.0.1/emitterc.go:146-166 | what has been emitted does not depend on events that arrive later |
| `ParserGrammar.NextSimulates` | tmpcache/gomod/gopkg.in/yaml.v3@v3.0.1/parserc.go:150-226 | one call never indexes an empty stack, emits an event the grammar allows, keeps states and marks in step, and lowers a measure |
| `ParserGrammar.EveryTokenStreamIsNested` | tmpcache/gomod/gopkg.in/yaml.v3@v3.0.1/parserc.go:150-1155 | on every finite token stream, however malformed, the events are a prefix of STREAM-START (DOCUMENT-START node DOCUMENT-END)* STREAM-END with an even number of nodes in each mapping, a whole one when no error is reported, and at most three to a token |
| `ParserTable.CallSucceedsExactlyWhen` | tmpcache/gomod/gopkg.in/yaml.v3@v3.0.1/parserc.go:230-1155 | in every state the parser can be in, a call succeeds exactly when a table by states takes the next tokens, up to three and any directives: what may begin a node there, what may end the collection or the part, and nothing else |
| `ParserTable.NodeTakenExactlyWhen` | tmpcache/gomod/gopkg.in/yaml.v3@v3.0.1/parserc.go:455-681 | a node is read exactly where an alias stands, or an anchor and a tag, each at most once, with a known handle, and then content that may stand there, or nothing when they name something |
| `ParserTable.DirectivesTakenExactlyWhen` | tmpcache/gomod/gopkg.in/yaml.v3@v3.0.1/parserc.go:1176-1235 | directives are accepted exactly when at most one gives the version, as 1.1, and no handle is given twice |
| `TokenReading.EverySpellingIsRead` | tmpcache/gomod/gopkg.in/yaml.v3@v3.0.1/parserc.go:26-65 | every spelling of a stream of documents by the token grammar in which every row of a block mapping has its KEY, and a pair of a flow sequence has a key or is a value indicator alone, is read without error as exactly the trees it stands for, with their values, styles, flags, anchors and resolved tags; directives come in any order |
| `TokenReading.BlockTableExactlyWhen` | tmpcache/gomod/gopkg.in/yaml.v3@v3.0.1/parserc.go:816-868 | a block mapping spelled by the grammar, where KEY is optional, is read as its tree if and only if every row has its KEY; otherwise the parser reports an error or emits other events |
| `TokenReading.ValueWithoutKey` | tmpcache/gomod/gopkg.in/yaml.v3@v3.0.1/parserc.go:816-868 | the smallest input that is refused, the tokens of `: v` |
| `TokenReading.LateKeyIsRefused` | tmpcache/gomod/gopkg.in/yaml.v3@v3.0.1/parserc.go:255-355 | the tokens of `[? a : b]: c` as the scanner orders them are refused |
| `TokenTrees.MeaningWellFormed` | tmpcache/gomod/gopkg.in/yaml.v3@v3.0.1/parserc.go:26-65 | what a tree means is a well-formed node, with an even number of nodes in every mapping |
| `TokenReading.NodeRead` | tmpcache/gomod/gopkg.in/yaml.v3@v3.0.1/parserc.go:455-681 | a node in any context is read as its tree: anchor, resolved tag, style and value, and the parser is left behind it in the state it was told to return to |
| `TokenReading.TagAgrees` | tmpcache/gomod/gopkg.in/yaml.v3@v3.0.1/parserc.go:526-550 | a tag is resolved as the prefix of the first directive with its handle followed by the suffix, and refused exactly when there is no such directive or the whole is empty |
| `TokenReading.KnownAgrees` | tmpcache/gomod/gopkg.in/yaml.v3@v3.0.1/parserc.go:1176-1235 | the directives in force in a document are its own and `!` and `!!` for `!` and `tag:yaml.org,2002:` unless it redefines them |
| `TokenReading.ScalarAgrees` | tmpcache/gomod/gopkg.in/yaml.v3@v3.0.1/parserc.go:564-588 | a scalar event has the value and the style of its token, and may go without its tag as its tag and style say |
| `TokenReading.ItemsRead` | tmpcache/gomod/gopkg.in/yaml.v3@v3.0.1/parserc.go:687-782 | the entries of block and unindented sequences, missing ones as empty scalars |
| `TokenReading.PairRead` | tmpcache/gomod/gopkg.in/yaml.v3@v3.0.1/parserc.go:816-925 | a pair behind its KEY: key and value, each present or missing, the value perhaps without its indicator |
| `TokenReading.EntriesRead` | tmpcache/gomod/gopkg.in/yaml.v3@v3.0.1/parserc.go:928-993 | the entries of a flow collection from a comma on, with or without a comma at the end |
| `TokenReading.DocumentRead` | tmpcache/gomod/gopkg.in/yaml.v3@v3.0.1/parserc.go:255-416 | one document with its directives in any order, header and any number of end markers |
| `TokenReading.KeylessPairExactlyWhen` | tmpcache/gomod/gopkg.in/yaml.v3@v3.0.1/parserc.go:995-1013 | the production for a pair without a key in a flow sequence skips the token in front of it; the pair is read as the grammar has it exactly when it consists of a value indicator alone |
| `TokenReading.ValueOfMissingKey` | tmpcache/gomod/gopkg.in/yaml.v3@v3.0.1/parserc.go:995-1013 | an input the grammar allows and the parser refuses, the tokens of `[? : v]` |
| `EventParser.TokenParser.Parse` | tmpcache/gomod/gopkg.in/yaml.v3@v3.0.1/parserc.go:119-130 | a call computes the next event, or the error, of the specification from the parser's fields |
| `EventParser.TokenParser.ParseNode` | tmpcache/gomod/gopkg.in/yaml.v3@v3.0.1/parserc.go:455-681 | the assignments to state, stack and position of one production compute its specification |
| `EventParser.TokenParser.ParseDocumentStart` | tmpcache/gomod/gopkg.in/yaml.v3@v3.0.1/parserc.go:255-355 | the assignments of one production compute its specification |
| `EventParser.TokenParser.ProcessDirectives` | tmpcache/gomod/gopkg.in/yaml.v3@v3.0.1/parserc.go:1176-1235 | the loop over directives, with duplicates and versions refused |
| `EventParser.TokenParser.ParseBlockMappingKey` | tmpcache/gomod/gopkg.in/yaml.v3@v3.0.1/parserc.go:816-868 | the assignments of one production compute its specification |
| `EventParser.TokenParser.ParseFlowSequenceEntry` | tmpcache/gomod/gopkg.in/yaml.v3@v3.0.1/parserc.go:928-985 | the assignments of one production compute its specification |
| `EventParser.TokenParser.ParseFlowMappingKey` | tmpcache/gomod/gopkg.in/yaml.v3@v3.0.1/parserc.go:1066-1121 | the assignments of one production compute its specification |
| `TreeBuilder.Builder.Parse` | tmpcache/gomod/gopkg.in/yaml.v3@v3.0.1/decode.go:147-168 | a document is built whose tree has exactly the events consumed, every node with the tag `TreeBuilder.TagFor` gives it, or loading fails for a parser error or for an alias to a name no node read so far carries, in this document or an earlier one: the unknown-event panic and the expectations of `expect` are never reached |
| `TreeBuilder.Builder.BuildSequence` | tmpcache/gomod/gopkg.in/yaml.v3@v3.0.1/decode.go:254-268 | the node built holds the children the events spell, in order |
| `TreeBuilder.Builder.BuildMapping` | tmpcache/gomod/gopkg.in/yaml.v3@v3.0.1/decode.go:270-308 | the node built holds the keys and values the events spell, an even number |
| `TreeBuilder.Builder.BuildAlias` | tmpcache/gomod/gopkg.in/yaml.v3@v3.0.1/decode.go:214-222 | the alias points at the node last anchored by that name |
| `Graph.AnchoredExactlyWhen` | tmpcache/gomod/gopkg.in/yaml.v3@v3.0.1/decode.go:140-145 | a node carries a name exactly when it is a scalar or a collection whose event gives it |
| `TreeBuilder.MergeKeysAre` | tmpcache/gomod/gopkg.in/yaml.v3@v3.0.1/decode.go:998-1000 | of the nodes that are built, merge keys are exactly the scalars `<<` that are plain or tagged as merge keys |
| `TreeBuilder.ShortTagIs` | tmpcache/gomod/gopkg.in/yaml.v3@v3.0.1/resolve.go:96-104 | the prefix of the standard tags is shortened to `!!` and every other tag stays |
| `TreeBuilder.AliasAcrossDocuments` | tmpcache/gomod/gopkg.in/yaml.v3@v3.0.1/decode.go:140-145 | a graph of two documents in which an alias of the second stands for a scalar of the first: anchors are not forgotten |
| `MergeKeys.DecodedMapping` | tmpcache/gomod/gopkg.in/yaml.v3@v3.0.1/decode.go:767-862 | the value of a key in a decoded mapping: its own last entry, else the first among the merged mappings in listed order, through any nesting of merges and aliases, with all keys turned into strings when the mapping's own are |
| `MergeKeys.UnionExactlyWhen` | tmpcache/gomod/gopkg.in/yaml.v3@v3.0.1/decode.go:959-996 | a mapping decodes to the left-biased union exactly when no merged mapping has the text of the merge key as an ordinary key |
| `MergeKeys.QuotedMergeKeyIsLost` | tmpcache/gomod/gopkg.in/yaml.v3@v3.0.1/decode.go:959-996 | a mapping where it does not: the quoted key is lost |
| `MergeKeys.MergeIntoAbsorbs` | tmpcache/gomod/gopkg.in/yaml.v3@v3.0.1/decode.go:767-862 | merging adds the entries of keys not claimed yet, the first of each, and claims them |
| `MapKeys.MergedCrashesExactlyWhen` | tmpcache/gomod/gopkg.in/yaml.v3@v3.0.1/decode.go:819-852 | merging a mapping whose keys and values decode by themselves panics exactly when the map being filled keeps values for keys and some key is a collection; otherwise it succeeds |
| `MapKeys.MergeCrashesExactlyWhen` | tmpcache/gomod/gopkg.in/yaml.v3@v3.0.1/decode.go:959-996 | the same of a mapping, or an alias of one, together with everything it merges in turn |
| `MapKeys.DecodeCrashesExactlyWhen` | tmpcache/gomod/gopkg.in/yaml.v3@v3.0.1/decode.go:767-862 | a mapping that merges, and whose entries, claimed keys and merges meet no problem of their own: an invalid key exactly when an own key is a collection and not all are tagged as strings; a panic exactly when an own key is a collection and all are tagged as strings, or some are not and a mapping its merges read, at any depth, has a collection for a key; else it decodes |
| `MapKeys.ClaimCrashesExactlyWhen` | tmpcache/gomod/gopkg.in/yaml.v3@v3.0.1/decode.go:959-970 | claiming the keys of the mapping that merges panics exactly when one of them is a collection |
| `MapKeys.TaggedCollectionCrashes` | tmpcache/gomod/gopkg.in/yaml.v3@v3.0.1/decode.go:959-970 | an input on which decoding panics although all keys are tagged as strings, `{!!str [a]: b, <<: {}}` |
| `MapKeys.InvalidKeyExactlyWhen` | tmpcache/gomod/gopkg.in/yaml.v3@v3.0.1/decode.go:840-846 | in a mapping that is not merged a collection as a key is refused exactly when not all keys are tagged as strings |
| `MapKeys.CollectionKeyCrashes` | tmpcache/gomod/gopkg.in/yaml.v3@v3.0.1/decode.go:833-839 | an input on which decoding panics, `{1: x, <<: {? [a] : b}}` |
| `MapKeys.CollectionKeyIsSkipped` | tmpcache/gomod/gopkg.in/yaml.v3@v3.0.1/decode.go:864-876 | one on which the entry is skipped, `{<<: {? [a] : b}}` |
| `MapKeys.IntegerKeyBecomesText` | tmpcache/gomod/gopkg.in/yaml.v3@v3.0.1/decode.go:864-876 | `{"1": a, <<: {1: b}}` decodes to one entry, since the merged key becomes a string |
| `NodeDecoder.RatioAtMost` | tmpcache/gomod/gopkg.in/yaml.v3@v3.0.1/decode.go:468-482 | the ratio lies between the low and the high bound for every count |
| `NodeDecoder.BudgetBound` | tmpcache/gomod/gopkg.in/yaml.v3@v3.0.1/decode.go:484-504 | at every passed check the count is at most the largest of 1000, nonalias + 100 and 100 * nonalias |
| `NodeDecoder.BudgetExact` | tmpcache/gomod/gopkg.in/yaml.v3@v3.0.1/decode.go:484-504 | up to 400,000 steps the check passes exactly when the count is at most 1000, at most nonalias + 100 or at most 100 * nonalias |
| `NodeDecoder.AliasStepsPeak` | tmpcache/gomod/gopkg.in/yaml.v3@v3.0.1/decode.go:455-482 | fewer than 1,200,000 alias-driven steps pass the check |
| `NodeDecoder.AliasStepsExceedTheComment` | tmpcache/gomod/gopkg.in/yaml.v3@v3.0.1/decode.go:455-482 | a count, 2,200,000, for which over 1,198,000 alias-driven steps pass, against the comment |
| `NodeDecoder.PromiseHoldsExactlyWhen` | tmpcache/gomod/gopkg.in/yaml.v3@v3.0.1/decode.go:455-482 | between 400,000 and 4,000,000 steps the ratio never allows fewer than 396,000 alias-driven ones, and allows no more than 400,000, as the comment has it, exactly up to 404,494 and at 4,000,000 |
| `NodeDecoder.NodeDecoder.Unmarshal` | tmpcache/gomod/gopkg.in/yaml.v3@v3.0.1/decode.go:484-521 | decoding, with counters and recursion, gives exactly the value or the problem of the specification, as a value, as a string key, as a key being claimed or into a map being merged into, and ends on every graph, cyclic ones included; it stops for excessive aliasing only with counts that exceed the budget, where every call counts, inside an alias expansion as an alias-driven one, and so never on a graph without aliases |
| `DecodedValues.DecodedSequence` | tmpcache/gomod/gopkg.in/yaml.v3@v3.0.1/decode.go:729-765 | a sequence decodes to the list of what its children decode to, in their order and without those that are skipped, and fails as the first child that does |
| `DecodedValues.ClaimedSequence` | tmpcache/gomod/gopkg.in/yaml.v3@v3.0.1/decode.go:729-765 | the same while keys are being claimed, each child decoded with what is claimed before it |
| `DecodedValues.DecodedAlias` | tmpcache/gomod/gopkg.in/yaml.v3@v3.0.1/decode.go:533-544 | an alias decodes to what the last node before it with its name decodes to, unless an anchor contains itself |
| `DecodedValues.DecodedLeaf` | tmpcache/gomod/gopkg.in/yaml.v3@v3.0.1/decode.go:523-531 | a scalar decodes to what it resolves to, a document to what its one node does, and to null where that is skipped |
| `DecodedValues.DecodedText` | tmpcache/gomod/gopkg.in/yaml.v3@v3.0.1/decode.go:565-620 | what each kind of node decodes to as a key that is a string |
| `DecodedValues.DuplicatedExactlyWhen` | tmpcache/gomod/gopkg.in/yaml.v3@v3.0.1/decode.go:780-793 | keys count as defined twice exactly when two are scalars of the same text, aliases of the same name, both sequences or both mappings |
| `DecodedValues.TwoListsAreOneKey` | tmpcache/gomod/gopkg.in/yaml.v3@v3.0.1/decode.go:780-793 | so a mapping with two lists for keys is skipped as a type error, whatever the lists hold |
| `NodeDecoder.NodeDecoder.Alias` | tmpcache/gomod/gopkg.in/yaml.v3@v3.0.1/decode.go:533-544 | an alias being expanded is refused, and the set of open aliases is restored |
| `NodeDecoder.NodeDecoder.Mapping` | tmpcache/gomod/gopkg.in/yaml.v3@v3.0.1/decode.go:767-862 | the entry loop and the merge after it, in both modes, compute the specification |
| `NodeDecoder.NodeDecoder.StringMap` | tmpcache/gomod/gopkg.in/yaml.v3@v3.0.1/decode.go:864-876 | the loop decides whether all keys are tagged as strings or merge keys |
| `NodeDecoder.NodeDecoder.Entries` | tmpcache/gomod/gopkg.in/yaml.v3@v3.0.1/decode.go:767-862 | `mergedFields` is set aside while entries are read and restored after |
| `NodeDecoder.NodeDecoder.Merge` | tmpcache/gomod/gopkg.in/yaml.v3@v3.0.1/decode.go:959-996 | parent keys are claimed first, each while `mergedFields` holds those before it, then merged mappings in order |
| `NodeDecoder.NodeDecoder.HasDuplicates` | tmpcache/gomod/gopkg.in/yaml.v3@v3.0.1/decode.go:780-793 | finds two keys of the same kind and text exactly when there are any |
| `AliasCycles.DecodeSound` | tmpcache/gomod/gopkg.in/yaml.v3@v3.0.1/decode.go:533-544 | on an acyclic graph decoding never reports an anchor that contains itself |
| `AliasCycles.EveryCycleFails` | tmpcache/gomod/gopkg.in/yaml.v3@v3.0.1/decode.go:533-544 | when what decoding reads leads, through children, keys, values, aliases, claimed keys and merges, to an alias inside its own expansion, decoding fails |
| `AliasCycles.CycleIsThere` | tmpcache/gomod/gopkg.in/yaml.v3@v3.0.1/decode.go:533-544 | when an anchor that contains itself is reported, what decoding reads does lead to an alias inside its own expansion |
| `AliasCycles.ReportedExactlyWhen` | tmpcache/gomod/gopkg.in/yaml.v3@v3.0.1/decode.go:533-544 | decoding that meets no other problem reports an anchor that contains itself if and only if what it reads leads to an alias inside its own expansion |
| `AliasCycles.StepSucceeds` | tmpcache/gomod/gopkg.in/yaml.v3@v3.0.1/decode.go:484-521 | a node that decodes reads nothing that fails |
| `AliasCycles.CycleIsReported` | tmpcache/gomod/gopkg.in/yaml.v3@v3.0.1/decode.go:533-544 | a graph in which an alias stands for the sequence around it: decoding ends and reports it |
| `TokenQueue.InsertKeepsOrder` | tmpcache/gomod/gopkg.in/yaml.v3@v3.0.1/apic.go:29-46 | inserting loses nothing and reorders nothing |
| `TokenQueue.TokenQueue.Insert` | tmpcache/gomod/gopkg.in/yaml.v3@v3.0.1/apic.go:29-46 | compacting, appending and shifting the array insert the token at its place in the queue |
| `TokenScanner.InsertNested` | tmpcache/gomod/gopkg.in/yaml.v3@v3.0.1/scannerc.go:995-1027 | a block start may be inserted anywhere, a block end at the end while a block is open, and no block end comes before its start |
| `TokenScanner.DepthInserted` | tmpcache/gomod/gopkg.in/yaml.v3@v3.0.1/scannerc.go:995-1027 | how an insertion changes the number of open blocks at every place of the stream |
| `TokenScanner.TokenScanner.constructor` | tmpcache/gomod/gopkg.in/yaml.v3@v3.0.1/scannerc.go:1083-1109 | STREAM-START, no block open, one simple key slot |
| `TokenScanner.TokenScanner.RollIndentAt` | tmpcache/gomod/gopkg.in/yaml.v3@v3.0.1/scannerc.go:995-1027 | a block start is inserted, and the column pushed, exactly in block context at a deeper column |
| `TokenScanner.TokenScanner.UnrollIndent` | tmpcache/gomod/gopkg.in/yaml.v3@v3.0.1/scannerc.go:1029-1080 | computes the state with the blocks closed that `BlockColumns.UnrollCloses` states |
| `BlockColumns.UnrollCloses` | tmpcache/gomod/gopkg.in/yaml.v3@v3.0.1/scannerc.go:1029-1080 | in block context exactly the open blocks that began right of the column are closed, innermost first, with one BLOCK-END each and nothing else |
| `TokenScanner.TokenScanner.FetchNext` | tmpcache/gomod/gopkg.in/yaml.v3@v3.0.1/scannerc.go:687-905 | a lexeme is accepted exactly when the key rules, the block rules and the depth allow it once the blocks it leaves are closed, and the new state is then the one whose laws `BlockColumns` and `BlockEntries` prove |
| `BlockColumns.StepLaw` | tmpcache/gomod/gopkg.in/yaml.v3@v3.0.1/scannerc.go:687-905 | fetching any lexeme keeps that at every token in block context no block still open began right of it, and that the stacks say what the tokens say |
| `BlockColumns.StepLexemes` | tmpcache/gomod/gopkg.in/yaml.v3@v3.0.1/scannerc.go:687-905 | fetching a lexeme adds its own token, with its place in the text, behind those of the lexemes before it, and otherwise only KEY and the starts and ends of blocks |
| `BlockEntries.StepLaws` | tmpcache/gomod/gopkg.in/yaml.v3@v3.0.1/scannerc.go:687-905 | fetching any lexeme keeps the laws on where blocks start and end and where entries and their keys stand |
| `BlockEntries.EarlyKeyRight` | tmpcache/gomod/gopkg.in/yaml.v3@v3.0.1/scannerc.go:1370-1410 | inserting KEY and a block's start in front of tokens that are queued keeps those laws, and the value that comes then has its KEY |
| `TokenScanner.TokenScanner.FetchStreamEnd` | tmpcache/gomod/gopkg.in/yaml.v3@v3.0.1/scannerc.go:1111-1139 | outside flow context every block is closed at STREAM-END |
| `TokenScanner.TokenScanner.FetchValue` | tmpcache/gomod/gopkg.in/yaml.v3@v3.0.1/scannerc.go:1370-1437 | behind a valid simple key KEY goes in front of the key's first token, and BLOCK-MAPPING-START before that when its column is new, while that token is queued; else both go to the end, and then the index had lost the key. Without one, VALUE alone, after a block start when the column is new; the errors exactly |
| `TokenScanner.TokenScanner.PromoteKey` | tmpcache/gomod/gopkg.in/yaml.v3@v3.0.1/scannerc.go:1370-1410 | the two insertions for a simple key, at its first token or at the end, and nothing else moves |
| `TokenScanner.KeyInFrontExactlyWhen` | tmpcache/gomod/gopkg.in/yaml.v3@v3.0.1/scannerc.go:1370-1410 | KEY and BLOCK-MAPPING-START stand in front of the key's first token if and only if it has not been handed out; otherwise they stand at the end, in the other order |
| `TokenScanner.LostKeyIsLateExactlyWhen` | tmpcache/gomod/gopkg.in/yaml.v3@v3.0.1/scannerc.go:657-684 | when a `:` comes, a key the index has lost has been handed out exactly when its collection has more than two tokens and no token further ahead is held back |
| `TokenScanner.FlowCollectionAsKey` | tmpcache/gomod/gopkg.in/yaml.v3@v3.0.1/scannerc.go:959-987 | the run on `[? a : b]: c`: KEY and BLOCK-MAPPING-START come behind the collection |
| `TokenScanner.TokenScanner.FetchFlowEnd` | tmpcache/gomod/gopkg.in/yaml.v3@v3.0.1/scannerc.go:1232-1261 | flow level and simple key slots go down together; the key around the collection is lost exactly when it is possible and its slot and the collection's still have the same number |
| `TokenScanner.TokenScanner.Take` | tmpcache/gomod/gopkg.in/yaml.v3@v3.0.1/scannerc.go:657-684 | a token is handed out, in the order of the stream, exactly when two more are queued and the index names no key for it that is possible and not stale; it may then still be the first of a possible key only if the index has lost that key; the index never names a slot that is not there |
| `TokenScanner.TokenScanner.SaveSimpleKey` | tmpcache/gomod/gopkg.in/yaml.v3@v3.0.1/scannerc.go:911-936 | where one is allowed a key is saved for the next token, required at the indentation of a block, and one that is required is not replaced |
| `BlockEntries.RequiredExactlyWhen` | tmpcache/gomod/gopkg.in/yaml.v3@v3.0.1/scannerc.go:911-936 | a key that may begin at a token is required exactly in block context in the column of the innermost open block |
| `ScanKeys.KeyAllowedExactlyWhen` | tmpcache/gomod/gopkg.in/yaml.v3@v3.0.1/scannerc.go:1205-1526 | a simple key may begin at a lexeme exactly when, in block context, it stands on a later line than the one before it ended, or that one is an opening bracket, a comma, `-`, a block scalar, a plain scalar of several lines or, in block context, `?` or a `:` without a simple key |
| `ScanKeys.SlotsAfter` | tmpcache/gomod/gopkg.in/yaml.v3@v3.0.1/scannerc.go:911-987 | the slots of simple keys behind every lexeme: content and opening brackets leave the key that begins with them, where one is allowed, closing brackets take their slot away, anything else gives up the key of its level, and no other slot is touched |
| `TokenScanner.TokenScanner.Scan` | tmpcache/gomod/gopkg.in/yaml.v3@v3.0.1/scannerc.go:602-628 | the next token, with as many lexemes fetched as it takes; what was handed out before never changes, the laws are kept, and every lexeme fetched has its token, in order |
| `TokenScanner.TokenScanner.ScanAll` | tmpcache/gomod/gopkg.in/yaml.v3@v3.0.1/scannerc.go:602-628 | whatever the lexemes: no BLOCK-END comes before its start; at every token in block context no block still open began right of it; a block starts right in front of its first entry and in its column; entries stand in the column of the innermost block; a value that does not has its KEY there, on its line and at most 1024 characters before; a block ends only for something left of it or for the marker of a document; and every lexeme has its token, in order |
| `SimpleKeys.CalmWhenWanted` | tmpcache/gomod/gopkg.in/yaml.v3@v3.0.1/scannerc.go:657-684 | whenever a token is fetched, the first token of a key above the block level that has expired is the head of the queue with one token behind it, so its entry is gone before its slot is used again |
| `SimpleKeys.SavedSound` | tmpcache/gomod/gopkg.in/yaml.v3@v3.0.1/scannerc.go:911-936 | saving a key keeps slots and index in step: every entry for a queued token names a slot there is, and above the block level the slot of that token |
| `SimpleKeys.PoppedSound` | tmpcache/gomod/gopkg.in/yaml.v3@v3.0.1/scannerc.go:979-987 | so does dropping a slot, where the key around it may be lost |
| `TokenScanner.TokenScanner.RemoveSimpleKey` | tmpcache/gomod/gopkg.in/yaml.v3@v3.0.1/scannerc.go:939-953 | a required key is never given up silently |
| `Nonces.NoReplay` | services/core-platform/internal/service/service.go:1144-1163 | over every run with a clock that does not go back, the same signed request is accepted at most once |
| `Nonces.AnsweredExactlyAs` | services/core-platform/internal/service/service.go:1144-1163 | what becomes of every request of a run: outside the skew to either side, or not signed; else not genuine; else a replay exactly when an accepted request with its key is remembered, whose signature is not older than the horizon; else accepted |
| `Nonces.ReplayableExactlyWhen` | services/core-platform/internal/service/service.go:1144-1163 | rows kept for another time would admit a replay exactly when that time is shorter than the skew allowed |
| `Nonces.NonceStore.ConsumeNodeNonce` | services/core-platform/internal/store/store.go:891-908 | expired rows are purged, and a key still there is a conflict |
| `Nonces.Gate.Receive` | services/core-platform/internal/service/service.go:665-719 | the order of the checks: skew, the rest, the nonce |
| `Certificates.PkiService.Issue` | services/core-platform/internal/service/node_pki_stage7.go:162-226 | the certificate has the node, the number drawn, the window, the link, and issuer and authority of the active issuer; at most one unrevoked certificate per node, links to an earlier revoked one of the node, no two successors; a signing failure, which is a missing number or an empty lifetime, changes nothing, a failed insert leaves the old one revoked; a new serial number and an active predecessor, or none, succeed |
| `Certificates.PkiService.Ensure` | services/core-platform/internal/service/node_pki_stage7.go:136-160 | the certificate that serves now and no change while there is one, else a new one in the place of what the node had |
| `Certificates.PkiService.Rotate` | services/core-platform/internal/service/node_pki_stage7.go:342-381 | the new certificate is the node's only unrevoked one and linked to the one it replaces, and no other node's changes |
| `Certificates.PkiService.Renew` | services/core-platform/internal/service/pki_ops_stage8.go:370-452 | refused exactly when not forced and the active certificate outlasts the renewal window; otherwise a new one in its place |
| `Certificates.PkiService.RevokeCertificate` | services/core-platform/internal/service/node_pki_stage7.go:383-429 | by number, else by serial, else the active one: the unrevoked certificate of the node that the request names is revoked and no other row changes; not found exactly when there is none |
| `Certificates.PkiService.ListExpiring` | services/core-platform/internal/store/node_certificates_stage7.go:162-194 | the due certificates soonest first, as many as the limit or all there are |
| `Certificates.PkiService.Sweep` | services/core-platform/internal/service/pki_ops_stage8.go:454-481 | lists as many due certificates as the limit or all, touches no other, and each new one takes the place of a due one under the number drawn for it; when signing always succeeds all listed are renewed, and when no more are due than the limit every unrevoked one is then new or was not due |
| `Certificates.PassesExactlyWhile` | services/core-platform/internal/service/node_pki_stage7.go:245-261 | a certificate of a node with one authority passes the serial check exactly while it is unrevoked, in its window, and its issuer is active or configured |
| `Certificates.RefusedBecause` | services/core-platform/internal/service/node_pki_stage7.go:228-261 | and the reason for a refusal is the first of: revoked, outside its window, issuer not trusted |
| `Certificates.UnknownExactlyWhen` | services/core-platform/internal/service/node_pki_stage7.go:228-261 | a serial number is unknown exactly when no certificate of the node has it |
| `Certificates.PassingIsUsable` | services/core-platform/internal/service/node_pki_stage7.go:245-261 | whatever the authorities, a serial number passes only for such a certificate of the node |
| `Certificates.SerialOfTwoAuthorities` | services/core-platform/internal/service/node_pki_stage7.go:245-261 | with two authorities a usable certificate can be refused: the index allows the node the same serial number from both |
| `Certificates.AppendedHistory` | services/core-platform/internal/store/node_certificates_stage7.go:25-57 | an insert that violates no constraint keeps the history sound |
| `Certificates.ConflictsExactlyWhen` | services/core-platform/internal/store/node_certificates_stage7.go:25-57 | an insert is refused exactly when it would break the index on unrevoked certificates or that on serial numbers, or for an empty window |
| `Issuers.IssuerStore.Activate` | services/core-platform/internal/store/pki_issuers_stage8.go:150-216 | the issuer becomes active, linked to the one that was, which is retired, and nothing else changes; at most one issuer is active, no statement violates the index, and an unknown issuer rolls everything back |
| `Issuers.IssuerStore.Create` | services/core-platform/internal/store/pki_issuers_stage8.go:25-57 | refused exactly when id or CA is known |
| `Issuers.IssuerStore.Retire` | services/core-platform/internal/store/pki_issuers_stage8.go:218-235 | the issuer is retired, the others keep their status; not found exactly when it is unknown |
| `Issuers.IssuerStore.EnsureSigning` | services/core-platform/internal/service/pki_ops_stage8.go:24-112 | in file mode there is an active issuer afterwards: the configured one, or the one of the loaded CA when the configured one is unknown; one is created exactly when neither is known, and no issuer is lost or takes part otherwise |
| `Renewal.SchedulerInterval` | services/core-platform/cmd/core-platform/main.go:96-103 | between a minute and an hour; the longest that fits twice into the renewal window, or an hour, and more than half the window, exactly when the window is shorter than two minutes |
| `Renewal.NoRenewalGap` | services/core-platform/internal/service/pki_ops_stage8.go:454-481 | with a renewal window of two minutes or more, certificates that outlast the interval and complete sweeps, sweeps come twice within the window and nothing unrevoked is past NotAfter at any moment of a run |
| `Renewal.GapExactlyWhen` | services/core-platform/cmd/core-platform/main.go:96-103 | a run of certificate tables that meets an expired certificate exists exactly when the window is shorter than two minutes or new certificates do not outlast the interval |
| `Renewal.ServedGap` | services/core-platform/cmd/core-platform/main.go:96-122 | whenever that is so, a service with that policy that goes through such a run: a certificate issued at registration expires before the next sweep is due |
| `Renewal.Serve` | services/core-platform/cmd/core-platform/main.go:104-122 | the service under any mix of requests and sweeps goes through such a run, so the theorem holds of it |
| `RuntimeRevisions.RunsStayConsistent` | services/core-platform/internal/store/store_runtime.go:83-200 | over every run of config and apply requests: versions are 1..n, at most one revision is applied, the runtime row names it and never goes back |
| `RuntimeRevisions.RevisionOf` | services/core-platform/internal/store/store_runtime.go:83-124 | after any run the configuration asked for in a step is the revision whose number counts the requests up to it, with its text |
| `RuntimeRevisions.AppliedBy` | services/core-platform/internal/store/store_runtime.go:126-179 | after any run the revision applied is the newest there was at the last request to apply |
| `RuntimeRevisions.InsertedConsistent` | services/core-platform/internal/store/store_runtime.go:83-124 | inserting a revision as applied keeps at most one applied exactly when none was |
| `RuntimeRevisions.RuntimeStore.Insert` | services/core-platform/internal/store/store_runtime.go:83-124 | the next version, one above the largest |
| `RuntimeRevisions.RuntimeStore.MarkApplied` | services/core-platform/internal/store/store_runtime.go:126-179 | one revision applied and all others cleared, or nothing changed when there is no such version |
| `RuntimeRevisions.RuntimeStore.GetConfig` | services/core-platform/internal/service/runtime_xray.go:198-234 | a new revision that is not applied |
| `RuntimeRevisions.RuntimeStore.Apply` | services/core-platform/internal/service/runtime_xray.go:236-260 | the latest revision becomes the applied one |

## Left out

- Comments in scanner, parser, tree and emitter (head, line, foot and tail comments, stem splitting): heuristic, and no event of the model carries one.
- Text between tokens: `TokenScanner` is given the lexemes, each with its kind, where it starts and ends and, for a plain scalar, whether it went over a line break; scalars, tags and escapes are scanned from text in their own modules, and white space, directives and anchors are not.
- The link from scanner tokens to parser tokens: the token layer proves nesting and order, the parser is proved on every token stream.
- Literal and folded scalars are written by the model, shown whole (`ScalarInk.ScalarIsShown`), literal ones line by line (`BlockLayout.LiteralIs`), but not scanned back: the indentation hint is the configured indentation and not the one in use.
- ScalarRoundTrip.ChosenStyleReadsBack: what follows the scalar is a hypothesis (`MayFollow`); `StreamScalars.StreamScalarReadsBack` proves it of everything the emitter prints.
- EmittedInk.StreamIsPrinted: says nothing about where spaces and line breaks are; `BlockLayout.BlockEntryStands` does for block entries, and the scalars read back as they stand.
- Flushing of the output buffer, UTF-16 output and the byte order mark written before it.
- Values are strings of Unicode scalar values in the scalar, parser and emitter modules; `Chars` ties them to the octets. A Go string that is not valid UTF-8 is refused before it reaches the emitter.
- Reader.Reader.UpdateBuffer: errors of the read handler are not modelled. Of the scanner's requests the look-ahead of the comment scanners is followed (`Reader.Reader.LookAhead`); all others are for at most 8 characters.
- StreamScalars.StreamScalarReadsBack: that the scanner reaches the scalar with the emitter's flow level and indentation (`InStep`) is a hypothesis, since the token layer is given its lexemes and not the text.
- `%YAML` in emitted documents is always 1.1, the only version accepted.
- EventParser.TokenParser.Parse: token positions other than the order of tokens, which only error messages use.
- Decoding into Go types: struct fields, key types other than values and strings, custom unmarshalers; timestamps and numbers are two functions from scalar nodes, to values and to texts; sorting of keys is not modelled.
- Type errors are skipped where they arise; collecting them (`terrors`) and the `TypeError` returned at the end are not modelled. Neither is the tag that `ShortTag` infers for a hand-made node without one: every node has a tag, as the parser's nodes do.
- MergeKeys.DecodedMapping: mapping nodes with an odd number of children, which only a hand-made tree has, are excluded (`Decodable`).
- AliasCycles.EveryCycleFails: the failure may be another one met before; `AliasCycles.ReportedExactlyWhen` leaves those cases out.
- TokenReading.EverySpellingIsRead: the spellings the parser does not read are characterised production by production, and what it refuses call by call (`ParserTable.CallSucceedsExactlyWhen`), not for whole streams.
- Which texts make the scanner lose a key is characterised on the scanner's state when the collection ends and when the `:` comes, not on the text.
- The alias ratio is computed in reals.
- Certificate chains, PEM, RSA and request signatures: a request is genuine or not, a certificate has a serial number.
- External issuers, whose signer is not implemented, and the administrator's `IssueNodeCertificate`, which issues without rotating.
- Paging of listings, node status, capabilities and audit records.
- Interleaving of requests, and time passing within one: each request is one step at one reading of the clock. Store calls answer; `GetNodeByID` finds the node of a listed certificate.
- Renewal.NoRenewalGap: the sweeps keep to the interval; delays of the ticker are not modelled.
- Nonces.NoReplay: the lengths of nonces and tenants are not modelled; the unique index is the one of ops/migrations/0005_stage6_node_lifecycle_replay_audit.sql.
