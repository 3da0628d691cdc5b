# Verified model of the Filecoin Warm Storage client core

This project models four connected pieces of the Go client and proves what they promise: bytes and messages
that must survive the trip to the chain and back.

* **Extra data** (`Abi`, `AbiLayout`, `AbiWords`, `AbiProofs`, `AbiPack`, `ExtraData`, `MetadataText`). The contract ABI
  encoding of section "Formal Specification of the Encoding" of the Solidity Contract ABI Specification, by a
  head and tail encoder and the offset-following decoder of go-ethereum; then the four extra-data encoders, the
  65-byte signature and the command-line metadata parser, at the exact tuples that the contract decodes.
  Packing any argument list and unpacking it is the identity, every prefix of an encoding either unpacks to the
  packed values or is refused and an explicit extent says which, and every encoding is laid out without overlaps.
* **EIP-712 digests** (`TypedData`, `TypedDataBinding`, `TypedDataConformance`, `TypeOrdering`, `TypeTexts`,
  `TypeLiterals`, `ContractDigest`, `Agreement`). The schema table, `encodeType`, `encodeData`, `hashStruct`, the domain separator and the final digest. Keccak-256
  is an arbitrary function into 32-byte words: nothing assumes that it is injective. Binding is stated over the
  strings that are actually hashed: equal digests of different inputs hand over two different hashed strings with
  one hash. `ContractDigest` is the other side of the wire, the Solidity library that rebuilds the digest from the
  decoded extra data with hand-written type strings; `Agreement` proves that both sides compute the same digest,
  and that the contract arrives at a signed digest exactly for the data that was signed.
* **Revert parser** (`GoText`, `GoSpaces`, `Hex`, `ErrorTable`, `AbiText`, `ErrorSignatures`, `RevertParser`,
  `RevertProofs`, `RevertFrames`, `RevertExtraction`, `RevertTable`). White space trimming down to UTF-8 bytes, the five prioritised patterns for revert data in an
  error message, hex decoding and the table of 117 errors, whose parameters go through the decoder above.
  Printing an error, framing it in a message and parsing the message gives the error back.
* **Log iterator and watcher** (`EventLogs`, `LogIterator`, `LogWatcher`). Two consumers that run concurrently with
  a producer, as step relations over a shared channel. The theorems are over every interleaving; `Next`, `Error`,
  `Close` and the watch loop are then executable members that follow every run of those relations.

Tables, constants and literals are spelled twice: once in the model, and once, in another form, in a theorem that the
model must meet: the error table against its printed signatures, the schema against the contract's type strings, the
tuples against the lists the contract decodes, the markers and white space against their literals and code points.

Strings are Go's: sequences of bytes. Integers are unbounded, and every reduction, range check and truncation of the
source is written out. Panics are outcomes (`Panicked`), and so are errors.

## What the code turns out to do

* The decoder of `UUPSUnsupportedProxiableUUID(bytes32)` asserts `[]byte` where unpacking gives `[32]byte`
  (go/evmerrors/decoders.go:2717), so it panics. `RevertTable.ReportedUnlessWord` shows that it is the only entry of
  the table that cannot be reported, and `RevertTable.WordPanics` that it panics exactly when 32 bytes or more follow.
* `GetSelector` does not know the prefix "0X" that `ParseRevert` accepts. `RevertProofs.GetSelectorAgrees` gives the
  exact condition under which the two look up the same key.
* Blank text is empty to `ParseRevert`, and a prefix alone is too short: `RevertProofs.ParseIgnoresPrefix` says that
  adding an absent prefix keeps the answer exactly when there is text to put it in front of.
* A primary type that the schema does not know, even with its brackets taken away, has an empty type text and no
  fields, so all of these share the digest of an empty message. A bracketed one such as "AddPieces[]" does not: its
  text is that name, a closing parenthesis and the types that `AddPieces` refers to.
  `TypedDataBinding.DigestBinding` is an equivalence that covers all three kinds.
* A uint256 argument of 2^256 or more is reduced by packing, so ids and nonces survive the round trip exactly when
  they are below 2^256. A negative one is refused.
* When a subscription ends with an error, the iterator stops at once, and logs still in the channel are never read.
  `LogIterator.DiscardedExactly` gives the exact condition at the branch that does it: the later calls read the
  channel, up to a log that does not unpack, if and only if no error waits when the error branch is taken or the
  channel is empty by then. `LogIterator.ErrorDiscardsLogs` is a run that loses a log this way.
  `LogIterator.Completeness` says from the producer's behaviour alone when the iterator ends without an error.
  This concerns `Next` over any subscription: the producer that go-ethereum puts behind this iterator only ever ends
  without an error, so for it the condition comes down to every log unpacking.

## Model

| member | source | states |
|---|---|---|
| `Abi.LengthPrefix` | go/eip712/extradata.go:73-81 | the content an offset word points to, when accepted, lies inside the buffer, whatever the words say |
| `Bytes.NumberOfWord` | go/eip712/extradata.go:75-78 | every integer below 2^256 survives the 32-byte big-endian word |
| `Bytes.BigEndianOfNumber` | go/evmerrors/parser.go:39-45 | reading big-endian bytes as a number and writing it back restores them |
| `Bytes.FirstByteCounts` | go/eip712/extradata.go:73-81 | the first byte of a number is the most significant |
| `AbiLayout.Layout` | go/eip712/extradata.go:73-81 | in every packed argument list, each static argument is its own head, each dynamic one has a head that reads as the offset of its tail, tails lie whole inside the buffer, after all heads, in order and disjoint, and nothing follows the last |
| `AbiLayout.ArrayLayout` | go/eip712/extradata.go:110-117 | the same for the elements of every array at every depth, after a length word that reads as the element count |
| `AbiLayout.PaddingIsZero` | go/eip712/extradata.go:110-117 | in every packed argument list, all padding is zero: in front of every address and behind every byte string and string, arrays at any depth included |
| `AbiWords.WordOfValue` | go/eip712/extradata.go:73-81 | the word of a static value is its number, its flag as 1 or 0, twelve zeros and the address, or the 32 bytes, and no other word |
| `AbiWords.WordAccepted` | go/evmerrors/decoders.go:631-653 | which words every static type accepts and as which value; a uint8 above 255 and a bool above 1 are refused, each with its error, and nothing else is |
| `AbiWords.BytesLayout` | go/eip712/extradata.go:110-117 | a byte string is its length, its content and the fewest zero bytes up to a whole word |
| `AbiLayout.ListSizeIsWhole` | go/eip712/extradata.go:110-117 | encodings are whole 32-byte words |
| `AbiLayout.SizeOfArguments` | go/eip712/extradata.go:110-117 | the length of an encoding is a closed form in string lengths and list shapes |
| `AbiProofs.UnpackPlaced` | go/evmerrors/decoders.go:631-653 | a buffer that starts like an encoding unpacks to the packed values if it reaches the extent of the values, and is refused otherwise, whatever follows |
| `AbiProofs.UnpackTruncated` | go/evmerrors/decoders.go:2876-2896 | every prefix of an encoding unpacks to the packed values or is refused, never to other values; the extent decides |
| `AbiProofs.UnpackInvertsEncode` | go/eip712/extradata.go:73-81 | unpacking inverts packing for all argument lists of all types, ragged arrays of arrays included |
| `AbiProofs.UnpackNeedsAllHeads` | go/evmerrors/decoders.go:770-792 | arbitrary bytes shorter than one word per parameter are refused |
| `AbiProofs.EncodeInjective` | go/eip712/extradata.go:73-81 | different argument lists of the same types have different encodings |
| `AbiProofs.UnpackTyped` | go/evmerrors/decoders.go:906-933 | whatever unpacks has the declared types, so the decoders' assertions meet well-typed values |
| `AbiPack.PackList` | go/eip712/extradata.go:73-81 | one pass that appends heads and tails and carries the next offset computes the recursive encoding |
| `AbiPack.PackValue` | go/eip712/extradata.go:73-81 | the same for a single value, arrays nested to any depth |
| `ExtraData.Marshal` | go/eip712/signature.go:18-30 | a stored 65-byte signature as it is; otherwise a buffer filled in place with r, s and v, at 0, 32 and 64 |
| `ExtraData.MarshalledPieces` | go/eip712/signature.go:18-30 | the marshalled signature is the only byte string that is the stored one, or has r, s and v at 0, 32 and 64 when none is stored |
| `ExtraData.MetadataToStringSlices` | go/eip712/extradata.go:164-172 | the loop fills two fresh slices with all keys and all values in order |
| `ExtraData.SplitPieces` | go/eip712/extradata.go:91-103 | the ragged split gives one key list and one value list per piece |
| `ExtraData.ZipAllOfSplit` | go/eip712/extradata.go:91-103 | the ragged arrays have one shape, and zipping them pointwise restores the metadata |
| `ExtraData.EncodeCreateDataSetExtraData` | go/eip712/extradata.go:53-82 | the encoder's bytes are the encoding of payer, id, keys, values and marshalled signature; a negative id is refused |
| `ExtraData.EncodeAddPiecesExtraData` | go/eip712/extradata.go:86-118 | the encoder's bytes are the encoding of nonce, ragged keys, ragged values and marshalled signature; a negative nonce is refused |
| `ExtraData.EncodeSchedulePieceRemovalsExtraData` | go/eip712/extradata.go:122-135 | the encoded signature alone, always 160 bytes |
| `ExtraData.EncodeDeleteDataSetExtraData` | go/eip712/extradata.go:138-143 | the same bytes as for a removal |
| `ExtraData.CreateDataSetRoundTrip` | go/eip712/extradata.go:53-82 | decoding at the contract's tuple returns payer, id, metadata and signature; the id is the same exactly when it is below 2^256 |
| `ExtraData.CreateDataSetInjective` | go/eip712/extradata.go:53-82 | two calls give the same bytes exactly when all their arguments agree |
| `ExtraData.AddPiecesRoundTrip` | go/eip712/extradata.go:86-118 | decoding returns nonce, signature and two arrays of one shape whose pointwise zip is the metadata |
| `ExtraData.SignatureSize` | go/eip712/extradata.go:122-143 | a removal or deletion is 160 bytes for every signature |
| `ExtraData.SignatureRoundTrip` | go/eip712/extradata.go:122-143 | decoding a removal or deletion at the contract's tuple returns the marshalled signature |
| `ExtraData.CreateDataSetTuple` | service_contracts/src/FilecoinWarmStorageService.sol:1442 | unpacked at (address, uint256, string[], string[], bytes) spelled out, the data is payer, id, all keys, all values and the signature, in this order |
| `ExtraData.AddPiecesTuple` | service_contracts/src/FilecoinWarmStorageService.sol:840 | unpacked at (uint256, string[][], string[][], bytes) spelled out, the data is nonce, the keys and the values of every piece and the signature, in this order |
| `ExtraData.SignatureTuple` | service_contracts/src/FilecoinWarmStorageService.sol:922 | unpacked at (bytes), the data is the signature, and a stored one comes back byte for byte |
| `ExtraData.CreateDataSetSize` | go/eip712/extradata.go:73-81 | 352 bytes, 128 for every entry and the padded texts |
| `ExtraData.AddPiecesSize` | go/eip712/extradata.go:110-117 | the closed form for ragged metadata |
| `MetadataText.SplitAtEquals` | go/eip712/extradata.go:150-154 | two parts exactly when there is an equals sign, rejoining to the entry, the first without one |
| `MetadataText.ParseMetadataEntries` | go/eip712/extradata.go:147-160 | the loop with early return gives the parsed list or the first entry without an equals sign |
| `MetadataText.ParseThenRender` | go/eip712/extradata.go:147-160 | parsing succeeds exactly when every entry has an equals sign, and rendering then restores the entries |
| `MetadataText.RenderThenParse` | go/eip712/extradata.go:147-160 | rendered metadata parses to itself exactly when no key has an equals sign |
| `MetadataText.FirstBadEntry` | go/eip712/extradata.go:150-154 | the entry complained of is the first without an equals sign |
| `MetadataText.CommandLineToChain` | go/eip712/extradata.go:53-82 | entries that parse are read off the encoded extra data again, unchanged |
| `TypedDataBinding.TableIsWellFormed` | go/eip712/types.go:55-91 | every struct type of the schema has a plain name and fields, all named differently |
| `TypeTexts.TableRows` | go/eip712/types.go:55-91 | every row of the schema, field by field |
| `TypeTexts.NoOtherRows` | go/eip712/types.go:55-91 | the schema has these eight rows and no other |
| `TypedDataConformance.FieldConforms` | go/eip712/types.go:154 | a value encodes exactly when it conforms to its type: right kind, in range, all elements and exactly the fields of its struct, to any depth |
| `TypedDataConformance.DigestExists` | go/eip712/types.go:134-162 | a digest exists exactly for a domain with its four parts, no salt and a chain id in range, and a message that conforms to its primary type |
| `TypedDataConformance.NamesAreLexicographic` | go/eip712/types.go:132 | names are ordered by their first difference, a shorter one first |
| `TypeOrdering.DependenciesComplete` | go/eip712/types.go:132 | the dependency search finds a type and everything it refers to, once each |
| `TypeOrdering.DependenciesNeeded` | go/eip712/types.go:132 | and it finds nothing outside any set of types closed under reference |
| `TypeOrdering.TypeOrderExact` | go/eip712/types.go:132 | for every schema, the order of struct types in `encodeType` is the primary type as it is named, then exactly the other types that it, without brackets, refers to, ascending and without repeats |
| `TypeLiterals.AddPiecesTextAgrees` | service_contracts/src/lib/SignatureVerificationLib.sol:28-32 | the type text computed from the schema is the string that the contract hashes, referenced types in the same order |
| `TypeLiterals.SplitTextsAgree` | service_contracts/src/lib/SignatureVerificationLib.sol:19-26 | the same for the creation of a data set and the metadata of a piece |
| `TypeLiterals.LeafTextsAgree` | service_contracts/src/lib/SignatureVerificationLib.sol:17-35 | the same for the domain, an entry, a piece's data and a removal |
| `TypeLiterals.DeleteDataSetLiteral` | go/eip712/types.go:88-90 | the type text of a deletion is "DeleteDataSet(uint256 clientDataSetId)" |
| `TypedDataBinding.TypeTextBinding` | go/eip712/types.go:142-147 | equal type texts come from equal type names, bracketed ones included |
| `TypedDataBinding.FieldBinding` | go/eip712/types.go:154 | equal field words come from equal values, by induction through nested structs and arrays, unless two hashed strings collide |
| `TypedDataBinding.ItemsBinding` | go/eip712/types.go:154 | equal array words of equally long arrays come from equal elements |
| `TypedDataBinding.DataBinding` | go/eip712/types.go:154 | equal `encodeData` results come from equal messages, without stray fields |
| `TypedDataBinding.StructBinding` | go/eip712/types.go:119-132 | for every well-formed schema, equal struct hashes come from the same type and message, types unknown even without brackets apart |
| `TypedDataBinding.DomainComplete` | go/eip712/types.go:110-117 | a domain that hashes under the domain row of the table has all its four parts and no salt |
| `TypedDataBinding.DigestBinding` | go/eip712/types.go:134-162 | digests are equal exactly when domain, primary type and message are, if no hashed strings collide |
| `TypedDataBinding.DigestCollision` | go/eip712/types.go:134-162 | equal digests of different inputs give two different hashed strings with the same hash |
| `Agreement.DomainSeparatorAgrees` | service_contracts/src/FilecoinWarmStorageService.sol:396 | signer and contract compute one domain separator |
| `Agreement.AddPiecesHash` | service_contracts/src/lib/SignatureVerificationLib.sol:85-100 | the contract's struct hash of split arrays is the signer's `hashStruct` of nested messages |
| `Agreement.CreateDataSetHash` | service_contracts/src/lib/SignatureVerificationLib.sol:67-75 | the same for a data set's creation |
| `Agreement.AddPiecesAgrees` | go/eip712/extradata.go:86-118 | decoding the extra data and adding the call's id and pieces, the contract arrives at the digest of the signed message with pieces numbered by position |
| `Agreement.AddPiecesBinds` | go/eip712/types.go:134-162 | and it arrives at a signed digest exactly when that message has the call's id, nonce, pieces and metadata |
| `Agreement.CreateDataSetAgrees` | service_contracts/src/FilecoinWarmStorageService.sol:1556-1572 | the contract arrives at the signed digest of a data set's creation |
| `Agreement.CreateDataSetBinds` | service_contracts/src/FilecoinWarmStorageService.sol:1556-1572 | exactly for the id, payee and metadata that were signed |
| `Agreement.SchedulePieceRemovalsAgrees` | service_contracts/src/FilecoinWarmStorageService.sol:1605-1622 | the digest of a removal is the contract's, for every list of ids, and the signature decoded from the extra data is the marshalled one |
| `Agreement.SchedulePieceRemovalsBinds` | service_contracts/src/FilecoinWarmStorageService.sol:1605-1622 | the contract arrives at a signed digest exactly for the id and the piece ids that were signed |
| `Agreement.DeleteDataSetHash` | go/eip712/types.go:88-90 | a deletion hashes to the hash of its literal type text and its id, for every id |
| `Agreement.DeleteDataSetDigest` | go/eip712/types.go:134-162 | and the digest that is signed for it, under the domain separator of the contract |
| `ContractDigest.RevertsUnlessSameShape` | service_contracts/src/lib/SignatureVerificationLib.sol:57-131 | the contract has a digest exactly for keys and values of one shape, and otherwise reverts |
| `GoText.IndexIsFirst` | go/evmerrors/parser.go:88-116 | the search finds an occurrence, and none lies before it |
| `GoText.TrimIgnoresBlanks` | go/evmerrors/parser.go:20 | white space around a text, ASCII or Unicode, makes no difference to the trimmed text |
| `GoText.TrimmedIsTrimmed` | go/evmerrors/parser.go:20 | trimming twice is trimming once, and leaves no white space at either end |
| `GoSpaces.TrimsCharacters` | go/evmerrors/parser.go:20 | trimming UTF-8 text takes off its two ends exactly the characters that Unicode calls white space, for all code points |
| `GoText.IndexAfter` | go/evmerrors/parser.go:88-109 | a marker after text without it is found where it stands: no occurrence straddles the two |
| `Hex.DecodeInvertsHexOf` | go/evmerrors/parser.go:42-45 | decoding the printed hex of any bytes restores them |
| `Hex.HexOfInvertsDecode` | go/evmerrors/parser.go:42-45 | printing what was decoded restores the digits in lower case |
| `Hex.HexAlphabet` | go/evmerrors/parser.go:143-147 | the digits are those of both cases, with these values, and those in lower case are written |
| `RevertParser.ExtractFirstHexString` | go/evmerrors/parser.go:124-140 | the loop returns the prefix and the maximal run of digits after it |
| `RevertParser.ExtractHexData` | go/evmerrors/parser.go:80-121 | the five patterns in order of priority, as a function of the message |
| `RevertParser.ParseRevertFromError` | go/evmerrors/parser.go:69-77 | no revert data in the message is an error, else it is parsed |
| `RevertProofs.SelectorKeys` | go/evmerrors/decoders.go:17-135 | the table's text keys stand for their selectors one to one, lower case only |
| `RevertProofs.ParseOfText` | go/evmerrors/parser.go:19-57 | a printed error goes to the decoder of its selector with exactly its data |
| `RevertProofs.RevertRoundTrip` | go/evmerrors/parser.go:19-57 | printed and parsed, every error of the table comes back with its parameters, or panics when an assertion is wrong |
| `RevertProofs.RevertTruncated` | go/evmerrors/decoders.go:906-933 | cut parameter data gives the same error or a refusal, never other parameters; the extent decides |
| `RevertProofs.RevertNeedsAllHeads` | go/evmerrors/decoders.go:631-653 | less than 32 bytes per parameter is refused, for all entries and all bytes |
| `RevertProofs.ParseIgnoresBlanks` | go/evmerrors/parser.go:20 | surrounding white space makes no difference |
| `RevertProofs.ParseIgnoresPrefix` | go/evmerrors/parser.go:20-28 | adding an absent "0x" or "0X" makes no difference if and only if the text is not blank |
| `RevertProofs.ParseIgnoresCase` | go/evmerrors/parser.go:19-57 | for every input, with or without white space and prefix, the letter case of the digits after the selector makes no difference |
| `RevertProofs.KeyDecides` | go/evmerrors/parser.go:30-56 | the reported error or unknown selector is the one of the key looked up |
| `RevertProofs.RefusedText` | go/evmerrors/parser.go:20-46 | for every input: empty exactly when blank, too short exactly below eight digits, invalid hex exactly when what follows them is not the hex of whole bytes |
| `RevertProofs.AcceptedText` | go/evmerrors/parser.go:36-56 | every other input goes to the decoder of its first eight digits with exactly its data, or is an unknown selector with that key |
| `RevertProofs.GetSelectorAgrees` | go/evmerrors/parser.go:160-171 | `GetSelector` returns the key looked up exactly when the trimmed text has no capital prefix, is too short or repeats the capital prefix |
| `RevertFrames.FramedExtraction` | go/evmerrors/parser.go:80-140 | for all five patterns, extraction returns exactly the framed hex text, whatever text is in front that hides no earlier match and whatever is behind that does not go on with digits |
| `RevertFrames.EndToEnd` | go/evmerrors/parser.go:69-77 | encoded, printed, framed and parsed, every error of the table comes back with its parameters |
| `RevertExtraction.ExtractionCharacterised` | go/evmerrors/parser.go:80-146 | extraction is empty exactly for messages without "0x"; it is the whole trimmed message when that starts with "0x", and otherwise a piece of the message, "0x" and a maximal run of digits |
| `RevertExtraction.NoDataReported` | go/evmerrors/parser.go:69-77 | a message is reported as one without revert data exactly when it has no "0x"; any other is parsed |
| `RevertExtraction.TrimKeepsHex` | go/evmerrors/parser.go:81-84 | trimming neither removes nor makes a "0x" |
| `ErrorSignatures.TableAsPrinted` | go/evmerrors/decoders.go:17-135 | the table has exactly the 117 printed entries, each with its printed name and parameter types, spelled out a second time as text |
| `RevertTable.OneWrongAssertion` | go/evmerrors/decoders.go:2699-2719 | of all entries only the `bytes32` one asserts a type that unpacking does not give |
| `RevertTable.ReportedUnlessWord` | go/evmerrors/decoders.go:17-135 | every entry is reported with its parameters if and only if it is not the `bytes32` one, which panics |
| `RevertTable.WordPanics` | go/evmerrors/decoders.go:2699-2719 | that entry panics exactly when 32 bytes or more follow its selector |
| `EventLogs.FeedStepKeeps` | go/bindings/session_key_registry.go:284-285 | no producer step loses or reorders a log, and none touches the channel after the end |
| `LogIterator.Reachable` | go/bindings/session_key_registry.go:293-330 | what every interleaving of consumer, producer and closing keeps |
| `LogIterator.Conservation` | go/bindings/session_key_registry.go:293-330 | delivered events, at most one log lost to a failed unpacking, buffered and unsent logs are the producer's sequence in order |
| `LogIterator.DeliveredEvents` | go/bindings/session_key_registry.go:302-308 | in every run, each delivered event holds its raw log and the five fields unpacked from it, and the event field is the one delivered last or what a failed unpacking left |
| `LogIterator.Completeness` | go/bindings/session_key_registry.go:297-328 | in every run, `Next` answers `false` without an error if and only if the subscription ended without one or was closed and every log sent unpacks, and then every log sent is delivered; not closed, if and only if the end was without error and every log unpacks, and then every log is delivered |
| `LogIterator.DiscardedExactly` | go/bindings/session_key_registry.go:325-328 | whenever the error branch is taken, the channel is read to its end or to a log that does not unpack if and only if no error waits or the channel is empty; otherwise it keeps all its logs for good |
| `LogIterator.ErrorDiscardsLogs` | go/bindings/session_key_registry.go:325-328 | a run whose subscription fails with a log in the channel: the only answer is `false`, and the log is not delivered |
| `LogIterator.AnswersAreTrueThenFalse` | go/bindings/session_key_registry.go:293-330 | `Next` answers `true` once for each delivered event and then only `false`, at most as many as there are logs |
| `LogIterator.FinishedIsFinal` | go/bindings/session_key_registry.go:294-297 | after a failure, or drained, no later call delivers, takes or changes anything |
| `LogIterator.DepthAtMostOne` | go/bindings/session_key_registry.go:325-328 | the self-call of `Next` does not nest further, in any run |
| `LogIterator.EveryCallReturns` | go/bindings/session_key_registry.go:293-330 | between calls every run is bounded, and where it cannot go on `Next` has returned |
| `LogIterator.AuthorizationsUpdatedIterator.Next` | go/bindings/session_key_registry.go:293-330 | one call, self-call included, for every schedule of its own steps and of whatever the environment does in between: it ends where that run of the step relation ends, `true` with the event of the next log of all, its raw log attached, `false` only when failed or drained |
| `LogIterator.AuthorizationsUpdatedIterator.Receive` | go/bindings/session_key_registry.go:302-308 | the log in front is taken; if it unpacks, the event field holds it and its fields, and otherwise its fault is the failure |
| `LogIterator.AuthorizationsUpdatedIterator.Error` | go/bindings/session_key_registry.go:333-335 | the failure of the run |
| `LogIterator.AuthorizationsUpdatedIterator.Close` | go/bindings/session_key_registry.go:339-342 | a running producer is asked to stop, does whatever it still does and has ended when the call returns, with all logs kept; a producer that has ended keeps its waiting error, and a second call does nothing |
| `LogWatcher.Reachable` | go/bindings/session_key_registry.go:385-410 | what every interleaving of the loop, the producer and quitting keeps |
| `LogWatcher.Conservation` | go/bindings/session_key_registry.go:385-410 | the sink is an in-order prefix of the events of all logs, and at most one log taken is missing, only after the loop returned |
| `LogWatcher.SinkEvents` | go/bindings/session_key_registry.go:389-398 | in every run, each event on the sink holds its raw log and the five fields unpacked from it |
| `LogWatcher.ResultExplained` | go/bindings/session_key_registry.go:385-410 | the loop releases the subscription exactly when it returns, and its result is from quitting, the subscription or the log that failed |
| `LogWatcher.ReturnIsFinal` | go/bindings/session_key_registry.go:386 | after returning neither sink nor channel is touched |
| `LogWatcher.QuittingReturns` | go/bindings/session_key_registry.go:398-408 | runs are bounded, and quitting or the subscription's end returns the loop even while the sink accepts nothing |
| `LogWatcher.Watcher.Forward` | go/bindings/session_key_registry.go:397-403 | the inner select follows the schedule to the sink, the subscription's end or the quit signal, and holds on to the event only where the schedule ends |
| `LogWatcher.Watcher.Watch` | go/bindings/session_key_registry.go:385-410 | the loop, for every schedule of its own steps and of whatever the environment does in between: the events on the sink, the result and the release of the subscription are those of that run of the step relation |
| `LogWatcher.Watcher.Pass` | go/bindings/session_key_registry.go:387-409 | one pass, outer and inner select, takes the steps that the schedule has next |

## Left out

- Nested ABI tuples and fixed-size arrays: no argument of these files has one.
- Encodings of 2^256 bytes or more: `Addressable` asks for shorter ones, which every Go slice is; beyond it offsets would no longer be words.
- EIP2612PermitTypes: a second schema table that these functions do not use.
- Nil `*big.Int` arguments: every integer here has a value.
- go-ethereum's validation of custom schemas and of an empty domain, which `HashStruct` outside `GetMessageHash` can meet: the library is not part of this model.
- The letter case of `verifyingContract`: domains are compared by address, not by its checksummed text.
- Keccak-256, ECDSA and selector computation: the hash is an arbitrary function, signatures are 65 bytes and selectors are the table's keys.
- Unpacking a log: an arbitrary function from logs to an event and an optional error, which covers every behaviour of the generated unpacker.
- Subscription internals of go-ethereum beyond sending, ending, asking to stop and the closed error channel; the channel is a bounded queue, and one that holds nothing is not part of `LogIterator.EveryCallReturns`.
- The subscription object that `WatchAuthorizationsUpdated` returns and the goroutine that runs its loop: `LogWatcher.Watcher.Watch` is the loop's function alone.
- Abi.DecodeWord: address padding is ignored as go-ethereum does; the stricter check of the contract's own decoder is left out, and canonical encodings pass both.
- Field names and wording of errors, `MustParseRevert`, JSON tags, the other event iterators and all forwarding wrappers of the bindings: they would add only easy members.
- The Solidity contracts beyond rebuilding the digest.
