/**
 The digest on the other side: what the contract computes from the decoded extra data, struct hash by
 struct hash with its own type texts, and checks the signature against.
 */
module ContractDigest {
  import opened Bytes
  import opened Abi
  import opened TypedData
  import opened ExtraData

  datatype ContractRevert = LengthMismatch

  //
  // Type texts as the contract spells them
  //

  function DomainType(): string
  {
    "EIP712Domain(" + ("string name," + ("string version," + ("uint256 chainId," + "address verifyingContract)")))
  }

  function MetadataEntryType(): string { "MetadataEntry(" + ("string key," + "string value)") }

  function CreateDataSetType(): string
  {
    "CreateDataSet(" + ("uint256 clientDataSetId," + ("address payee," + "MetadataEntry[] metadata)")) +
    ("MetadataEntry(" + ("string key," + "string value)"))
  }

  function CidType(): string { "Cid(" + "bytes data)" }

  function PieceMetadataType(): string
  {
    "PieceMetadata(" + ("uint256 pieceIndex," + "MetadataEntry[] metadata)") +
    ("MetadataEntry(" + ("string key," + "string value)"))
  }

  function AddPiecesType(): string
  {
    "AddPieces(" +
      ("uint256 clientDataSetId," + ("uint256 nonce," + ("Cid[] pieceData," + "PieceMetadata[] pieceMetadata)"))) +
    (("Cid(" + "bytes data)") +
     (("MetadataEntry(" + ("string key," + "string value)")) +
      ("PieceMetadata(" + ("uint256 pieceIndex," + "MetadataEntry[] metadata)"))))
  }

  function SchedulePieceRemovalsType(): string
  {
    "SchedulePieceRemovals(" + ("uint256 clientDataSetId," + "uint256[] pieceIds)")
  }

  // The name and the version the contract was initialised with.
  const CONTRACT_NAME := Ascii("FilecoinWarmStorageService")
  const CONTRACT_VERSION := Ascii("1")

  function TypeHash(h: Keccak, text: string): Value
  {
    Fixed(h(TextBytes(text)))
  }

  /** `abi.encodePacked` of an array of words. */
  function Packed(words: seq<Word32>): (b: Bytes)
    ensures |b| == 32 * |words|
  {
    if words == [] then [] else words[0] + Packed(words[1..])
  }

  function HashMetadataEntry(h: Keccak, key: Bytes, value: Bytes): Word32
  {
    h(EncodeList([TypeHash(h, MetadataEntryType()), Fixed(h(key)), Fixed(h(value))]))
  }

  function EntryHashes(h: Keccak, keys: seq<Bytes>, values: seq<Bytes>): seq<Word32>
    requires |keys| == |values|
  {
    if keys == [] then [] else [HashMetadataEntry(h, keys[0], values[0])] + EntryHashes(h, keys[1..], values[1..])
  }

  function HashMetadataEntries(h: Keccak, keys: seq<Bytes>, values: seq<Bytes>): Result<Word32, ContractRevert>
  {
    if |keys| != |values| then Err(LengthMismatch) else Ok(h(Packed(EntryHashes(h, keys, values))))
  }

  function CreateDataSetStructHash(
    h: Keccak, id: nat, payee: Address20, keys: seq<Bytes>, values: seq<Bytes>): Result<Word32, ContractRevert>
  {
    var entries :- HashMetadataEntries(h, keys, values);
    Ok(h(EncodeList([TypeHash(h, CreateDataSetType()), Num(id), Addr(payee), Fixed(entries)])))
  }

  function CidHashes(h: Keccak, pieceData: seq<Bytes>): seq<Word32>
  {
    if pieceData == [] then []
    else [h(EncodeList([TypeHash(h, CidType()), Fixed(h(pieceData[0]))]))] + CidHashes(h, pieceData[1..])
  }

  function HashPieceMetadata(
    h: Keccak, index: nat, keys: seq<Bytes>, values: seq<Bytes>): Result<Word32, ContractRevert>
  {
    var entries :- HashMetadataEntries(h, keys, values);
    Ok(h(EncodeList([TypeHash(h, PieceMetadataType()), Num(index), Fixed(entries)])))
  }

  /** The hashes of the pieces from `index` on. */
  function PieceHashes(
    h: Keccak, index: nat, keys: seq<seq<Bytes>>, values: seq<seq<Bytes>>): Result<seq<Word32>, ContractRevert>
    requires |keys| == |values|
    decreases keys
  {
    if keys == [] then Ok([])
    else
      var first :- HashPieceMetadata(h, index, keys[0], values[0]);
      var rest :- PieceHashes(h, index + 1, keys[1..], values[1..]);
      Ok([first] + rest)
  }

  function HashAllPieceMetadata(
    h: Keccak, keys: seq<seq<Bytes>>, values: seq<seq<Bytes>>): Result<Word32, ContractRevert>
  {
    if |keys| != |values| then Err(LengthMismatch)
    else
      var hashes :- PieceHashes(h, 0, keys, values);
      Ok(h(Packed(hashes)))
  }

  function AddPiecesStructHash(
    h: Keccak, id: nat, nonce: nat, pieceData: seq<Bytes>, keys: seq<seq<Bytes>>, values: seq<seq<Bytes>>)
    : Result<Word32, ContractRevert>
  {
    var pieces :- HashAllPieceMetadata(h, keys, values);
    Ok(h(EncodeList([
      TypeHash(h, AddPiecesType()), Num(id), Num(nonce), Fixed(h(Packed(CidHashes(h, pieceData)))), Fixed(pieces)])))
  }

  function IdWords(ids: seq<nat>): seq<Word32>
  {
    if ids == [] then [] else [Word(ids[0])] + IdWords(ids[1..])
  }

  function SchedulePieceRemovalsStructHash(h: Keccak, id: nat, pieceIds: seq<nat>): Word32
  {
    h(EncodeList([TypeHash(h, SchedulePieceRemovalsType()), Num(id), Fixed(h(Packed(IdWords(pieceIds))))]))
  }

  /** The domain separator the contract was set up with, on its chain and at its address. */
  function DomainSeparator(h: Keccak, chainId: nat, self: Address20): Word32
  {
    h(EncodeList([
      TypeHash(h, DomainType()), Fixed(h(CONTRACT_NAME)), Fixed(h(CONTRACT_VERSION)), Num(chainId), Addr(self)]))
  }

  function TypedDataDigest(h: Keccak, chainId: nat, self: Address20, structHash: Word32): Word32
  {
    h([0x19, 0x01] + DomainSeparator(h, chainId, self) + structHash)
  }

  /** `verifyCreateDataSetSignature`: the digest of decoded extra data and the payee looked up on chain. */
  function CreateDataSetDigest(h: Keccak, chainId: nat, self: Address20, payee: Address20, d: CreateDataSetData)
    : Result<Word32, ContractRevert>
  {
    var structHash :- CreateDataSetStructHash(h, d.clientDataSetId, payee, d.keys, d.values);
    Ok(TypedDataDigest(h, chainId, self, structHash))
  }

  /** `verifyAddPiecesSignature`: the digest of decoded extra data with the data set and pieces of the call. */
  function AddPiecesDigest(
    h: Keccak, chainId: nat, self: Address20, id: nat, pieceData: seq<Bytes>, d: AddPiecesData)
    : Result<Word32, ContractRevert>
  {
    var structHash :- AddPiecesStructHash(h, id, d.nonce, pieceData, d.keys, d.values);
    Ok(TypedDataDigest(h, chainId, self, structHash))
  }

  /** `verifySchedulePieceRemovalsSignature`: the digest of the data set and the pieces of the call. */
  function SchedulePieceRemovalsDigest(h: Keccak, chainId: nat, self: Address20, id: nat, pieceIds: seq<nat>): Word32
  {
    TypedDataDigest(h, chainId, self, SchedulePieceRemovalsStructHash(h, id, pieceIds))
  }

  lemma {:induction false} PiecesHash(h: Keccak, index: nat, keys: seq<seq<Bytes>>, values: seq<seq<Bytes>>)
    requires |keys| == |values|
    ensures PieceHashes(h, index, keys, values).Ok? <==> forall i :: 0 <= i < |keys| ==> |keys[i]| == |values[i]|
    decreases keys
  {
    hide EncodeList, PieceMetadataType, EntryHashes;
    if keys != [] {
      PiecesHash(h, index + 1, keys[1..], values[1..]);
      assert forall i :: 1 <= i < |keys| ==> keys[i] == keys[1..][i - 1] && values[i] == values[1..][i - 1];
    }
  }

  /** Decoded extra data has a digest exactly when its keys and values have one shape; otherwise the call reverts. */
  lemma RevertsUnlessSameShape(h: Keccak, chainId: nat, self: Address20, payee: Address20, id: nat,
                               pieceData: seq<Bytes>, created: CreateDataSetData, added: AddPiecesData)
    ensures CreateDataSetDigest(h, chainId, self, payee, created).Ok? <==> |created.keys| == |created.values|
    ensures AddPiecesDigest(h, chainId, self, id, pieceData, added).Ok? <==> SameShape(added.keys, added.values)
  {
    hide EncodeList, PieceHashes, EntryHashes, CidHashes, AddPiecesType, CreateDataSetType, TypedDataDigest;
    if |added.keys| == |added.values| {
      PiecesHash(h, 0, added.keys, added.values);
    }
  }
}
