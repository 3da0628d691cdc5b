/**
 The extra data that accompanies a signed operation on chain: the metadata is split into parallel key
 and value arrays, the signature is marshalled to 65 bytes, and everything is packed in the tuple
 shape the contract decodes.
 */
module ExtraData {
  import opened Bytes
  import opened Abi
  import opened AbiLayout
  import opened AbiProofs
  import opened AbiPack

  datatype MetadataEntry = MetadataEntry(key: Bytes, value: Bytes)

  /** `signature` is the full signature when it is known; `r`, `s` and `v` are its pieces. */
  datatype AuthSignature = AuthSignature(signature: Bytes, v: byte, r: Word32, s: Word32)

  datatype PackError = NegativeUint

  //
  // Signature
  //

  function Marshalled(sig: AuthSignature): (b: Bytes)
    ensures |b| == 65
  {
    if |sig.signature| == 65 then sig.signature else sig.r + sig.s + [sig.v]
  }

  /** A stored signature as it is; otherwise r, s and v one after the other. */
  method Marshal(a: AuthSignature) returns (sig: Bytes)
    ensures sig == Marshalled(a)
    ensures |sig| == 65
    ensures |a.signature| == 65 ==> sig == a.signature
    ensures |a.signature| != 65 ==> sig[..32] == a.r && sig[32..64] == a.s && sig[64] == a.v
  {
    if |a.signature| == 65 {
      return a.signature;
    }
    var buffer := new byte[65];
    forall i | 0 <= i < 32 {
      buffer[i] := a.r[i];
    }
    forall i | 32 <= i < 64 {
      buffer[i] := a.s[i - 32];
    }
    buffer[64] := a.v;
    sig := buffer[..];
    assert sig == a.r + a.s + [a.v];
  }

  /** What a signature is marshalled to: itself when it is stored, and otherwise its pieces. */
  predicate IsMarshalled(b: Bytes, sig: AuthSignature)
  {
    if |sig.signature| == 65 then b == sig.signature
    else |b| == 65 && b[..32] == sig.r && b[32..64] == sig.s && b[64] == sig.v
  }

  lemma MarshalledPieces(sig: AuthSignature)
    ensures forall b :: IsMarshalled(b, sig) <==> b == Marshalled(sig)
  {
    var m := Marshalled(sig);
    if |sig.signature| != 65 {
      assert m[..32] == sig.r && m[32..64] == sig.s;
      forall b: Bytes | IsMarshalled(b, sig) ensures b == m {
        assert b == b[..32] + b[32..64] + [b[64]];
      }
    }
  }

  //
  // Metadata
  //

  function Keys(metadata: seq<MetadataEntry>): (keys: seq<Bytes>)
    ensures |keys| == |metadata|
  {
    seq(|metadata|, i requires 0 <= i < |metadata| => metadata[i].key)
  }

  function Values(metadata: seq<MetadataEntry>): (values: seq<Bytes>)
    ensures |values| == |metadata|
  {
    seq(|metadata|, i requires 0 <= i < |metadata| => metadata[i].value)
  }

  function Zip(keys: seq<Bytes>, values: seq<Bytes>): (metadata: seq<MetadataEntry>)
    requires |keys| == |values|
    ensures |metadata| == |keys|
  {
    seq(|keys|, i requires 0 <= i < |keys| => MetadataEntry(keys[i], values[i]))
  }

  function AllKeys(metadata: seq<seq<MetadataEntry>>): (keys: seq<seq<Bytes>>)
    ensures |keys| == |metadata|
  {
    seq(|metadata|, i requires 0 <= i < |metadata| => Keys(metadata[i]))
  }

  function AllValues(metadata: seq<seq<MetadataEntry>>): (values: seq<seq<Bytes>>)
    ensures |values| == |metadata|
  {
    seq(|metadata|, i requires 0 <= i < |metadata| => Values(metadata[i]))
  }

  /** Arrays of arrays with the same shape. */
  predicate SameShape(keys: seq<seq<Bytes>>, values: seq<seq<Bytes>>) {
    |keys| == |values| && forall i :: 0 <= i < |keys| ==> |keys[i]| == |values[i]|
  }

  function ZipAll(keys: seq<seq<Bytes>>, values: seq<seq<Bytes>>): (metadata: seq<seq<MetadataEntry>>)
    requires SameShape(keys, values)
    ensures |metadata| == |keys|
  {
    seq(|keys|, i requires 0 <= i < |keys| => Zip(keys[i], values[i]))
  }

  lemma ZipOfSplit(metadata: seq<MetadataEntry>)
    ensures Zip(Keys(metadata), Values(metadata)) == metadata
  {
  }

  lemma ZipAllOfSplit(metadata: seq<seq<MetadataEntry>>)
    ensures SameShape(AllKeys(metadata), AllValues(metadata))
    ensures ZipAll(AllKeys(metadata), AllValues(metadata)) == metadata
  {
    forall i | 0 <= i < |metadata| ensures Zip(Keys(metadata[i]), Values(metadata[i])) == metadata[i] {
      ZipOfSplit(metadata[i]);
    }
  }

  method MetadataToStringSlices(metadata: seq<MetadataEntry>) returns (keys: array<Bytes>, values: array<Bytes>)
    ensures fresh(keys) && fresh(values) && keys != values
    ensures keys[..] == Keys(metadata)
    ensures values[..] == Values(metadata)
  {
    keys := new Bytes[|metadata|];
    values := new Bytes[|metadata|];
    for i := 0 to |metadata|
      invariant forall k :: 0 <= k < i ==> keys[k] == metadata[k].key
      invariant forall k :: 0 <= k < i ==> values[k] == metadata[k].value
    {
      keys[i] := metadata[i].key;
      values[i] := metadata[i].value;
    }
  }

  /** The ragged split: one key array and one value array per piece. */
  method SplitPieces(metadata: seq<seq<MetadataEntry>>)
    returns (keysArray: array<seq<Bytes>>, valuesArray: array<seq<Bytes>>)
    ensures keysArray[..] == AllKeys(metadata)
    ensures valuesArray[..] == AllValues(metadata)
  {
    keysArray := new seq<Bytes>[|metadata|];
    valuesArray := new seq<Bytes>[|metadata|];
    for i := 0 to |metadata|
      invariant forall k :: 0 <= k < i ==> keysArray[k] == Keys(metadata[k])
      invariant forall k :: 0 <= k < i ==> valuesArray[k] == Values(metadata[k])
    {
      var keys, values := MetadataToStringSlices(metadata[i]);
      keysArray[i] := keys[..];
      valuesArray[i] := values[..];
    }
  }

  //
  // Argument lists
  //

  const STRINGS := Array(CharString)

  const CREATE_DATA_SET_TYPES: seq<AbiType> := [Address, Uint256, STRINGS, STRINGS, ByteString]

  const ADD_PIECES_TYPES: seq<AbiType> := [Uint256, Array(STRINGS), Array(STRINGS), ByteString]

  const SIGNATURE_TYPES: seq<AbiType> := [ByteString]

  function Strings(ss: seq<Bytes>): Value
  {
    List(seq(|ss|, i requires 0 <= i < |ss| => Text(ss[i])))
  }

  function StringLists(sss: seq<seq<Bytes>>): Value
  {
    List(seq(|sss|, i requires 0 <= i < |sss| => Strings(sss[i])))
  }

  function StringsIn(v: Value): (ss: seq<Bytes>)
    requires HasType(v, STRINGS)
  {
    seq(|v.items|, i requires 0 <= i < |v.items| => v.items[i].text)
  }

  function StringListsIn(v: Value): (sss: seq<seq<Bytes>>)
    requires HasType(v, Array(STRINGS))
  {
    seq(|v.items|, i requires 0 <= i < |v.items| => StringsIn(v.items[i]))
  }

  lemma StringsTyped(ss: seq<Bytes>)
    ensures HasType(Strings(ss), STRINGS) && StringsIn(Strings(ss)) == ss
  {
  }

  lemma StringListsTyped(sss: seq<seq<Bytes>>)
    ensures HasType(StringLists(sss), Array(STRINGS)) && StringListsIn(StringLists(sss)) == sss
  {
    forall i | 0 <= i < |sss| ensures HasType(Strings(sss[i]), STRINGS) && StringsIn(Strings(sss[i])) == sss[i] {
      StringsTyped(sss[i]);
    }
  }

  /** A uint256 argument made from a big integer: a negative one is refused, a large one is reduced. */
  function Uint256Argument(n: int): Result<Value, PackError>
  {
    if n < 0 then Err(NegativeUint) else Ok(Num(n % UINT256_LIMIT))
  }

  function CreateDataSetArguments(
    payer: Address20, id: nat, metadata: seq<MetadataEntry>, signature: AuthSignature): seq<Value>
  {
    [Addr(payer), Num(id % UINT256_LIMIT), Strings(Keys(metadata)), Strings(Values(metadata)),
     Blob(Marshalled(signature))]
  }

  function AddPiecesArguments(nonce: nat, signature: AuthSignature, metadata: seq<seq<MetadataEntry>>): seq<Value>
  {
    [Num(nonce % UINT256_LIMIT), StringLists(AllKeys(metadata)), StringLists(AllValues(metadata)),
     Blob(Marshalled(signature))]
  }

  function SignatureArguments(signature: AuthSignature): seq<Value>
  {
    [Blob(Marshalled(signature))]
  }

  //
  // The encoders
  //

  method EncodeCreateDataSetExtraData(
    payer: Address20, clientDataSetId: int, metadata: seq<MetadataEntry>, signature: AuthSignature)
    returns (r: Result<Bytes, PackError>)
    ensures clientDataSetId < 0 ==> r == Err(NegativeUint)
    ensures clientDataSetId >= 0 ==>
            r == Ok(EncodeList(CreateDataSetArguments(payer, clientDataSetId, metadata, signature)))
  {
    var keys, values := MetadataToStringSlices(metadata);
    var signatureBytes := Marshal(signature);
    var id :- Uint256Argument(clientDataSetId);
    var packed := PackList([Addr(payer), id, Strings(keys[..]), Strings(values[..]), Blob(signatureBytes)]);
    return Ok(packed);
  }

  method EncodeAddPiecesExtraData(nonce: int, signature: AuthSignature, metadata: seq<seq<MetadataEntry>>)
    returns (r: Result<Bytes, PackError>)
    ensures nonce < 0 ==> r == Err(NegativeUint)
    ensures nonce >= 0 ==> r == Ok(EncodeList(AddPiecesArguments(nonce, signature, metadata)))
  {
    var signatureBytes := Marshal(signature);
    var keysArray, valuesArray := SplitPieces(metadata);
    var n :- Uint256Argument(nonce);
    var packed := PackList([n, StringLists(keysArray[..]), StringLists(valuesArray[..]), Blob(signatureBytes)]);
    return Ok(packed);
  }

  method EncodeSchedulePieceRemovalsExtraData(signature: AuthSignature) returns (r: Result<Bytes, PackError>)
    ensures r == Ok(EncodeList(SignatureArguments(signature)))
    ensures |r.value| == 160
  {
    var signatureBytes := Marshal(signature);
    var packed := PackList([Blob(signatureBytes)]);
    SignatureSize(signature);
    return Ok(packed);
  }

  method EncodeDeleteDataSetExtraData(signature: AuthSignature) returns (r: Result<Bytes, PackError>)
    ensures r == Ok(EncodeList(SignatureArguments(signature)))
    ensures |r.value| == 160
  {
    r := EncodeSchedulePieceRemovalsExtraData(signature);
  }

  //
  // What the contract decodes
  //

  datatype CreateDataSetData = CreateDataSetData(
    payer: Bytes, clientDataSetId: nat, keys: seq<Bytes>, values: seq<Bytes>, signature: Bytes)

  datatype AddPiecesData = AddPiecesData(nonce: nat, keys: seq<seq<Bytes>>, values: seq<seq<Bytes>>, signature: Bytes)

  /** `abi.decode(extraData, (address, uint256, string[], string[], bytes))` */
  function DecodeCreateDataSet(data: Bytes): Result<CreateDataSetData, DecodeError>
  {
    var vs :- Unpack(CREATE_DATA_SET_TYPES, data);
    UnpackTyped(CREATE_DATA_SET_TYPES, data, 0);
    assert HasType(vs[0], Address) && HasType(vs[1], Uint256) && HasType(vs[2], STRINGS) && HasType(vs[3], STRINGS)
        && HasType(vs[4], ByteString);
    Ok(CreateDataSetData(vs[0].a, vs[1].n, StringsIn(vs[2]), StringsIn(vs[3]), vs[4].bytes))
  }

  /** `abi.decode(extraData, (uint256, string[][], string[][], bytes))` */
  function DecodeAddPieces(data: Bytes): Result<AddPiecesData, DecodeError>
  {
    var vs :- Unpack(ADD_PIECES_TYPES, data);
    UnpackTyped(ADD_PIECES_TYPES, data, 0);
    assert HasType(vs[0], Uint256) && HasType(vs[1], Array(STRINGS)) && HasType(vs[2], Array(STRINGS))
        && HasType(vs[3], ByteString);
    Ok(AddPiecesData(vs[0].n, StringListsIn(vs[1]), StringListsIn(vs[2]), vs[3].bytes))
  }

  /** `abi.decode(extraData, (bytes))` */
  function DecodeSignature(data: Bytes): Result<Bytes, DecodeError>
  {
    var vs :- Unpack(SIGNATURE_TYPES, data);
    UnpackTyped(SIGNATURE_TYPES, data, 0);
    assert HasType(vs[0], ByteString);
    Ok(vs[0].bytes)
  }

  /** An encoding short enough for its offsets to be words. */
  predicate Addressable(vs: seq<Value>) {
    |EncodeList(vs)| < UINT256_LIMIT
  }

  lemma CreateDataSetTyped(payer: Address20, id: nat, metadata: seq<MetadataEntry>, signature: AuthSignature)
    ensures HaveTypes(CreateDataSetArguments(payer, id, metadata, signature), CREATE_DATA_SET_TYPES)
  {
    StringsTyped(Keys(metadata));
    StringsTyped(Values(metadata));
  }

  lemma AddPiecesTyped(nonce: nat, signature: AuthSignature, metadata: seq<seq<MetadataEntry>>)
    ensures HaveTypes(AddPiecesArguments(nonce, signature, metadata), ADD_PIECES_TYPES)
  {
    StringListsTyped(AllKeys(metadata));
    StringListsTyped(AllValues(metadata));
  }

  /** The contract gets back what was encoded; the id comes back modulo 2^256. */
  lemma CreateDataSetRoundTrip(payer: Address20, id: nat, metadata: seq<MetadataEntry>, signature: AuthSignature)
    requires Addressable(CreateDataSetArguments(payer, id, metadata, signature))
    ensures var r := DecodeCreateDataSet(EncodeList(CreateDataSetArguments(payer, id, metadata, signature)));
            && r == Ok(CreateDataSetData(payer, id % UINT256_LIMIT, Keys(metadata), Values(metadata),
               Marshalled(signature)))
            && Zip(r.value.keys, r.value.values) == metadata
            && (r.value.clientDataSetId == id <==> id < UINT256_LIMIT)
  {
    CreateDataSetTyped(payer, id, metadata, signature);
    var vs := CreateDataSetArguments(payer, id, metadata, signature);
    UnpackInvertsEncode(vs, CREATE_DATA_SET_TYPES, []);
    assert EncodeList(vs) + [] == EncodeList(vs);
    StringsTyped(Keys(metadata));
    StringsTyped(Values(metadata));
    ZipOfSplit(metadata);
  }

  /** Equal bytes come only from equal arguments, ids compared modulo 2^256 and signatures as marshalled. */
  lemma CreateDataSetInjective(
    payer: Address20, id: nat, metadata: seq<MetadataEntry>, signature: AuthSignature,
    payer': Address20, id': nat, metadata': seq<MetadataEntry>, signature': AuthSignature)
    requires Addressable(CreateDataSetArguments(payer, id, metadata, signature))
    ensures (EncodeList(CreateDataSetArguments(payer, id, metadata, signature)) ==
             EncodeList(CreateDataSetArguments(payer', id', metadata', signature'))) <==>
            && payer == payer' && id % UINT256_LIMIT == id' % UINT256_LIMIT && metadata == metadata'
            && Marshalled(signature) == Marshalled(signature')
  {
    if EncodeList(CreateDataSetArguments(payer, id, metadata, signature)) ==
        EncodeList(CreateDataSetArguments(payer', id', metadata', signature')) {
      CreateDataSetRoundTrip(payer, id, metadata, signature);
      CreateDataSetRoundTrip(payer', id', metadata', signature');
    }
  }

  /** The ragged metadata, the nonce and the signature come back, the two arrays with the same shape. */
  lemma AddPiecesRoundTrip(nonce: nat, signature: AuthSignature, metadata: seq<seq<MetadataEntry>>)
    requires Addressable(AddPiecesArguments(nonce, signature, metadata))
    ensures var r := DecodeAddPieces(EncodeList(AddPiecesArguments(nonce, signature, metadata)));
            && r == Ok(AddPiecesData(nonce % UINT256_LIMIT, AllKeys(metadata), AllValues(metadata),
               Marshalled(signature)))
            && SameShape(r.value.keys, r.value.values)
            && ZipAll(r.value.keys, r.value.values) == metadata
            && (r.value.nonce == nonce <==> nonce < UINT256_LIMIT)
  {
    AddPiecesTyped(nonce, signature, metadata);
    var vs := AddPiecesArguments(nonce, signature, metadata);
    UnpackInvertsEncode(vs, ADD_PIECES_TYPES, []);
    assert EncodeList(vs) + [] == EncodeList(vs);
    StringListsTyped(AllKeys(metadata));
    StringListsTyped(AllValues(metadata));
    ZipAllOfSplit(metadata);
  }

  //
  // What the bytes mean at the contract's tuples
  //

  /** The strings are one of the two halves of the entries. */
  predicate KeysOf(v: Value, metadata: seq<MetadataEntry>)
  {
    && v.List? && |v.items| == |metadata|
    && forall i :: 0 <= i < |metadata| ==> v.items[i] == Text(metadata[i].key)
  }

  predicate ValuesOf(v: Value, metadata: seq<MetadataEntry>)
  {
    && v.List? && |v.items| == |metadata|
    && forall i :: 0 <= i < |metadata| ==> v.items[i] == Text(metadata[i].value)
  }

  /** Read as (address, uint256, string[], string[], bytes): payer, id, keys, values and signature, in this order. */
  lemma CreateDataSetTuple(payer: Address20, id: nat, metadata: seq<MetadataEntry>, signature: AuthSignature)
    requires Addressable(CreateDataSetArguments(payer, id, metadata, signature))
    ensures var r := Unpack([Address, Uint256, Array(CharString), Array(CharString), ByteString],
                            EncodeList(CreateDataSetArguments(payer, id, metadata, signature)));
            && r.Ok? && |r.value| == 5
            && r.value[0] == Addr(payer) && r.value[1] == Num(id % UINT256_LIMIT)
            && KeysOf(r.value[2], metadata) && ValuesOf(r.value[3], metadata)
            && r.value[4].Blob? && IsMarshalled(r.value[4].bytes, signature)
  {
    hide EncodeList;
    CreateDataSetTyped(payer, id, metadata, signature);
    var vs := CreateDataSetArguments(payer, id, metadata, signature);
    UnpackInvertsEncode(vs, CREATE_DATA_SET_TYPES, []);
    assert EncodeList(vs) + [] == EncodeList(vs);
    MarshalledPieces(signature);
  }

  /** Read as (uint256, string[][], string[][], bytes): nonce, keys, values and signature, in this order. */
  lemma AddPiecesTuple(nonce: nat, signature: AuthSignature, metadata: seq<seq<MetadataEntry>>)
    requires Addressable(AddPiecesArguments(nonce, signature, metadata))
    ensures var r := Unpack([Uint256, Array(Array(CharString)), Array(Array(CharString)), ByteString],
                            EncodeList(AddPiecesArguments(nonce, signature, metadata)));
            && r.Ok? && |r.value| == 4
            && r.value[0] == Num(nonce % UINT256_LIMIT)
            && r.value[1].List? && r.value[2].List? && |r.value[1].items| == |metadata| == |r.value[2].items|
            && (forall i :: 0 <= i < |metadata| ==>
                  KeysOf(r.value[1].items[i], metadata[i]) && ValuesOf(r.value[2].items[i], metadata[i]))
            && r.value[3].Blob? && IsMarshalled(r.value[3].bytes, signature)
  {
    hide EncodeList;
    AddPiecesTyped(nonce, signature, metadata);
    var vs := AddPiecesArguments(nonce, signature, metadata);
    UnpackInvertsEncode(vs, ADD_PIECES_TYPES, []);
    assert EncodeList(vs) + [] == EncodeList(vs);
    MarshalledPieces(signature);
  }

  /** Read as (bytes): the signature. A stored one comes back byte for byte. */
  lemma SignatureTuple(signature: AuthSignature)
    ensures var r := Unpack([ByteString], EncodeList(SignatureArguments(signature)));
            && r.Ok? && |r.value| == 1 && r.value[0].Blob? && IsMarshalled(r.value[0].bytes, signature)
            && (|signature.signature| == 65 ==> r == Ok([Blob(signature.signature)]))
  {
    hide EncodeList;
    var vs := SignatureArguments(signature);
    SignatureSize(signature);
    UnpackInvertsEncode(vs, SIGNATURE_TYPES, []);
    assert EncodeList(vs) + [] == EncodeList(vs);
    MarshalledPieces(signature);
  }

  //
  // Sizes
  //

  function Padded(s: Bytes): nat
  {
    |s| + PadLength(|s|)
  }

  /** The padded lengths of some strings, added up. */
  function TextSize(ss: seq<Bytes>): nat
  {
    if ss == [] then 0 else Padded(ss[0]) + TextSize(ss[1..])
  }

  /** The size of a `string[][]`: its length word, and an offset, a length and the strings of every row. */
  function RowsSize(sss: seq<seq<Bytes>>): nat
  {
    if sss == [] then 0 else 64 + 64 * |sss[0]| + TextSize(sss[0]) + RowsSize(sss[1..])
  }

  lemma {:induction false} SizeOfStrings(ss: seq<Bytes>)
    ensures Size(Strings(ss)) == 32 + 64 * |ss| + TextSize(ss)
  {
    if ss != [] {
      SizeOfStrings(ss[1..]);
      assert Strings(ss).items[0] == Text(ss[0]) && Strings(ss).items[1..] == Strings(ss[1..]).items;
      assert Size(Strings(ss)) == 32 + ListSize(Strings(ss).items);
    }
  }

  lemma {:induction false} SizeOfStringLists(sss: seq<seq<Bytes>>)
    ensures Size(StringLists(sss)) == 32 + RowsSize(sss)
  {
    if sss != [] {
      SizeOfStrings(sss[0]);
      SizeOfStringLists(sss[1..]);
      assert StringLists(sss).items[1..] == StringLists(sss[1..]).items;
    }
  }

  lemma SignatureSize(signature: AuthSignature)
    ensures |EncodeList(SignatureArguments(signature))| == 160
  {
    var vs := SignatureArguments(signature);
    SizeOfArguments(vs, SIGNATURE_TYPES);
    assert vs[1..] == [];
  }

  /** The signature of a removal or deletion comes back, whatever it is. */
  lemma SignatureRoundTrip(signature: AuthSignature)
    ensures DecodeSignature(EncodeList(SignatureArguments(signature))) == Ok(Marshalled(signature))
  {
    hide EncodeList;
    var vs := SignatureArguments(signature);
    SignatureSize(signature);
    UnpackInvertsEncode(vs, SIGNATURE_TYPES, []);
    assert EncodeList(vs) + [] == EncodeList(vs);
  }

  /** Five heads, three length words and the marshalled signature come to 352 bytes, and every entry adds its own. */
  lemma CreateDataSetSize(payer: Address20, id: nat, metadata: seq<MetadataEntry>, signature: AuthSignature)
    ensures |EncodeList(CreateDataSetArguments(payer, id, metadata, signature))| ==
            352 + 128 * |metadata| + TextSize(Keys(metadata)) + TextSize(Values(metadata))
  {
    var vs := CreateDataSetArguments(payer, id, metadata, signature);
    CreateDataSetTyped(payer, id, metadata, signature);
    SizeOfArguments(vs, CREATE_DATA_SET_TYPES);
    SizeOfStrings(Keys(metadata));
    SizeOfStrings(Values(metadata));
    assert ListSize(vs[5..]) == 0;
    assert ListSize(vs[4..]) == 160;
    assert ListSize(vs[3..]) == 32 + Size(vs[3]) + 160;
    assert ListSize(vs[2..]) == 64 + Size(vs[2]) + Size(vs[3]) + 160;
    assert ListSize(vs[1..]) == 32 + ListSize(vs[2..]);
  }

  lemma AddPiecesSize(nonce: nat, signature: AuthSignature, metadata: seq<seq<MetadataEntry>>)
    ensures |EncodeList(AddPiecesArguments(nonce, signature, metadata))| ==
            320 + RowsSize(AllKeys(metadata)) + RowsSize(AllValues(metadata))
  {
    var vs := AddPiecesArguments(nonce, signature, metadata);
    AddPiecesTyped(nonce, signature, metadata);
    SizeOfArguments(vs, ADD_PIECES_TYPES);
    SizeOfStringLists(AllKeys(metadata));
    SizeOfStringLists(AllValues(metadata));
    assert ListSize(vs[4..]) == 0;
    assert ListSize(vs[3..]) == 160;
    assert ListSize(vs[2..]) == 32 + Size(vs[2]) + 160;
    assert ListSize(vs[1..]) == 64 + Size(vs[1]) + Size(vs[2]) + 160;
  }
}
