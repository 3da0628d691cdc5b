/**
 Signer and contract agree: the digest that the contract computes from the extra data it decodes is
 the digest of the typed-data message that was signed, and of no other message.
 */
module Agreement {
  import opened Bytes
  import opened Abi
  import opened AbiLayout
  import opened TypedData
  import opened TypedDataBinding
  import opened TypeTexts
  import opened TypeLiterals
  import opened ExtraData
  import opened ContractDigest

  //
  // Messages
  //

  function EntryMessage(e: MetadataEntry): Datum
  {
    Struct(map["key" := Str(e.key), "value" := Str(e.value)])
  }

  function EntryMessages(metadata: seq<MetadataEntry>): (items: seq<Datum>)
    ensures |items| == |metadata|
  {
    if metadata == [] then [] else [EntryMessage(metadata[0])] + EntryMessages(metadata[1..])
  }

  function CreateDataSetMessage(id: int, payee: Address20, metadata: seq<MetadataEntry>): Datum
  {
    Struct(map["clientDataSetId" := Uint(id), "payee" := Account(payee), "metadata" := Items(EntryMessages(metadata))])
  }

  /** The metadata that is signed for one piece. */
  datatype PieceMetadata = PieceMetadata(pieceIndex: int, metadata: seq<MetadataEntry>)

  function PieceMessage(p: PieceMetadata): Datum
  {
    Struct(map["pieceIndex" := Uint(p.pieceIndex), "metadata" := Items(EntryMessages(p.metadata))])
  }

  function PieceMessages(pieces: seq<PieceMetadata>): (items: seq<Datum>)
    ensures |items| == |pieces|
  {
    if pieces == [] then [] else [PieceMessage(pieces[0])] + PieceMessages(pieces[1..])
  }

  function CidMessage(data: Bytes): Datum
  {
    Struct(map["data" := Raw(data)])
  }

  function CidMessages(pieceData: seq<Bytes>): (items: seq<Datum>)
    ensures |items| == |pieceData|
  {
    if pieceData == [] then [] else [CidMessage(pieceData[0])] + CidMessages(pieceData[1..])
  }

  function AddPiecesMessage(id: int, nonce: int, pieceData: seq<Bytes>, pieces: seq<PieceMetadata>): Datum
  {
    Struct(map[
      "clientDataSetId" := Uint(id), "nonce" := Uint(nonce),
      "pieceData" := Items(CidMessages(pieceData)), "pieceMetadata" := Items(PieceMessages(pieces))])
  }

  function SchedulePieceRemovalsMessage(id: int, pieceIds: seq<int>): Datum
  {
    Struct(map["clientDataSetId" := Uint(id), "pieceIds" := Items(IdMessages(pieceIds))])
  }

  function IdMessages(ids: seq<int>): (items: seq<Datum>)
    ensures |items| == |ids|
  {
    if ids == [] then [] else [Uint(ids[0])] + IdMessages(ids[1..])
  }

  /** The pieces numbered by their positions, as the carried metadata stands for them. */
  function Numbered(index: nat, metadata: seq<seq<MetadataEntry>>): (pieces: seq<PieceMetadata>)
    ensures |pieces| == |metadata|
    decreases metadata
  {
    if metadata == [] then [] else [PieceMetadata(index, metadata[0])] + Numbered(index + 1, metadata[1..])
  }

  //
  // abi.encode of words
  //

  function Concat(vs: seq<Value>): Bytes
  {
    if vs == [] then [] else EncodeValue(vs[0]) + Concat(vs[1..])
  }

  lemma {:induction false} StaticHeads(vs: seq<Value>, offset: nat)
    requires forall v :: v in vs ==> !v.Dynamic()
    ensures Heads(Parts(vs), offset) == Concat(vs) && Tails(Parts(vs)) == []
  {
    hide EncodeValue;
    if vs != [] {
      assert Parts(vs)[0] == Inline(EncodeValue(vs[0])) && Parts(vs)[1..] == Parts(vs[1..]);
      StaticHeads(vs[1..], offset);
    }
  }

  /** An argument list without dynamic components is the components one after the other. */
  lemma StaticList(vs: seq<Value>)
    requires forall v :: v in vs ==> !v.Dynamic()
    ensures EncodeList(vs) == Concat(vs)
  {
    StaticHeads(vs, 32 * |vs|);
  }

  //
  // Struct by struct
  //

  /** The hash of a type's text, as the signer computes it from the schema. */
  function TypeOf(h: Keccak, name: string): Value
  {
    TypeHash(h, EncodeType(EIP712Types(), name))
  }

  /** Field `f` of message `v` encodes to the word `w`. */
  ghost predicate FieldIs(h: Keccak, f: Field, v: Datum, w: Value)
    requires v.Struct?
  {
    f.name in v.fields && EncodeField(h, EIP712Types(), f.typ, v.fields[f.name]) == Ok(EncodeValue(w))
  }

  /** When every field encodes to a word, `encodeData` is the type hash and the words. */
  lemma {:induction false} FieldWords(h: Keccak, fields: seq<Field>, v: Datum, words: seq<Value>)
    requires v.Struct? && |words| == |fields|
    requires forall i :: 0 <= i < |fields| ==> FieldIs(h, fields[i], v, words[i])
    ensures EncodeFields(h, EIP712Types(), fields, v) == Ok(Concat(words))
    decreases fields
  {
    hide EIP712Types, EncodeField, EncodeValue;
    if fields != [] {
      FieldWords(h, fields[1..], v, words[1..]);
    }
  }

  /** `hashStruct` as the contract writes it: the type hash and the field words, through `abi.encode`. */
  lemma StructWords(h: Keccak, name: string, v: Datum, words: seq<Value>)
    requires v.Struct? && name in EIP712Types()
    requires |v.fields| <= |EIP712Types()[name]| == |words|
    requires forall i :: 0 <= i < |words| ==> FieldIs(h, EIP712Types()[name][i], v, words[i])
    requires forall w :: w in words ==> !w.Dynamic()
    ensures HashStruct(h, EIP712Types(), name, v) == Ok(h(EncodeList([TypeOf(h, name)] + words)))
    ensures EncodeField(h, EIP712Types(), StructField(name), v) == Ok(h(EncodeList([TypeOf(h, name)] + words)))
  {
    hide EIP712Types, FieldIs, EncodeField, EncodeValue, EncodeType;
    FieldWords(h, EIP712Types()[name], v, words);
    var all := [TypeOf(h, name)] + words;
    assert all[0] == TypeOf(h, name) && all[1..] == words;
    StaticList(all);
    TypeHashWord(h, EncodeType(EIP712Types(), name));
    assert EncodeData(h, EIP712Types(), name, v) == Ok(EncodeList(all));
    StructFieldWord(h, EIP712Types(), name, v);
  }

  /** Field `f` of the row, with value `d`, encodes to the word `w`. */
  ghost predicate Encodes(h: Keccak, f: Field, v: Datum, d: Datum, w: Value)
    requires v.Struct?
  {
    && f.name in v.fields && v.fields[f.name] == d
    && EncodeField(h, EIP712Types(), f.typ, d) == Ok(EncodeValue(w))
    && !w.Dynamic()
  }

  lemma StructOfTwo(h: Keccak, name: string, v: Datum, f: Field, d: Datum, w: Value, g: Field, e: Datum, x: Value)
    requires v.Struct? && |v.fields| == 2 && name in EIP712Types() && EIP712Types()[name] == [f, g]
    requires Encodes(h, f, v, d, w) && Encodes(h, g, v, e, x)
    ensures HashStruct(h, EIP712Types(), name, v) == Ok(h(EncodeList([TypeOf(h, name), w, x])))
    ensures EncodeField(h, EIP712Types(), StructField(name), v) == Ok(h(EncodeList([TypeOf(h, name), w, x])))
  {
    hide EIP712Types, EncodeField, EncodeValue, TypeOf;
    StructWords(h, name, v, [w, x]);
    assert [TypeOf(h, name)] + [w, x] == [TypeOf(h, name), w, x];
  }

  lemma StructOfThree(h: Keccak, name: string, v: Datum, f: Field, d: Datum, w: Value, g: Field, e: Datum, x: Value,
                      k: Field, c: Datum, y: Value)
    requires v.Struct? && |v.fields| == 3 && name in EIP712Types() && EIP712Types()[name] == [f, g, k]
    requires Encodes(h, f, v, d, w) && Encodes(h, g, v, e, x) && Encodes(h, k, v, c, y)
    ensures HashStruct(h, EIP712Types(), name, v) == Ok(h(EncodeList([TypeOf(h, name), w, x, y])))
  {
    hide EIP712Types, EncodeField, EncodeValue, TypeOf;
    StructWords(h, name, v, [w, x, y]);
    assert [TypeOf(h, name)] + [w, x, y] == [TypeOf(h, name), w, x, y];
  }

  lemma StructOfFour(h: Keccak, name: string, v: Datum, f: Field, d: Datum, w: Value, g: Field, e: Datum, x: Value,
                     k: Field, c: Datum, y: Value, l: Field, b: Datum, z: Value)
    requires v.Struct? && |v.fields| == 4 && name in EIP712Types() && EIP712Types()[name] == [f, g, k, l]
    requires Encodes(h, f, v, d, w) && Encodes(h, g, v, e, x) && Encodes(h, k, v, c, y) && Encodes(h, l, v, b, z)
    ensures HashStruct(h, EIP712Types(), name, v) == Ok(h(EncodeList([TypeOf(h, name), w, x, y, z])))
  {
    hide EIP712Types, EncodeField, EncodeValue, TypeOf;
    StructWords(h, name, v, [w, x, y, z]);
    assert [TypeOf(h, name)] + [w, x, y, z] == [TypeOf(h, name), w, x, y, z];
  }

  lemma TypeHashWord(h: Keccak, text: string)
    ensures EncodeValue(TypeHash(h, text)) == h(TextBytes(text))
  {
  }

  lemma StructFieldWord(h: Keccak, s: Schema, name: string, v: Datum)
    requires v.Struct? && name in s && EncodeData(h, s, name, v).Ok?
    ensures EncodeField(h, s, StructField(name), v) == Ok(h(EncodeData(h, s, name, v).value))
  {
  }

  lemma StringWord(h: Keccak, s: Bytes)
    ensures EncodeField(h, EIP712Types(), StringField, Str(s)) == Ok(EncodeValue(Fixed(h(s))))
  {
  }

  //
  // Rows of the schema and shapes of the messages
  //

  lemma EntryRow()
    ensures "MetadataEntry" in EIP712Types()
    ensures EIP712Types()["MetadataEntry"] == [Field("key", StringField), Field("value", StringField)]
  {
    TableRows();
  }

  lemma PieceRow()
    ensures "PieceMetadata" in EIP712Types()
    ensures EIP712Types()["PieceMetadata"] == [Field("pieceIndex", UintField), Field("metadata", ENTRY_ARRAY)]
  {
    TableRows();
  }

  lemma CidRow()
    ensures "Cid" in EIP712Types()
    ensures EIP712Types()["Cid"] == [Field("data", BytesField)]
  {
    TableRows();
  }

  lemma AddPiecesRowIs()
    ensures "AddPieces" in EIP712Types()
    ensures EIP712Types()["AddPieces"] == [
      Field("clientDataSetId", UintField), Field("nonce", UintField),
      Field("pieceData", ArrayField(StructField("Cid"))),
      Field("pieceMetadata", ArrayField(StructField("PieceMetadata")))]
  {
    TableRows();
  }

  lemma CreateDataSetRow()
    ensures "CreateDataSet" in EIP712Types()
    ensures EIP712Types()["CreateDataSet"] ==
      [Field("clientDataSetId", UintField), Field("payee", AddressField), Field("metadata", ENTRY_ARRAY)]
  {
    TableRows();
  }

  lemma SchedulePieceRemovalsRow()
    ensures "SchedulePieceRemovals" in EIP712Types()
    ensures EIP712Types()["SchedulePieceRemovals"] ==
            [Field("clientDataSetId", UintField), Field("pieceIds", ArrayField(UintField))]
  {
    TableRows();
  }

  lemma EntryShape(e: MetadataEntry)
    ensures EntryMessage(e).Struct?
    ensures var f := EntryMessage(e).fields;
            |f| == 2 && "key" in f && "value" in f && f["key"] == Str(e.key) && f["value"] == Str(e.value)
  {
  }

  lemma EntryTypeOf(h: Keccak)
    ensures TypeOf(h, "MetadataEntry") == TypeHash(h, MetadataEntryType())
  {
    hide EncodeType, EIP712Types;
    LeafTextsAgree();
  }

  lemma EntryEncodes(h: Keccak, e: MetadataEntry)
    ensures EntryMessage(e).Struct? && |EntryMessage(e).fields| == 2
    ensures Encodes(h, Field("key", StringField), EntryMessage(e), Str(e.key), Fixed(h(e.key)))
    ensures Encodes(h, Field("value", StringField), EntryMessage(e), Str(e.value), Fixed(h(e.value)))
  {
    EntryShape(e);
    StringWord(h, e.key);
    StringWord(h, e.value);
    hide EIP712Types, EncodeField, EncodeValue, EntryMessage;
  }

  lemma EntryHash(h: Keccak, e: MetadataEntry)
    ensures EncodeField(h, EIP712Types(), StructField("MetadataEntry"), EntryMessage(e)) ==
            Ok(HashMetadataEntry(h, e.key, e.value))
  {
    hide EIP712Types, MetadataEntryType, TypeHash, TypeOf, EncodeField, EncodeValue, EntryMessage, Encodes;
    EntryTypeOf(h);
    EntryRow();
    EntryEncodes(h, e);
    StructOfTwo(h, "MetadataEntry", EntryMessage(e),
      Field("key", StringField), Str(e.key), Fixed(h(e.key)),
      Field("value", StringField), Str(e.value), Fixed(h(e.value)));
  }

  lemma {:induction false} EntriesHash(h: Keccak, metadata: seq<MetadataEntry>)
    ensures EncodeItems(h, EIP712Types(), StructField("MetadataEntry"), EntryMessages(metadata)) ==
            Ok(Packed(EntryHashes(h, Keys(metadata), Values(metadata))))
  {
    hide EIP712Types, EncodeField, HashMetadataEntry, EntryMessage;
    if metadata != [] {
      var rest := metadata[1..];
      EntryHash(h, metadata[0]);
      EntriesHash(h, rest);
      assert Keys(metadata)[1..] == Keys(rest) && Values(metadata)[1..] == Values(rest);
      assert EntryMessages(metadata)[0] == EntryMessage(metadata[0])
          && EntryMessages(metadata)[1..] == EntryMessages(rest);
    }
  }

  /** The hash of the entries is the contract's, which never reverts on a split list. */
  lemma EntriesField(h: Keccak, metadata: seq<MetadataEntry>)
    ensures HashMetadataEntries(h, Keys(metadata), Values(metadata)).Ok?
    ensures EncodeField(h, EIP712Types(), ENTRY_ARRAY, Items(EntryMessages(metadata))) ==
            Ok(HashMetadataEntries(h, Keys(metadata), Values(metadata)).value)
  {
    hide EIP712Types, EntryMessages, EntryHashes, Packed;
    EntriesHash(h, metadata);
  }

  lemma UintWord(h: Keccak, n: int)
    requires 0 <= n < UINT256_LIMIT
    ensures EncodeField(h, EIP712Types(), UintField, Uint(n)) == Ok(EncodeValue(Num(n)))
  {
  }

  lemma AddressWord(h: Keccak, a: Address20)
    ensures EncodeField(h, EIP712Types(), AddressField, Account(a)) == Ok(EncodeValue(Addr(a)))
  {
  }

  lemma FixedWord(w: Word32)
    ensures EncodeValue(Fixed(w)) == w
  {
  }

  lemma PieceShape(p: PieceMetadata)
    ensures PieceMessage(p).Struct?
    ensures var f := PieceMessage(p).fields;
            && |f| == 2 && "pieceIndex" in f && "metadata" in f
            && f["pieceIndex"] == Uint(p.pieceIndex) && f["metadata"] == Items(EntryMessages(p.metadata))
  {
    hide EntryMessages;
  }

  lemma PieceTypeOf(h: Keccak)
    ensures TypeOf(h, "PieceMetadata") == TypeHash(h, PieceMetadataType())
  {
    hide EncodeType, EIP712Types;
    SplitTextsAgree();
  }

  lemma PieceEncodes(h: Keccak, p: PieceMetadata, entries: Word32)
    requires 0 <= p.pieceIndex < UINT256_LIMIT
    requires EncodeField(h, EIP712Types(), ENTRY_ARRAY, Items(EntryMessages(p.metadata))) == Ok(entries)
    ensures PieceMessage(p).Struct? && |PieceMessage(p).fields| == 2
    ensures Encodes(h, Field("pieceIndex", UintField), PieceMessage(p), Uint(p.pieceIndex), Num(p.pieceIndex))
    ensures Encodes(h, Field("metadata", ENTRY_ARRAY), PieceMessage(p),
                    Items(EntryMessages(p.metadata)), Fixed(entries))
  {
    hide EIP712Types, EncodeField, EncodeValue, EntryMessages, PieceMessage;
    PieceShape(p);
    UintWord(h, p.pieceIndex);
    FixedWord(entries);
  }

  lemma PieceHash(h: Keccak, p: PieceMetadata)
    requires 0 <= p.pieceIndex < UINT256_LIMIT
    ensures HashPieceMetadata(h, p.pieceIndex, Keys(p.metadata), Values(p.metadata)).Ok?
    ensures EncodeField(h, EIP712Types(), StructField("PieceMetadata"), PieceMessage(p)) ==
            Ok(HashPieceMetadata(h, p.pieceIndex, Keys(p.metadata), Values(p.metadata)).value)
  {
    hide EIP712Types, PieceMetadataType, TypeHash, TypeOf, EncodeField, EncodeValue, HashMetadataEntries, EntryMessages;
    hide PieceMessage, Encodes;
    EntriesField(h, p.metadata);
    var entries := HashMetadataEntries(h, Keys(p.metadata), Values(p.metadata)).value;
    PieceTypeOf(h);
    PieceRow();
    PieceEncodes(h, p, entries);
    StructOfTwo(h, "PieceMetadata", PieceMessage(p),
      Field("pieceIndex", UintField), Uint(p.pieceIndex), Num(p.pieceIndex),
      Field("metadata", ENTRY_ARRAY), Items(EntryMessages(p.metadata)), Fixed(entries));
  }

  lemma {:induction false} PiecesHash(h: Keccak, index: nat, metadata: seq<seq<MetadataEntry>>)
    requires index + |metadata| <= UINT256_LIMIT
    ensures PieceHashes(h, index, AllKeys(metadata), AllValues(metadata)).Ok?
    ensures EncodeItems(h, EIP712Types(), StructField("PieceMetadata"), PieceMessages(Numbered(index, metadata))) ==
            Ok(Packed(PieceHashes(h, index, AllKeys(metadata), AllValues(metadata)).value))
    decreases metadata
  {
    hide EIP712Types, EncodeField, HashPieceMetadata, PieceMessage;
    if metadata != [] {
      var p, rest := PieceMetadata(index, metadata[0]), metadata[1..];
      PieceHash(h, p);
      PiecesHash(h, index + 1, rest);
      assert AllKeys(metadata)[1..] == AllKeys(rest) && AllValues(metadata)[1..] == AllValues(rest);
      assert Numbered(index, metadata)[0] == p && Numbered(index, metadata)[1..] == Numbered(index + 1, rest);
    }
  }

  lemma StructOfOne(h: Keccak, name: string, v: Datum, f: Field, d: Datum, w: Value)
    requires v.Struct? && |v.fields| == 1 && name in EIP712Types() && EIP712Types()[name] == [f]
    requires Encodes(h, f, v, d, w)
    ensures HashStruct(h, EIP712Types(), name, v) == Ok(h(EncodeList([TypeOf(h, name), w])))
    ensures EncodeField(h, EIP712Types(), StructField(name), v) == Ok(h(EncodeList([TypeOf(h, name), w])))
  {
    hide EIP712Types, EncodeField, EncodeValue, TypeOf;
    StructWords(h, name, v, [w]);
    assert [TypeOf(h, name)] + [w] == [TypeOf(h, name), w];
  }

  lemma BytesWord(h: Keccak, b: Bytes)
    ensures EncodeField(h, EIP712Types(), BytesField, Raw(b)) == Ok(EncodeValue(Fixed(h(b))))
  {
  }

  lemma CidTypeOf(h: Keccak)
    ensures TypeOf(h, "Cid") == TypeHash(h, CidType())
  {
    hide EncodeType, EIP712Types;
    LeafTextsAgree();
  }

  lemma CidEncodes(h: Keccak, data: Bytes)
    ensures CidMessage(data).Struct? && |CidMessage(data).fields| == 1
    ensures Encodes(h, Field("data", BytesField), CidMessage(data), Raw(data), Fixed(h(data)))
  {
    BytesWord(h, data);
    hide EIP712Types, EncodeField, EncodeValue;
  }

  lemma CidHash(h: Keccak, data: Bytes)
    ensures EncodeField(h, EIP712Types(), StructField("Cid"), CidMessage(data)) ==
            Ok(h(EncodeList([TypeHash(h, CidType()), Fixed(h(data))])))
  {
    hide EIP712Types, CidType, TypeHash, TypeOf, EncodeField, EncodeValue, CidMessage, Encodes;
    CidTypeOf(h);
    CidRow();
    CidEncodes(h, data);
    StructOfOne(h, "Cid", CidMessage(data), Field("data", BytesField), Raw(data), Fixed(h(data)));
  }

  lemma {:induction false} CidsHash(h: Keccak, pieceData: seq<Bytes>)
    ensures EncodeItems(h, EIP712Types(), StructField("Cid"), CidMessages(pieceData)) ==
            Ok(Packed(CidHashes(h, pieceData)))
  {
    hide EIP712Types, EncodeField, CidMessage;
    if pieceData != [] {
      CidHash(h, pieceData[0]);
      CidsHash(h, pieceData[1..]);
    }
  }

  lemma {:induction false} IdsHash(h: Keccak, ids: seq<nat>)
    requires forall id :: id in ids ==> id < UINT256_LIMIT
    ensures EncodeItems(h, EIP712Types(), UintField, IdMessages(ids)) == Ok(Packed(IdWords(ids)))
  {
    hide EIP712Types;
    if ids != [] {
      assert ids[0] in ids && forall id :: id in ids[1..] ==> id in ids;
      UintWord(h, ids[0]);
      IdsHash(h, ids[1..]);
    }
  }

  lemma ArrayWord(h: Keccak, elem: FieldType, items: seq<Datum>, packed: Bytes)
    requires EncodeItems(h, EIP712Types(), elem, items) == Ok(packed)
    ensures EncodeField(h, EIP712Types(), ArrayField(elem), Items(items)) == Ok(EncodeValue(Fixed(h(packed))))
  {
    hide EIP712Types;
  }

  //
  // Operation by operation
  //

  lemma AddPiecesShape(id: int, nonce: int, pieceData: seq<Bytes>, pieces: seq<PieceMetadata>)
    ensures AddPiecesMessage(id, nonce, pieceData, pieces).Struct?
    ensures var f := AddPiecesMessage(id, nonce, pieceData, pieces).fields;
            && |f| == 4 && "clientDataSetId" in f && "nonce" in f && "pieceData" in f && "pieceMetadata" in f
            && f["clientDataSetId"] == Uint(id) && f["nonce"] == Uint(nonce)
            && f["pieceData"] == Items(CidMessages(pieceData)) && f["pieceMetadata"] == Items(PieceMessages(pieces))
  {
    hide CidMessages, PieceMessages;
  }

  lemma SchedulePieceRemovalsShape(id: int, pieceIds: seq<int>)
    ensures SchedulePieceRemovalsMessage(id, pieceIds).Struct?
    ensures var f := SchedulePieceRemovalsMessage(id, pieceIds).fields;
            && |f| == 2 && "clientDataSetId" in f && "pieceIds" in f
            && f["clientDataSetId"] == Uint(id) && f["pieceIds"] == Items(IdMessages(pieceIds))
  {
    hide IdMessages;
  }

  lemma CreateDataSetShape(id: int, payee: Address20, metadata: seq<MetadataEntry>)
    ensures CreateDataSetMessage(id, payee, metadata).Struct?
    ensures var f := CreateDataSetMessage(id, payee, metadata).fields;
            && |f| == 3 && "clientDataSetId" in f && "payee" in f && "metadata" in f
            && f["clientDataSetId"] == Uint(id) && f["payee"] == Account(payee)
               && f["metadata"] == Items(EntryMessages(metadata))
  {
    hide EntryMessages;
  }

  lemma AddPiecesHash(h: Keccak, id: nat, nonce: nat, pieceData: seq<Bytes>, metadata: seq<seq<MetadataEntry>>)
    requires id < UINT256_LIMIT && nonce < UINT256_LIMIT && |metadata| <= UINT256_LIMIT
    ensures AddPiecesStructHash(h, id, nonce, pieceData, AllKeys(metadata), AllValues(metadata)).Ok?
    ensures HashStruct(h, EIP712Types(), "AddPieces", AddPiecesMessage(id, nonce, pieceData, Numbered(0, metadata))) ==
            Ok(AddPiecesStructHash(h, id, nonce, pieceData, AllKeys(metadata), AllValues(metadata)).value)
  {
    hide EIP712Types, AddPiecesType, TypeHash, TypeOf, EncodeField, EncodeValue, EncodeItems, EncodeData;
    hide CidHashes, PieceHashes, CidMessages, PieceMessages, Numbered, Packed, AddPiecesMessage, Encodes;
    var pieces := Numbered(0, metadata);
    var m := AddPiecesMessage(id, nonce, pieceData, pieces);
    var packed := PieceHashes(h, 0, AllKeys(metadata), AllValues(metadata));
    PiecesHash(h, 0, metadata);
    CidsHash(h, pieceData);
    AddPiecesEncodes(h, id, nonce, pieceData, pieces, Packed(CidHashes(h, pieceData)), Packed(packed.value));
    AddPiecesTypeOf(h);
    AddPiecesRowIs();
    AddPiecesShape(id, nonce, pieceData, pieces);
    StructOfFour(h, "AddPieces", m,
      Field("clientDataSetId", UintField), Uint(id), Num(id),
      Field("nonce", UintField), Uint(nonce), Num(nonce),
      Field("pieceData", ArrayField(StructField("Cid"))), Items(CidMessages(pieceData)),
          Fixed(h(Packed(CidHashes(h, pieceData)))),
      Field("pieceMetadata", ArrayField(StructField("PieceMetadata"))), Items(PieceMessages(pieces)),
          Fixed(h(Packed(packed.value))));
  }

  lemma AddPiecesTypeOf(h: Keccak)
    ensures TypeOf(h, "AddPieces") == TypeHash(h, AddPiecesType())
  {
    hide EncodeType, EIP712Types;
    AddPiecesTextAgrees();
  }

  lemma AddPiecesEncodes(
    h: Keccak, id: nat, nonce: nat, pieceData: seq<Bytes>, pieces: seq<PieceMetadata>,
    packedCids: Bytes, packedPieces: Bytes)
    requires id < UINT256_LIMIT && nonce < UINT256_LIMIT
    requires EncodeItems(h, EIP712Types(), StructField("Cid"), CidMessages(pieceData)) == Ok(packedCids)
    requires EncodeItems(h, EIP712Types(), StructField("PieceMetadata"), PieceMessages(pieces)) == Ok(packedPieces)
    ensures var m := AddPiecesMessage(id, nonce, pieceData, pieces);
            && Encodes(h, Field("clientDataSetId", UintField), m, Uint(id), Num(id))
            && Encodes(h, Field("nonce", UintField), m, Uint(nonce), Num(nonce))
            && Encodes(h, Field("pieceData", ArrayField(StructField("Cid"))), m, Items(CidMessages(pieceData)),
               Fixed(h(packedCids)))
            && Encodes(h, Field("pieceMetadata", ArrayField(StructField("PieceMetadata"))), m,
               Items(PieceMessages(pieces)), Fixed(h(packedPieces)))
  {
    hide EIP712Types, EncodeField, EncodeValue, EncodeItems, CidMessages, PieceMessages, AddPiecesMessage;
    UintWord(h, id);
    UintWord(h, nonce);
    ArrayWord(h, StructField("Cid"), CidMessages(pieceData), packedCids);
    ArrayWord(h, StructField("PieceMetadata"), PieceMessages(pieces), packedPieces);
    AddPiecesShape(id, nonce, pieceData, pieces);
  }

  lemma CreateDataSetHash(h: Keccak, id: nat, payee: Address20, metadata: seq<MetadataEntry>)
    requires id < UINT256_LIMIT
    ensures CreateDataSetStructHash(h, id, payee, Keys(metadata), Values(metadata)).Ok?
    ensures HashStruct(h, EIP712Types(), "CreateDataSet", CreateDataSetMessage(id, payee, metadata)) ==
            Ok(CreateDataSetStructHash(h, id, payee, Keys(metadata), Values(metadata)).value)
  {
    hide EIP712Types, CreateDataSetType, TypeHash, TypeOf, EncodeField, EncodeValue, EncodeData, HashMetadataEntries,
         EntryMessages, CreateDataSetMessage, Encodes;
    EntriesField(h, metadata);
    var entries := HashMetadataEntries(h, Keys(metadata), Values(metadata)).value;
    CreateDataSetEncodes(h, id, payee, metadata, entries);
    CreateDataSetTypeOf(h);
    CreateDataSetRow();
    CreateDataSetShape(id, payee, metadata);
    StructOfThree(h, "CreateDataSet", CreateDataSetMessage(id, payee, metadata),
      Field("clientDataSetId", UintField), Uint(id), Num(id),
      Field("payee", AddressField), Account(payee), Addr(payee),
      Field("metadata", ENTRY_ARRAY), Items(EntryMessages(metadata)), Fixed(entries));
  }

  lemma CreateDataSetTypeOf(h: Keccak)
    ensures TypeOf(h, "CreateDataSet") == TypeHash(h, CreateDataSetType())
  {
    hide EncodeType, EIP712Types;
    SplitTextsAgree();
  }

  lemma CreateDataSetEncodes(h: Keccak, id: nat, payee: Address20, metadata: seq<MetadataEntry>, entries: Word32)
    requires id < UINT256_LIMIT
    requires EncodeField(h, EIP712Types(), ENTRY_ARRAY, Items(EntryMessages(metadata))) == Ok(entries)
    ensures var m := CreateDataSetMessage(id, payee, metadata);
            && Encodes(h, Field("clientDataSetId", UintField), m, Uint(id), Num(id))
            && Encodes(h, Field("payee", AddressField), m, Account(payee), Addr(payee))
            && Encodes(h, Field("metadata", ENTRY_ARRAY), m, Items(EntryMessages(metadata)), Fixed(entries))
  {
    hide EIP712Types, EncodeField, EncodeValue, EntryMessages, CreateDataSetMessage;
    UintWord(h, id);
    AddressWord(h, payee);
    FixedWord(entries);
    CreateDataSetShape(id, payee, metadata);
  }

  lemma SchedulePieceRemovalsTypeOf(h: Keccak)
    ensures TypeOf(h, "SchedulePieceRemovals") == TypeHash(h, SchedulePieceRemovalsType())
  {
    hide EncodeType, EIP712Types;
    LeafTextsAgree();
  }

  lemma SchedulePieceRemovalsEncodes(h: Keccak, id: nat, pieceIds: seq<nat>, packed: Bytes)
    requires id < UINT256_LIMIT
    requires EncodeItems(h, EIP712Types(), UintField, IdMessages(pieceIds)) == Ok(packed)
    ensures var m := SchedulePieceRemovalsMessage(id, pieceIds);
            && m.Struct? && |m.fields| == 2
            && Encodes(h, Field("clientDataSetId", UintField), m, Uint(id), Num(id))
            && Encodes(h, Field("pieceIds", ArrayField(UintField)), m, Items(IdMessages(pieceIds)), Fixed(h(packed)))
  {
    hide EIP712Types, EncodeField, EncodeValue, EncodeItems, IdMessages, SchedulePieceRemovalsMessage;
    UintWord(h, id);
    ArrayWord(h, UintField, IdMessages(pieceIds), packed);
    SchedulePieceRemovalsShape(id, pieceIds);
  }

  lemma SchedulePieceRemovalsHash(h: Keccak, id: nat, pieceIds: seq<nat>)
    requires id < UINT256_LIMIT && forall p :: p in pieceIds ==> p < UINT256_LIMIT
    ensures HashStruct(h, EIP712Types(), "SchedulePieceRemovals", SchedulePieceRemovalsMessage(id, pieceIds)) ==
            Ok(SchedulePieceRemovalsStructHash(h, id, pieceIds))
  {
    hide EIP712Types, SchedulePieceRemovalsType, TypeHash, TypeOf, EncodeField, EncodeValue, EncodeItems, IdMessages;
    hide IdWords, Packed, SchedulePieceRemovalsMessage, Encodes;
    var packed := Packed(IdWords(pieceIds));
    IdsHash(h, pieceIds);
    SchedulePieceRemovalsTypeOf(h);
    SchedulePieceRemovalsRow();
    SchedulePieceRemovalsEncodes(h, id, pieceIds, packed);
    StructOfTwo(h, "SchedulePieceRemovals", SchedulePieceRemovalsMessage(id, pieceIds),
      Field("clientDataSetId", UintField), Uint(id), Num(id),
      Field("pieceIds", ArrayField(UintField)), Items(IdMessages(pieceIds)), Fixed(h(packed)));
  }

  lemma DeleteDataSetRow()
    ensures "DeleteDataSet" in EIP712Types()
    ensures EIP712Types()["DeleteDataSet"] == [Field("clientDataSetId", UintField)]
  {
    TableRows();
  }

  lemma DeleteDataSetEncodes(h: Keccak, id: nat, m: Datum)
    requires id < UINT256_LIMIT && m == Struct(map["clientDataSetId" := Uint(id)])
    ensures |m.fields| == 1 && Encodes(h, Field("clientDataSetId", UintField), m, Uint(id), Num(id))
  {
    hide EIP712Types, EncodeField, EncodeValue;
    UintWord(h, id);
  }

  lemma TwoWords(h: Keccak, text: string, id: nat)
    ensures EncodeList([TypeHash(h, text), Num(id)]) == h(TextBytes(text)) + Word(id)
  {
    hide TextBytes;
    var vs := [TypeHash(h, text), Num(id)];
    assert vs[1..] == [Num(id)] && vs[1..][1..] == [];
    StaticList(vs);
    TypeHashWord(h, text);
    assert Concat([Num(id)]) == Word(id) + [] == Word(id);
  }

  /** The deletion of a data set hashes to its literal type text and its id, for every id. */
  lemma DeleteDataSetHash(h: Keccak, id: nat)
    requires id < UINT256_LIMIT
    ensures HashStruct(h, EIP712Types(), "DeleteDataSet", Struct(map["clientDataSetId" := Uint(id)])) ==
            Ok(h(h(TextBytes("DeleteDataSet(uint256 clientDataSetId)")) + Word(id)))
  {
    hide EIP712Types, TextBytes, EncodeType, EncodeField, EncodeValue, EncodeList, Encodes, HashStruct, Word;
    DeleteDataSetRow();
    DeleteDataSetLiteral();
    var m := Struct(map["clientDataSetId" := Uint(id)]);
    DeleteDataSetEncodes(h, id, m);
    StructOfOne(h, "DeleteDataSet", m, Field("clientDataSetId", UintField), Uint(id), Num(id));
    TwoWords(h, "DeleteDataSet(uint256 clientDataSetId)", id);
  }

  /** And the digest that is signed for it. */
  lemma DeleteDataSetDigest(h: Keccak, chainId: nat, self: Address20, id: nat)
    requires chainId < UINT256_LIMIT && id < UINT256_LIMIT
    ensures GetMessageHash(h, GetDomain(chainId, self), "DeleteDataSet", Struct(map["clientDataSetId" := Uint(id)])) ==
            Ok(h([0x19, 0x01] + DomainSeparator(h, chainId, self) +
                 h(h(TextBytes("DeleteDataSet(uint256 clientDataSetId)")) + Word(id))))
  {
    hide EIP712Types, TextBytes, HashStruct, DomainMap, GetDomain, Word, DomainSeparator;
    DeleteDataSetHash(h, id);
    MessageHashIs(h, chainId, self, "DeleteDataSet", Struct(map["clientDataSetId" := Uint(id)]),
                  h(h(TextBytes("DeleteDataSet(uint256 clientDataSetId)")) + Word(id)));
  }

  /** Signer and contract separate domains alike. */
  lemma DomainSeparatorAgrees(h: Keccak, chainId: nat, self: Address20)
    requires chainId < UINT256_LIMIT
    ensures HashStruct(h, EIP712Types(), DOMAIN, DomainMap(GetDomain(chainId, self))) ==
            Ok(DomainSeparator(h, chainId, self))
  {
    hide EIP712Types, DomainType, TypeHash, TypeOf, EncodeField, EncodeValue, EncodeData, DomainMap, GetDomain, Encodes;
    DomainTypeOf(h);
    TableHasDomain();
    DomainShape(chainId, self);
    DomainEncodes(h, chainId, self);
    StructOfFour(h, DOMAIN, DomainMap(GetDomain(chainId, self)),
      Field("name", StringField), Str(DOMAIN_NAME), Fixed(h(DOMAIN_NAME)),
      Field("version", StringField), Str(DOMAIN_VERSION), Fixed(h(DOMAIN_VERSION)),
      Field("chainId", UintField), Uint(chainId), Num(chainId),
      Field("verifyingContract", AddressField), Account(self), Addr(self));
  }

  lemma DomainTypeOf(h: Keccak)
    ensures TypeOf(h, DOMAIN) == TypeHash(h, DomainType())
  {
    hide EncodeType, EIP712Types;
    LeafTextsAgree();
  }

  lemma DomainShape(chainId: int, self: Address20)
    ensures DomainMap(GetDomain(chainId, self)).Struct?
    ensures var m := DomainMap(GetDomain(chainId, self)).fields;
            && |m| == 4 && "name" in m && "version" in m && "chainId" in m && "verifyingContract" in m
            && m["name"] == Str(DOMAIN_NAME) && m["version"] == Str(DOMAIN_VERSION)
            && m["chainId"] == Uint(chainId) && m["verifyingContract"] == Account(self)
  {
    assert DOMAIN_NAME != [] && DOMAIN_VERSION != [];
    DomainMapShows(GetDomain(chainId, self));
  }

  lemma DomainEncodes(h: Keccak, chainId: nat, self: Address20)
    requires chainId < UINT256_LIMIT
    ensures var m := DomainMap(GetDomain(chainId, self));
            && Encodes(h, Field("name", StringField), m, Str(DOMAIN_NAME), Fixed(h(DOMAIN_NAME)))
            && Encodes(h, Field("version", StringField), m, Str(DOMAIN_VERSION), Fixed(h(DOMAIN_VERSION)))
            && Encodes(h, Field("chainId", UintField), m, Uint(chainId), Num(chainId))
            && Encodes(h, Field("verifyingContract", AddressField), m, Account(self), Addr(self))
  {
    hide EIP712Types, EncodeField, EncodeValue, DomainMap;
    DomainShape(chainId, self);
    StringWord(h, DOMAIN_NAME);
    StringWord(h, DOMAIN_VERSION);
    UintWord(h, chainId);
    AddressWord(h, self);
  }

  //
  // Messages determine their contents
  //

  lemma {:induction false} EntryMessagesInjective(a: seq<MetadataEntry>, b: seq<MetadataEntry>)
    requires EntryMessages(a) == EntryMessages(b)
    ensures a == b
  {
    hide EntryMessage;
    if a != [] {
      assert |b| == |a|;
      EntryShape(a[0]);
      EntryShape(b[0]);
      assert EntryMessages(a)[0] == EntryMessages(b)[0] && EntryMessages(a)[1..] == EntryMessages(b)[1..];
      EntryMessagesInjective(a[1..], b[1..]);
      assert a == [a[0]] + a[1..] && b == [b[0]] + b[1..];
    }
  }

  lemma {:induction false} PieceMessagesInjective(a: seq<PieceMetadata>, b: seq<PieceMetadata>)
    requires PieceMessages(a) == PieceMessages(b)
    ensures a == b
  {
    hide PieceMessage, EntryMessages;
    if a != [] {
      assert |b| == |a|;
      PieceShape(a[0]);
      PieceShape(b[0]);
      assert PieceMessages(a)[0] == PieceMessages(b)[0] && PieceMessages(a)[1..] == PieceMessages(b)[1..];
      EntryMessagesInjective(a[0].metadata, b[0].metadata);
      PieceMessagesInjective(a[1..], b[1..]);
      assert a == [a[0]] + a[1..] && b == [b[0]] + b[1..];
    }
  }

  lemma {:induction false} CidMessagesInjective(a: seq<Bytes>, b: seq<Bytes>)
    requires CidMessages(a) == CidMessages(b)
    ensures a == b
  {
    if a != [] {
      assert |b| == |a|;
      var x, y := CidMessages(a)[0], CidMessages(b)[0];
      assert x.fields["data"] == Raw(a[0]) && y.fields["data"] == Raw(b[0]);
      assert CidMessages(a)[1..] == CidMessages(b)[1..];
      CidMessagesInjective(a[1..], b[1..]);
      assert a == [a[0]] + a[1..] && b == [b[0]] + b[1..];
    }
  }

  lemma {:induction false} IdMessagesInjective(a: seq<int>, b: seq<int>)
    requires IdMessages(a) == IdMessages(b)
    ensures a == b
  {
    if a != [] {
      assert |b| == |a|;
      assert IdMessages(a)[0] == Uint(a[0]) && IdMessages(b)[0] == Uint(b[0]);
      assert IdMessages(a)[1..] == IdMessages(a[1..]) && IdMessages(b)[1..] == IdMessages(b[1..]);
      IdMessagesInjective(a[1..], b[1..]);
      assert a == [a[0]] + a[1..] && b == [b[0]] + b[1..];
    }
  }

  lemma SchedulePieceRemovalsMessageInjective(id: int, pieceIds: seq<int>, id': int, pieceIds': seq<int>)
    requires SchedulePieceRemovalsMessage(id, pieceIds) == SchedulePieceRemovalsMessage(id', pieceIds')
    ensures id == id' && pieceIds == pieceIds'
  {
    hide SchedulePieceRemovalsMessage, IdMessages;
    SchedulePieceRemovalsShape(id, pieceIds);
    SchedulePieceRemovalsShape(id', pieceIds');
    IdMessagesInjective(pieceIds, pieceIds');
  }

  lemma AddPiecesMessageInjective(
    id: int, nonce: int, pieceData: seq<Bytes>, pieces: seq<PieceMetadata>,
    id': int, nonce': int, pieceData': seq<Bytes>, pieces': seq<PieceMetadata>)
    requires AddPiecesMessage(id, nonce, pieceData, pieces) == AddPiecesMessage(id', nonce', pieceData', pieces')
    ensures id == id' && nonce == nonce' && pieceData == pieceData' && pieces == pieces'
  {
    hide AddPiecesMessage, CidMessages, PieceMessages;
    AddPiecesShape(id, nonce, pieceData, pieces);
    AddPiecesShape(id', nonce', pieceData', pieces');
    CidMessagesInjective(pieceData, pieceData');
    PieceMessagesInjective(pieces, pieces');
  }

  lemma CreateDataSetMessageInjective(
    id: int, payee: Address20, metadata: seq<MetadataEntry>, id': int, payee': Address20, metadata': seq<MetadataEntry>)
    requires CreateDataSetMessage(id, payee, metadata) == CreateDataSetMessage(id', payee', metadata')
    ensures id == id' && payee == payee' && metadata == metadata'
  {
    hide CreateDataSetMessage, EntryMessages;
    CreateDataSetShape(id, payee, metadata);
    CreateDataSetShape(id', payee', metadata');
    EntryMessagesInjective(metadata, metadata');
  }

  //
  // From the signed message to the chain
  //

  lemma MessageHashIs(h: Keccak, chainId: nat, self: Address20, name: string, m: Datum, structHash: Word32)
    requires chainId < UINT256_LIMIT
    ensures HashStruct(h, EIP712Types(), name, m) == Ok(structHash) ==>
              GetMessageHash(h, GetDomain(chainId, self), name, m) == Ok(TypedDataDigest(h, chainId, self, structHash))
  {
    hide EIP712Types, HashStruct, DomainSeparator, DomainMap, GetDomain;
    DomainSeparatorAgrees(h, chainId, self);
  }

  lemma OperationNames()
    ensures PlainName("CreateDataSet") && PlainName("AddPieces") && PlainName("SchedulePieceRemovals")
  {
    hide PlainName;
    PlainOperationNames();
  }

  /** Messages of one operation under one domain. */
  lemma OperationBinding(h: Keccak, d: Domain, name: string, v: Datum, w: Datum)
    requires PlainName(name)
    ensures GetMessageHash(h, d, name, v).Ok? && GetMessageHash(h, d, name, w).Ok?
            && NoCollision(h, HashedInDigest(h, d, name, v), HashedInDigest(h, d, name, w)) ==>
              (GetMessageHash(h, d, name, v) == GetMessageHash(h, d, name, w) <==> v == w)
  {
    hide EIP712Types, GetMessageHash, HashedInDigest;
    DigestBinding(h, d, name, v, d, name, w);
  }

  lemma {:induction false} RowsFit(sss: seq<seq<Bytes>>)
    ensures |sss| <= RowsSize(sss)
  {
    if sss != [] {
      RowsFit(sss[1..]);
    }
  }

  /**
   Decoding the extra data of an addition and adding the data set id and the pieces of the call, the
   contract arrives at the digest of the message with that nonce and with every piece's metadata under
   its position.
   */
  lemma AddPiecesAgrees(
    h: Keccak, chainId: nat, self: Address20, id: nat, nonce: nat, pieceData: seq<Bytes>,
    metadata: seq<seq<MetadataEntry>>, signature: AuthSignature)
    requires chainId < UINT256_LIMIT && id < UINT256_LIMIT && nonce < UINT256_LIMIT
    requires Addressable(AddPiecesArguments(nonce, signature, metadata))
    ensures var carried := DecodeAddPieces(EncodeList(AddPiecesArguments(nonce, signature, metadata)));
            && carried.Ok? && carried.value.signature == Marshalled(signature)
            && AddPiecesDigest(h, chainId, self, id, pieceData, carried.value).Ok?
            && GetMessageHash(h, GetDomain(chainId, self), "AddPieces",
               AddPiecesMessage(id, nonce, pieceData, Numbered(0, metadata))) ==
               Ok(AddPiecesDigest(h, chainId, self, id, pieceData, carried.value).value)
  {
    hide EIP712Types, HashStruct, DomainMap, GetDomain, AddPiecesMessage, AddPiecesStructHash, AddPiecesArguments,
         DecodeAddPieces, EncodeList;
    AddPiecesRoundTrip(nonce, signature, metadata);
    AddPiecesSize(nonce, signature, metadata);
    RowsFit(AllKeys(metadata));
    AddPiecesHash(h, id, nonce, pieceData, metadata);
    var structHash := AddPiecesStructHash(h, id, nonce, pieceData, AllKeys(metadata), AllValues(metadata)).value;
    MessageHashIs(h, chainId, self, "AddPieces", AddPiecesMessage(id, nonce, pieceData, Numbered(0, metadata)),
        structHash);
  }

  /**
   And it arrives at the digest of a signed message exactly when that message has the contract's data set
   and pieces, the carried nonce, and the carried metadata with every piece index equal to its position;
   unless two different byte strings hashed on the two sides collide.
   */
  lemma AddPiecesBinds(
    h: Keccak, chainId: nat, self: Address20, id: nat, nonce: nat, pieceData: seq<Bytes>,
    metadata: seq<seq<MetadataEntry>>, signature: AuthSignature,
    signedId: int, signedNonce: int, signedData: seq<Bytes>, signedPieces: seq<PieceMetadata>)
    requires chainId < UINT256_LIMIT && id < UINT256_LIMIT && nonce < UINT256_LIMIT
    requires Addressable(AddPiecesArguments(nonce, signature, metadata))
    ensures var carried := DecodeAddPieces(EncodeList(AddPiecesArguments(nonce, signature, metadata)));
            var domain := GetDomain(chainId, self);
            var signed := AddPiecesMessage(signedId, signedNonce, signedData, signedPieces);
            var rebuilt := AddPiecesMessage(id, nonce, pieceData, Numbered(0, metadata));
            var digest := GetMessageHash(h, domain, "AddPieces", signed);
            && carried.Ok?
            && (digest.Ok?
                && NoCollision(h, HashedInDigest(h, domain, "AddPieces", signed),
                                  HashedInDigest(h, domain, "AddPieces", rebuilt)) ==>
                (AddPiecesDigest(h, chainId, self, id, pieceData, carried.value) == Ok(digest.value) <==>
                 signedId == id && signedNonce == nonce && signedData == pieceData
                 && signedPieces == Numbered(0, metadata)))
  {
    hide EIP712Types, PlainName, GetMessageHash, GetDomain, HashedInDigest, AddPiecesMessage, AddPiecesDigest,
         AddPiecesArguments, DecodeAddPieces, EncodeList, Numbered;
    AddPiecesAgrees(h, chainId, self, id, nonce, pieceData, metadata, signature);
    var d := GetDomain(chainId, self);
    var signed := AddPiecesMessage(signedId, signedNonce, signedData, signedPieces);
    var rebuilt := AddPiecesMessage(id, nonce, pieceData, Numbered(0, metadata));
    OperationNames();
    OperationBinding(h, d, "AddPieces", signed, rebuilt);
    if signed == rebuilt {
      AddPiecesMessageInjective(signedId, signedNonce, signedData, signedPieces, id, nonce, pieceData,
          Numbered(0, metadata));
    }
  }

  /** The same for the creation of a data set, with the payee the contract looks up. */
  lemma CreateDataSetAgrees(
    h: Keccak, chainId: nat, self: Address20, payer: Address20, payee: Address20, id: nat,
    metadata: seq<MetadataEntry>, signature: AuthSignature)
    requires chainId < UINT256_LIMIT && id < UINT256_LIMIT
    requires Addressable(CreateDataSetArguments(payer, id, metadata, signature))
    ensures var carried := DecodeCreateDataSet(EncodeList(CreateDataSetArguments(payer, id, metadata, signature)));
            && carried.Ok? && carried.value.signature == Marshalled(signature) && carried.value.payer == payer
            && CreateDataSetDigest(h, chainId, self, payee, carried.value).Ok?
            && GetMessageHash(h, GetDomain(chainId, self), "CreateDataSet",
               CreateDataSetMessage(id, payee, metadata)) ==
               Ok(CreateDataSetDigest(h, chainId, self, payee, carried.value).value)
  {
    hide EIP712Types, HashStruct, DomainMap, GetDomain, CreateDataSetMessage, CreateDataSetStructHash,
         CreateDataSetArguments, DecodeCreateDataSet, EncodeList;
    CreateDataSetRoundTrip(payer, id, metadata, signature);
    CreateDataSetHash(h, id, payee, metadata);
    var structHash := CreateDataSetStructHash(h, id, payee, Keys(metadata), Values(metadata)).value;
    MessageHashIs(h, chainId, self, "CreateDataSet", CreateDataSetMessage(id, payee, metadata), structHash);
  }

  lemma CreateDataSetBinds(
    h: Keccak, chainId: nat, self: Address20, payer: Address20, payee: Address20, id: nat,
    metadata: seq<MetadataEntry>, signature: AuthSignature,
    signedId: int, signedPayee: Address20, signedMetadata: seq<MetadataEntry>)
    requires chainId < UINT256_LIMIT && id < UINT256_LIMIT
    requires Addressable(CreateDataSetArguments(payer, id, metadata, signature))
    ensures var carried := DecodeCreateDataSet(EncodeList(CreateDataSetArguments(payer, id, metadata, signature)));
            var domain := GetDomain(chainId, self);
            var signed := CreateDataSetMessage(signedId, signedPayee, signedMetadata);
            var rebuilt := CreateDataSetMessage(id, payee, metadata);
            var digest := GetMessageHash(h, domain, "CreateDataSet", signed);
            && carried.Ok?
            && (digest.Ok?
                && NoCollision(h, HashedInDigest(h, domain, "CreateDataSet", signed),
                                  HashedInDigest(h, domain, "CreateDataSet", rebuilt)) ==>
                (CreateDataSetDigest(h, chainId, self, payee, carried.value) == Ok(digest.value) <==>
                 signedId == id && signedPayee == payee && signedMetadata == metadata))
  {
    hide EIP712Types, PlainName, GetMessageHash, GetDomain, HashedInDigest, CreateDataSetMessage, CreateDataSetDigest,
         CreateDataSetArguments, DecodeCreateDataSet, EncodeList;
    CreateDataSetAgrees(h, chainId, self, payer, payee, id, metadata, signature);
    var d := GetDomain(chainId, self);
    var signed := CreateDataSetMessage(signedId, signedPayee, signedMetadata);
    var rebuilt := CreateDataSetMessage(id, payee, metadata);
    OperationNames();
    OperationBinding(h, d, "CreateDataSet", signed, rebuilt);
    if signed == rebuilt {
      CreateDataSetMessageInjective(signedId, signedPayee, signedMetadata, id, payee, metadata);
    }
  }

  /** The digest of a removal is the contract's for every list of ids, and the carried signature is the signer's. */
  lemma SchedulePieceRemovalsAgrees(
    h: Keccak, chainId: nat, self: Address20, id: nat, pieceIds: seq<nat>, signature: AuthSignature)
    requires chainId < UINT256_LIMIT && id < UINT256_LIMIT && forall p :: p in pieceIds ==> p < UINT256_LIMIT
    ensures DecodeSignature(EncodeList(SignatureArguments(signature))) == Ok(Marshalled(signature))
    ensures GetMessageHash(h, GetDomain(chainId, self), "SchedulePieceRemovals",
                           SchedulePieceRemovalsMessage(id, pieceIds)) ==
            Ok(SchedulePieceRemovalsDigest(h, chainId, self, id, pieceIds))
  {
    hide EIP712Types, HashStruct, DomainMap, GetDomain, SchedulePieceRemovalsMessage, SchedulePieceRemovalsStructHash;
    SignatureRoundTrip(signature);
    SchedulePieceRemovalsHash(h, id, pieceIds);
    MessageHashIs(h, chainId, self, "SchedulePieceRemovals", SchedulePieceRemovalsMessage(id, pieceIds),
                  SchedulePieceRemovalsStructHash(h, id, pieceIds));
  }

  /** And it is a signed digest exactly when that message has the data set's id and the ids of the call. */
  lemma SchedulePieceRemovalsBinds(
    h: Keccak, chainId: nat, self: Address20, id: nat, pieceIds: seq<nat>, signature: AuthSignature,
    signedId: int, signedIds: seq<int>)
    requires chainId < UINT256_LIMIT && id < UINT256_LIMIT && forall p :: p in pieceIds ==> p < UINT256_LIMIT
    ensures var domain := GetDomain(chainId, self);
            var signed := SchedulePieceRemovalsMessage(signedId, signedIds);
            var rebuilt := SchedulePieceRemovalsMessage(id, pieceIds);
            var digest := GetMessageHash(h, domain, "SchedulePieceRemovals", signed);
            digest.Ok? && NoCollision(h, HashedInDigest(h, domain, "SchedulePieceRemovals", signed),
                                         HashedInDigest(h, domain, "SchedulePieceRemovals", rebuilt)) ==>
              (SchedulePieceRemovalsDigest(h, chainId, self, id, pieceIds) == digest.value <==>
               signedId == id && signedIds == pieceIds)
  {
    hide EIP712Types, PlainName, GetMessageHash, GetDomain, HashedInDigest, SchedulePieceRemovalsMessage,
         SchedulePieceRemovalsDigest;
    SchedulePieceRemovalsAgrees(h, chainId, self, id, pieceIds, signature);
    var d := GetDomain(chainId, self);
    var signed, rebuilt := SchedulePieceRemovalsMessage(signedId, signedIds),
        SchedulePieceRemovalsMessage(id, pieceIds);
    OperationNames();
    OperationBinding(h, d, "SchedulePieceRemovals", signed, rebuilt);
    if signed == rebuilt {
      SchedulePieceRemovalsMessageInjective(signedId, signedIds, id, pieceIds);
    }
  }
}
