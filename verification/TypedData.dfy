/**
 EIP-712 typed data: the schema table of the signed operations, the hash of a struct and the digest
 that is signed.  The hash function is a parameter: any function from byte strings to 32-byte words.
 */
module TypedData {
  import opened Bytes

  type Keccak = Bytes -> Word32

  datatype FieldType =
    | UintField
    | AddressField
    | StringField
    | BytesField
    | StructField(struct: string)
    | ArrayField(elem: FieldType)

  datatype Field = Field(name: string, typ: FieldType)

  type Schema = map<string, seq<Field>>

  /** A message value, as the untyped maps and lists that the caller passes. */
  datatype Datum =
    | Uint(n: int)
    | Account(a: Address20)
    | Str(s: Bytes)
    | Raw(b: Bytes)
    | Items(items: seq<Datum>)
    | Struct(fields: map<string, Datum>)

  datatype TypedDataError = Mismatch | OutOfRange | ExtraFields

  function EIP712Types(): Schema
  {
    map[
      "EIP712Domain" := [
        Field("name", StringField),
        Field("version", StringField),
        Field("chainId", UintField),
        Field("verifyingContract", AddressField)],
      "MetadataEntry" := [
        Field("key", StringField),
        Field("value", StringField)],
      "CreateDataSet" := [
        Field("clientDataSetId", UintField),
        Field("payee", AddressField),
        Field("metadata", ArrayField(StructField("MetadataEntry")))],
      "Cid" := [
        Field("data", BytesField)],
      "PieceMetadata" := [
        Field("pieceIndex", UintField),
        Field("metadata", ArrayField(StructField("MetadataEntry")))],
      "AddPieces" := [
        Field("clientDataSetId", UintField),
        Field("nonce", UintField),
        Field("pieceData", ArrayField(StructField("Cid"))),
        Field("pieceMetadata", ArrayField(StructField("PieceMetadata")))],
      "SchedulePieceRemovals" := [
        Field("clientDataSetId", UintField),
        Field("pieceIds", ArrayField(UintField))],
      "DeleteDataSet" := [
        Field("clientDataSetId", UintField)]
    ]
  }

  //
  // encodeType
  //

  function BaseName(t: FieldType): string
  {
    match t
    case UintField => "uint256"
    case AddressField => "address"
    case StringField => "string"
    case BytesField => "bytes"
    case StructField(name) => name
    case ArrayField(elem) => BaseName(elem)
  }

  function TypeText(t: FieldType): string
  {
    if t.ArrayField? then TypeText(t.elem) + "[]" else BaseName(t)
  }

  ghost function Elements(names: seq<string>): set<string>
  {
    set n | n in names
  }

  /** The types met so far, extended by `t` and everything it refers to, in the order they are met. */
  function Dependencies(s: Schema, t: string, found: seq<string>): (r: seq<string>)
    ensures found <= r
    ensures t in s && t !in found ==> |r| > |found| && r[|found|] == t
    decreases s.Keys - Elements(found), 1, 0
  {
    if t in found || t !in s then found
    else
      assert t in s.Keys - Elements(found) && t !in s.Keys - Elements(found + [t]);
      FieldDependencies(s, s[t], found + [t])
  }

  function FieldDependencies(s: Schema, fields: seq<Field>, found: seq<string>): (r: seq<string>)
    ensures found <= r
    decreases s.Keys - Elements(found), 2, |fields|
  {
    if fields == [] then found
    else
      var next := Dependencies(s, BaseName(fields[0].typ), found);
      assert forall n :: n in found ==> n in next;
      assert s.Keys - Elements(next) <= s.Keys - Elements(found);
      FieldDependencies(s, fields[1..], next)
  }

  /** Lexicographic order of names. */
  predicate NameLe(a: string, b: string)
  {
    a == [] || (b != [] && (a[0] < b[0] || (a[0] == b[0] && NameLe(a[1..], b[1..]))))
  }

  function Insert(x: string, names: seq<string>): seq<string>
  {
    if names == [] || NameLe(x, names[0]) then [x] + names else [names[0]] + Insert(x, names[1..])
  }

  function Sort(names: seq<string>): seq<string>
  {
    if names == [] then [] else Insert(names[0], Sort(names[1..]))
  }

  function FieldsText(fields: seq<Field>): string
  {
    if fields == [] then ""
    else
      var first := TypeText(fields[0].typ) + " " + fields[0].name;
      if |fields| == 1 then first else first + "," + FieldsText(fields[1..])
  }

  function FieldsOf(s: Schema, name: string): seq<Field>
  {
    if name in s then s[name] else []
  }

  /** A name and its fields; without fields the opening parenthesis is cut off with the last comma. */
  function StructText(s: Schema, name: string): string
  {
    var fields := FieldsOf(s, name);
    name + (if fields == [] then "" else "(" + FieldsText(fields)) + ")"
  }

  function StructTexts(s: Schema, names: seq<string>): string
  {
    if names == [] then "" else StructText(s, names[0]) + StructTexts(s, names[1..])
  }

  /** The part of a type's name before its first bracket. */
  function BaseOf(name: string): (base: string)
    ensures |base| <= |name|
  {
    if name == "" || name[0] == '[' then "" else [name[0]] + BaseOf(name[1..])
  }

  /** The types that a type refers to, sorted. */
  function Referred(s: Schema, base: string): seq<string>
    requires base in s
  {
    Sort(Dependencies(s, base, [])[1..])
  }

  /** The struct types in the order `encodeType` lists them: the primary type as it is named, then the others sorted. */
  function TypeOrder(s: Schema, primary: string): seq<string>
  {
    if BaseOf(primary) !in s then [] else [primary] + Referred(s, BaseOf(primary))
  }

  function EncodeType(s: Schema, primary: string): string
  {
    StructTexts(s, TypeOrder(s, primary))
  }

  /** One byte a character: every name in a schema is ASCII. */
  function TextBytes(t: string): (b: Bytes)
    ensures |b| == |t|
  {
    seq(|t|, i requires 0 <= i < |t| => t[i] as int % 256)
  }

  //
  // encodeData and hashStruct
  //

  function EncodeData(h: Keccak, s: Schema, name: string, v: Datum): Result<Bytes, TypedDataError>
    requires v.Struct?
    decreases v, 1, 0
  {
    if |FieldsOf(s, name)| < |v.fields| then Err(ExtraFields)
    else
      var words :- EncodeFields(h, s, FieldsOf(s, name), v);
      Ok(h(TextBytes(EncodeType(s, name))) + words)
  }

  function EncodeFields(h: Keccak, s: Schema, fields: seq<Field>, v: Datum): Result<Bytes, TypedDataError>
    requires v.Struct?
    decreases v, 0, |fields|
  {
    if fields == [] then Ok([])
    else if fields[0].name !in v.fields then Err(Mismatch)
    else
      var word :- EncodeField(h, s, fields[0].typ, v.fields[fields[0].name]);
      var rest :- EncodeFields(h, s, fields[1..], v);
      Ok(word + rest)
  }

  function EncodeField(h: Keccak, s: Schema, t: FieldType, v: Datum): (r: Result<Bytes, TypedDataError>)
    ensures r.Ok? ==> |r.value| == 32
    decreases v, 2, 0
  {
    match t
    case UintField =>
      if !v.Uint? then Err(Mismatch) else if 0 <= v.n < UINT256_LIMIT then Ok(Word(v.n)) else Err(OutOfRange)
    case AddressField => if v.Account? then Ok(Zeros(12) + v.a) else Err(Mismatch)
    case StringField => if v.Str? then Ok(h(v.s)) else Err(Mismatch)
    case BytesField => if v.Raw? then Ok(h(v.b)) else Err(Mismatch)
    case ArrayField(elem) =>
      if !v.Items? then Err(Mismatch)
      else
        var words :- EncodeItems(h, s, elem, v.items);
        Ok(h(words))
    case StructField(name) =>
      if !v.Struct? || name !in s then Err(Mismatch)
      else
        var data :- EncodeData(h, s, name, v);
        Ok(h(data))
  }

  function EncodeItems(h: Keccak, s: Schema, elem: FieldType, items: seq<Datum>): Result<Bytes, TypedDataError>
    decreases items, 0, 0
  {
    if items == [] then Ok([])
    else
      var word :- EncodeField(h, s, elem, items[0]);
      var rest :- EncodeItems(h, s, elem, items[1..]);
      Ok(word + rest)
  }

  function HashStruct(h: Keccak, s: Schema, name: string, v: Datum): (r: Result<Word32, TypedDataError>)
  {
    if !v.Struct? then Err(Mismatch)
    else
      var data :- EncodeData(h, s, name, v);
      Ok(h(data))
  }

  //
  // Domain and digest
  //

  datatype Domain = Domain(
    name: Bytes, version: Bytes, chainId: Option<int>, verifyingContract: Option<Address20>, salt: Bytes)

  const DOMAIN := "EIP712Domain"

  const DOMAIN_NAME := Ascii("FilecoinWarmStorageService")

  const DOMAIN_VERSION := Ascii("1")

  function GetDomain(chainId: int, verifyingContract: Address20): Domain
  {
    Domain(DOMAIN_NAME, DOMAIN_VERSION, Some(chainId), Some(verifyingContract), [])
  }

  /** The domain as a message: only the fields that are set. */
  function DomainMap(d: Domain): Datum
  {
    var m0: map<string, Datum> := map[];
    var m1 := if d.name != [] then m0["name" := Str(d.name)] else m0;
    var m2 := if d.version != [] then m1["version" := Str(d.version)] else m1;
    var m3 := if d.chainId.Some? then m2["chainId" := Uint(d.chainId.value)] else m2;
    var m4 := if d.verifyingContract.Some? then m3["verifyingContract" := Account(d.verifyingContract.value)] else m3;
    Struct(if d.salt != [] then m4["salt" := Raw(d.salt)] else m4)
  }

  function RawData(separator: Word32, messageHash: Word32): Bytes
  {
    [0x19, 0x01] + separator + messageHash
  }

  function GetMessageHash(h: Keccak, domain: Domain, primary: string, message: Datum): Result<Word32, TypedDataError>
  {
    var separator :- HashStruct(h, EIP712Types(), DOMAIN, DomainMap(domain));
    var messageHash :- HashStruct(h, EIP712Types(), primary, message);
    Ok(h(RawData(separator, messageHash)))
  }
}
