/** The type texts of the operations, as `encodeType` computes them from the schema table. */
module TypeTexts {
  import opened Bytes
  import opened TypedData

  // Fields as they appear in a type text.
  const CLIENT_DATA_SET_ID := "uint256 clientDataSetId"
  const METADATA := "MetadataEntry[] metadata"

  const DOMAIN_TEXT :=
    "EIP712Domain" + "(" +
    ("string name" + "," +
     ("string version" + "," + ("uint256 chainId" + "," + ("address" + " " + "verifyingContract")))) + ")"
  const METADATA_ENTRY_TEXT := "MetadataEntry" + "(" + ("string key" + "," + "string value") + ")"
  const CREATE_DATA_SET_TEXT :=
    "CreateDataSet" + "(" + (CLIENT_DATA_SET_ID + "," + ("address payee" + "," + METADATA)) + ")"
  const CID_TEXT := "Cid" + "(" + "bytes data" + ")"
  const PIECE_METADATA_TEXT := "PieceMetadata" + "(" + ("uint256 pieceIndex" + "," + METADATA) + ")"
  const ADD_PIECES_TEXT :=
    "AddPieces" + "(" +
    (CLIENT_DATA_SET_ID + "," +
     ("uint256 nonce" + "," + ("Cid[] pieceData" + "," + "PieceMetadata[] pieceMetadata"))) + ")"
  const SCHEDULE_PIECE_REMOVALS_TEXT :=
    "SchedulePieceRemovals" + "(" + (CLIENT_DATA_SET_ID + "," + "uint256[] pieceIds") + ")"

  const DELETE_DATA_SET_TEXT := "DeleteDataSet" + "(" + CLIENT_DATA_SET_ID + ")"

  const ENTRY_ARRAY := ArrayField(StructField("MetadataEntry"))

  /** The rows of the schema table, all of them. */
  lemma TableRows()
    ensures var s := EIP712Types();
            && "EIP712Domain" in s && "MetadataEntry" in s && "CreateDataSet" in s && "Cid" in s
            && "PieceMetadata" in s && "AddPieces" in s && "SchedulePieceRemovals" in s && "DeleteDataSet" in s
            && s["EIP712Domain"] ==
               [Field("name", StringField), Field("version", StringField), Field("chainId", UintField),
                Field("verifyingContract", AddressField)]
            && s["MetadataEntry"] == [Field("key", StringField), Field("value", StringField)]
            && s["CreateDataSet"] ==
               [Field("clientDataSetId", UintField), Field("payee", AddressField), Field("metadata", ENTRY_ARRAY)]
            && s["Cid"] == [Field("data", BytesField)]
            && s["PieceMetadata"] == [Field("pieceIndex", UintField), Field("metadata", ENTRY_ARRAY)]
            && s["AddPieces"] == [
                 Field("clientDataSetId", UintField), Field("nonce", UintField),
                 Field("pieceData", ArrayField(StructField("Cid"))),
                 Field("pieceMetadata", ArrayField(StructField("PieceMetadata")))]
            && s["SchedulePieceRemovals"] ==
               [Field("clientDataSetId", UintField), Field("pieceIds", ArrayField(UintField))]
            && s["DeleteDataSet"] == [Field("clientDataSetId", UintField)]
  {
  }

  /** And nothing else. */
  lemma NoOtherRows(name: string)
    ensures name in EIP712Types() <==>
            || name == "EIP712Domain" || name == "MetadataEntry" || name == "CreateDataSet" || name == "Cid"
            || name == "PieceMetadata" || name == "AddPieces" || name == "SchedulePieceRemovals"
            || name == "DeleteDataSet"
  {
  }

  lemma PrimitivesAreNotTypes()
    ensures "uint256" !in EIP712Types() && "address" !in EIP712Types()
    ensures "string" !in EIP712Types() && "bytes" !in EIP712Types()
  {
  }

  lemma {:induction false} PlainBase(name: string)
    requires forall i :: 0 <= i < |name| ==> name[i] != '['
    ensures BaseOf(name) == name
  {
    if name != "" {
      PlainBase(name[1..]);
    }
  }

  lemma BasesOfStructs()
    ensures BaseOf("EIP712Domain") == "EIP712Domain" && BaseOf("MetadataEntry") == "MetadataEntry"
    ensures BaseOf("Cid") == "Cid" && BaseOf("PieceMetadata") == "PieceMetadata"
  {
    hide BaseOf;
    PlainBase("EIP712Domain");
    PlainBase("MetadataEntry");
    PlainBase("Cid");
    PlainBase("PieceMetadata");
  }

  lemma BasesOfOperations()
    ensures BaseOf("CreateDataSet") == "CreateDataSet" && BaseOf("AddPieces") == "AddPieces"
    ensures BaseOf("SchedulePieceRemovals") == "SchedulePieceRemovals" && BaseOf("DeleteDataSet") == "DeleteDataSet"
  {
    hide BaseOf;
    PlainBase("CreateDataSet");
    PlainBase("AddPieces");
    PlainBase("SchedulePieceRemovals");
    PlainBase("DeleteDataSet");
  }

  //
  // Order of the types
  //

  lemma {:induction false} PrimitiveFields(s: Schema, fields: seq<Field>, found: seq<string>)
    requires forall f :: f in fields ==> BaseName(f.typ) !in s
    ensures FieldDependencies(s, fields, found) == found
  {
    if fields != [] {
      PrimitiveFields(s, fields[1..], found);
    }
  }

  /** A type whose fields refer to no other type adds only itself. */
  lemma LeafType(s: Schema, t: string, found: seq<string>)
    requires t in s && t !in found && forall f :: f in s[t] ==> BaseName(f.typ) !in s
    ensures Dependencies(s, t, found) == found + [t]
  {
    PrimitiveFields(s, s[t], found + [t]);
  }

  /** Fields before the last that refer to no type are passed over. */
  lemma {:induction false} LastField(s: Schema, fields: seq<Field>, found: seq<string>)
    requires fields != [] && forall i :: 0 <= i < |fields| - 1 ==> BaseName(fields[i].typ) !in s
    ensures FieldDependencies(s, fields, found) == Dependencies(s, BaseName(fields[|fields| - 1].typ), found)
  {
    if |fields| > 1 {
      LastField(s, fields[1..], found);
      assert fields[1..][|fields| - 2] == fields[|fields| - 1];
    } else {
      assert fields[1..] == [];
    }
  }

  /** A type that refers to one leaf type, in its last field. */
  lemma OneReference(s: Schema, t: string, leaf: string, found: seq<string>)
    requires t in s && leaf in s && t !in found && leaf !in found && t != leaf && s[t] != []
    requires forall i :: 0 <= i < |s[t]| - 1 ==> BaseName(s[t][i].typ) !in s
    requires BaseName(s[t][|s[t]| - 1].typ) == leaf
    requires forall f :: f in s[leaf] ==> BaseName(f.typ) !in s
    ensures Dependencies(s, t, found) == found + [t] + [leaf]
  {
    LastField(s, s[t], found + [t]);
    LeafType(s, leaf, found + [t]);
  }

  lemma LeafStructs()
    ensures var s := EIP712Types();
            && (forall f :: f in s["MetadataEntry"] ==> BaseName(f.typ) !in s)
            && (forall f :: f in s["Cid"] ==> BaseName(f.typ) !in s)
  {
    TableRows();
    PrimitivesAreNotTypes();
    hide EIP712Types;
  }

  lemma LeafDomain()
    ensures var s := EIP712Types(); forall f :: f in s["EIP712Domain"] ==> BaseName(f.typ) !in s
  {
    TableRows();
    PrimitivesAreNotTypes();
    hide EIP712Types;
  }

  lemma LeafRemovals()
    ensures var s := EIP712Types(); forall f :: f in s["SchedulePieceRemovals"] ==> BaseName(f.typ) !in s
  {
    TableRows();
    PrimitivesAreNotTypes();
    hide EIP712Types;
  }

  lemma LeafDeletion()
    ensures var s := EIP712Types(); forall f :: f in s["DeleteDataSet"] ==> BaseName(f.typ) !in s
  {
    TableRows();
    PrimitivesAreNotTypes();
    hide EIP712Types;
  }

  lemma LeafOrder(t: string)
    requires t in EIP712Types() && BaseOf(t) == t
    requires forall f :: f in EIP712Types()[t] ==> BaseName(f.typ) !in EIP712Types()
    ensures TypeOrder(EIP712Types(), t) == [t]
  {
    hide EIP712Types, BaseOf;
    LeafType(EIP712Types(), t, []);
    assert [] + [t] == [t] && [t][1..] == [];
  }

  lemma OrderOfTwo(s: Schema, t: string, leaf: string)
    requires t in s && leaf in s && t != leaf && s[t] != [] && BaseOf(t) == t
    requires forall i :: 0 <= i < |s[t]| - 1 ==> BaseName(s[t][i].typ) !in s
    requires BaseName(s[t][|s[t]| - 1].typ) == leaf
    requires forall f :: f in s[leaf] ==> BaseName(f.typ) !in s
    ensures TypeOrder(s, t) == [t, leaf]
  {
    hide BaseOf, BaseName;
    OneReference(s, t, leaf, []);
    assert [] + [t] + [leaf] == [t, leaf];
    assert [t, leaf][1..] == [leaf] && [leaf][1..] == [];
    assert Sort([]) == [] && Insert(leaf, []) == [leaf] && Sort([leaf]) == [leaf];
    assert [t] + [leaf] == [t, leaf];
  }

  /** A type with two primitive fields, then a leaf type, then a type that refers to another leaf. */
  lemma DependenciesOfFour(s: Schema, t: string, x: string, y: string, z: string)
    requires t in s && x in s && y in s && z in s
    requires t != x && t != y && t != z && x != y && x != z && y != z
    requires |s[t]| == 4 && BaseName(s[t][0].typ) !in s && BaseName(s[t][1].typ) !in s
    requires BaseName(s[t][2].typ) == x && BaseName(s[t][3].typ) == y
    requires s[y] != [] && BaseName(s[y][|s[y]| - 1].typ) == z
    requires forall i :: 0 <= i < |s[y]| - 1 ==> BaseName(s[y][i].typ) !in s
    requires forall f :: f in s[x] ==> BaseName(f.typ) !in s
    requires forall f :: f in s[z] ==> BaseName(f.typ) !in s
    ensures Dependencies(s, t, []) == [t, x, y, z]
  {
    var a := s[t];
    LeafType(s, x, [t]);
    assert [t] + [x] == [t, x];
    OneReference(s, y, z, [t, x]);
    assert [t, x] + [y] + [z] == [t, x, y, z];
    FieldsStep(s, a, [t]);
    FieldsStep(s, a[1..], [t]);
    FieldsStep(s, a[1..][1..], [t]);
    FieldsStep(s, a[1..][1..][1..], [t, x]);
    assert FieldDependencies(s, a, [t]) == [t, x, y, z];
    assert [] + [t] == [t];
  }

  lemma FieldsStep(s: Schema, fields: seq<Field>, found: seq<string>)
    requires fields != []
    ensures FieldDependencies(s, fields, found) ==
            FieldDependencies(s, fields[1..], Dependencies(s, BaseName(fields[0].typ), found))
  {
  }

  /** The last field of `t` is an array of entries, and the fields before it refer to no type. */
  lemma EntryUsers()
    ensures var s := EIP712Types();
            && "MetadataEntry" in s && (forall f :: f in s["MetadataEntry"] ==> BaseName(f.typ) !in s)
            && "CreateDataSet" in s && |s["CreateDataSet"]| == 3 && "PieceMetadata" in s && |s["PieceMetadata"]| == 2
            && BaseName(s["CreateDataSet"][0].typ) !in s && BaseName(s["CreateDataSet"][1].typ) !in s
            && BaseName(s["CreateDataSet"][2].typ) == "MetadataEntry"
            && BaseName(s["PieceMetadata"][0].typ) !in s && BaseName(s["PieceMetadata"][1].typ) == "MetadataEntry"
  {
    TableRows();
    PrimitivesAreNotTypes();
    LeafStructs();
    hide EIP712Types;
  }

  lemma DistinctTypeNames()
    ensures "CreateDataSet" != "MetadataEntry" && "AddPieces" != "Cid" && "AddPieces" != "PieceMetadata"
    ensures "AddPieces" != "MetadataEntry" && "Cid" != "PieceMetadata" && "Cid" != "MetadataEntry"
    ensures "PieceMetadata" != "MetadataEntry"
  {
  }

  lemma CreateDataSetOrder()
    ensures TypeOrder(EIP712Types(), "CreateDataSet") == ["CreateDataSet", "MetadataEntry"]
  {
    EntryUsers();
    DistinctTypeNames();
    BasesOfOperations();
    hide EIP712Types, TypeOrder, BaseName, BaseOf;
    OrderOfTwo(EIP712Types(), "CreateDataSet", "MetadataEntry");
  }

  lemma PieceMetadataOrder()
    ensures TypeOrder(EIP712Types(), "PieceMetadata") == ["PieceMetadata", "MetadataEntry"]
  {
    EntryUsers();
    DistinctTypeNames();
    BasesOfStructs();
    hide EIP712Types, TypeOrder, BaseName, BaseOf;
    OrderOfTwo(EIP712Types(), "PieceMetadata", "MetadataEntry");
  }

  lemma AddPiecesDependencies()
    ensures Dependencies(EIP712Types(), "AddPieces", []) == ["AddPieces", "Cid", "PieceMetadata", "MetadataEntry"]
  {
    EntryUsers();
    DistinctTypeNames();
    AddPiecesRow();
    LeafStructs();
    hide EIP712Types, Dependencies, BaseName;
    DependenciesOfFour(EIP712Types(), "AddPieces", "Cid", "PieceMetadata", "MetadataEntry");
  }

  lemma AddPiecesRow()
    ensures var s := EIP712Types();
            && "AddPieces" in s && "Cid" in s && |s["AddPieces"]| == 4
            && BaseName(s["AddPieces"][0].typ) !in s && BaseName(s["AddPieces"][1].typ) !in s
            && BaseName(s["AddPieces"][2].typ) == "Cid" && BaseName(s["AddPieces"][3].typ) == "PieceMetadata"
  {
    TableRows();
    PrimitivesAreNotTypes();
    hide EIP712Types;
  }

  lemma AddPiecesOrder()
    ensures TypeOrder(EIP712Types(), "AddPieces") == ["AddPieces", "Cid", "MetadataEntry", "PieceMetadata"]
  {
    AddPiecesDependencies();
    AddPiecesRow();
    BasesOfOperations();
    hide EIP712Types, Dependencies, Sort, BaseOf, BaseName;
    assert ["AddPieces", "Cid", "PieceMetadata", "MetadataEntry"][1..] == ["Cid", "PieceMetadata", "MetadataEntry"];
    SortedThree();
  }

  lemma SortedThree()
    ensures Sort(["Cid", "PieceMetadata", "MetadataEntry"]) == ["Cid", "MetadataEntry", "PieceMetadata"]
  {
  }

  //
  // Texts
  //

  function FieldText(f: Field): string
  {
    TypeText(f.typ) + " " + f.name
  }

  lemma TextOfOne(f: Field)
    ensures FieldsText([f]) == FieldText(f)
  {
  }

  lemma TextOfMore(f: Field, rest: seq<Field>)
    requires rest != []
    ensures FieldsText([f] + rest) == FieldText(f) + "," + FieldsText(rest)
  {
    assert ([f] + rest)[0] == f && ([f] + rest)[1..] == rest;
  }

  lemma TextOfTwo(f: Field, g: Field)
    ensures FieldsText([f, g]) == FieldText(f) + "," + FieldText(g)
  {
    TextOfOne(g);
    TextOfMore(f, [g]);
    assert [f] + [g] == [f, g];
  }

  lemma TextOfThree(f: Field, g: Field, h: Field)
    ensures FieldsText([f, g, h]) == FieldText(f) + "," + (FieldText(g) + "," + FieldText(h))
  {
    TextOfTwo(g, h);
    TextOfMore(f, [g, h]);
    assert [f] + [g, h] == [f, g, h];
  }

  lemma TextOfFour(f: Field, g: Field, h: Field, k: Field)
    ensures FieldsText([f, g, h, k]) == FieldText(f) + "," + (FieldText(g) + "," + (FieldText(h) + "," + FieldText(k)))
  {
    TextOfThree(g, h, k);
    TextOfMore(f, [g, h, k]);
    assert [f] + [g, h, k] == [f, g, h, k];
  }

  lemma IdFieldText()
    ensures FieldText(Field("clientDataSetId", UintField)) == CLIENT_DATA_SET_ID
  {
  }

  lemma OperationFieldTexts()
    ensures FieldText(Field("payee", AddressField)) == "address payee"
    ensures FieldText(Field("nonce", UintField)) == "uint256 nonce"
  {
  }

  lemma PieceIdsFieldText()
    ensures FieldText(Field("pieceIds", ArrayField(UintField))) == "uint256[] pieceIds"
  {
  }

  lemma DomainFieldTexts()
    ensures FieldText(Field("name", StringField)) == "string name"
    ensures FieldText(Field("version", StringField)) == "string version"
    ensures FieldText(Field("chainId", UintField)) == "uint256 chainId"
    ensures FieldText(Field("verifyingContract", AddressField)) == "address" + " " + "verifyingContract"
  {
  }

  lemma PieceFieldTexts()
    ensures FieldText(Field("key", StringField)) == "string key"
    ensures FieldText(Field("value", StringField)) == "string value"
    ensures FieldText(Field("data", BytesField)) == "bytes data"
    ensures FieldText(Field("pieceIndex", UintField)) == "uint256 pieceIndex"
  {
  }

  lemma ArrayFieldText(name: string, of: string)
    ensures FieldText(Field(name, ArrayField(StructField(of)))) == of + "[]" + " " + name
  {
    assert TypeText(StructField(of)) == of;
  }

  lemma MetadataFieldText()
    ensures FieldText(Field("metadata", ENTRY_ARRAY)) == METADATA
  {
    ArrayFieldText("metadata", "MetadataEntry");
  }

  lemma PieceDataFieldText()
    ensures FieldText(Field("pieceData", ArrayField(StructField("Cid")))) == "Cid[] pieceData"
  {
    ArrayFieldText("pieceData", "Cid");
  }

  lemma PieceMetadataFieldText()
    ensures FieldText(Field("pieceMetadata", ArrayField(StructField("PieceMetadata")))) ==
            "PieceMetadata[] pieceMetadata"
  {
    ArrayFieldText("pieceMetadata", "PieceMetadata");
  }

  lemma TextsOfOne(s: Schema, a: string)
    ensures StructTexts(s, [a]) == StructText(s, a)
  {
    assert [a][1..] == [];
  }

  lemma TextsOfMore(s: Schema, a: string, rest: seq<string>)
    ensures StructTexts(s, [a] + rest) == StructText(s, a) + StructTexts(s, rest)
  {
    assert ([a] + rest)[0] == a && ([a] + rest)[1..] == rest;
  }

  lemma TextOfStruct(s: Schema, name: string)
    requires name in s && s[name] != []
    ensures StructText(s, name) == name + ("(" + FieldsText(s[name])) + ")"
    ensures StructText(s, name) == name + "(" + FieldsText(s[name]) + ")"
  {
  }

  lemma LeafText(t: string)
    requires t in EIP712Types() && BaseOf(t) == t
    requires forall f :: f in EIP712Types()[t] ==> BaseName(f.typ) !in EIP712Types()
    ensures EncodeType(EIP712Types(), t) == StructText(EIP712Types(), t)
  {
    hide EIP712Types, StructText, BaseOf, TypeOrder;
    LeafOrder(t);
    TextsOfOne(EIP712Types(), t);
  }

  lemma DomainText()
    ensures EncodeType(EIP712Types(), "EIP712Domain") == DOMAIN_TEXT
  {
    TableRows();
    LeafDomain();
    BasesOfStructs();
    hide EIP712Types, BaseOf, BaseName, StructText, TypeText, EncodeType, FieldText, FieldsText;
    LeafText("EIP712Domain");
    TextOfStruct(EIP712Types(), "EIP712Domain");
    DomainFieldTexts();
    TextOfFour(Field("name", StringField), Field("version", StringField), Field("chainId", UintField),
        Field("verifyingContract", AddressField));
  }

  lemma EntryText()
    ensures StructText(EIP712Types(), "MetadataEntry") == METADATA_ENTRY_TEXT
    ensures EncodeType(EIP712Types(), "MetadataEntry") == METADATA_ENTRY_TEXT
  {
    TableRows();
    LeafStructs();
    BasesOfStructs();
    hide EIP712Types, BaseOf, BaseName, StructText, TypeText, EncodeType, FieldText, FieldsText;
    LeafText("MetadataEntry");
    TextOfStruct(EIP712Types(), "MetadataEntry");
    PieceFieldTexts();
    TextOfTwo(Field("key", StringField), Field("value", StringField));
  }

  lemma CidText()
    ensures StructText(EIP712Types(), "Cid") == CID_TEXT
    ensures EncodeType(EIP712Types(), "Cid") == CID_TEXT
  {
    TableRows();
    LeafStructs();
    BasesOfStructs();
    hide EIP712Types, BaseOf, BaseName, StructText, TypeText, EncodeType, FieldText, FieldsText;
    LeafText("Cid");
    TextOfStruct(EIP712Types(), "Cid");
    PieceFieldTexts();
    TextOfOne(Field("data", BytesField));
  }

  lemma SchedulePieceRemovalsText()
    ensures EncodeType(EIP712Types(), "SchedulePieceRemovals") == SCHEDULE_PIECE_REMOVALS_TEXT
  {
    TableRows();
    LeafRemovals();
    BasesOfOperations();
    hide EIP712Types, BaseOf, BaseName, StructText, TypeText, EncodeType, FieldText, FieldsText;
    LeafText("SchedulePieceRemovals");
    TextOfStruct(EIP712Types(), "SchedulePieceRemovals");
    IdFieldText();
    PieceIdsFieldText();
    TextOfTwo(Field("clientDataSetId", UintField), Field("pieceIds", ArrayField(UintField)));
  }

  lemma DeleteDataSetText()
    ensures EncodeType(EIP712Types(), "DeleteDataSet") == DELETE_DATA_SET_TEXT
  {
    TableRows();
    LeafDeletion();
    BasesOfOperations();
    hide EIP712Types, BaseOf, BaseName, StructText, TypeText, EncodeType, FieldText, FieldsText;
    LeafText("DeleteDataSet");
    TextOfStruct(EIP712Types(), "DeleteDataSet");
    IdFieldText();
    TextOfOne(Field("clientDataSetId", UintField));
  }

  lemma CreateDataSetText()
    ensures EncodeType(EIP712Types(), "CreateDataSet") == CREATE_DATA_SET_TEXT + METADATA_ENTRY_TEXT
  {
    TableRows();
    CreateDataSetOrder();
    EntryText();
    hide EIP712Types, TypeOrder, StructText, TypeText, FieldText, FieldsText;
    var s := EIP712Types();
    TextOfStruct(s, "CreateDataSet");
    IdFieldText();
    OperationFieldTexts();
    MetadataFieldText();
    TextOfThree(Field("clientDataSetId", UintField), Field("payee", AddressField), Field("metadata", ENTRY_ARRAY));
    TextsOfOne(s, "MetadataEntry");
    TextsOfMore(s, "CreateDataSet", ["MetadataEntry"]);
    assert ["CreateDataSet"] + ["MetadataEntry"] == ["CreateDataSet", "MetadataEntry"];
  }

  lemma PieceMetadataStructText()
    ensures StructText(EIP712Types(), "PieceMetadata") == PIECE_METADATA_TEXT
  {
    TableRows();
    hide EIP712Types, StructText, TypeText, FieldText, FieldsText;
    TextOfStruct(EIP712Types(), "PieceMetadata");
    PieceFieldTexts();
    MetadataFieldText();
    TextOfTwo(Field("pieceIndex", UintField), Field("metadata", ENTRY_ARRAY));
  }

  lemma PieceMetadataText()
    ensures EncodeType(EIP712Types(), "PieceMetadata") == PIECE_METADATA_TEXT + METADATA_ENTRY_TEXT
  {
    PieceMetadataOrder();
    PieceMetadataStructText();
    EntryText();
    hide EIP712Types, TypeOrder, StructText;
    var s := EIP712Types();
    TextsOfOne(s, "MetadataEntry");
    TextsOfMore(s, "PieceMetadata", ["MetadataEntry"]);
    assert ["PieceMetadata"] + ["MetadataEntry"] == ["PieceMetadata", "MetadataEntry"];
  }

  lemma AddPiecesStructText()
    ensures StructText(EIP712Types(), "AddPieces") == ADD_PIECES_TEXT
  {
    TableRows();
    hide EIP712Types, StructText, TypeText, FieldText, FieldsText;
    TextOfStruct(EIP712Types(), "AddPieces");
    IdFieldText();
    OperationFieldTexts();
    PieceDataFieldText();
    PieceMetadataFieldText();
    TextOfFour(Field("clientDataSetId", UintField), Field("nonce", UintField),
      Field("pieceData", ArrayField(StructField("Cid"))),
      Field("pieceMetadata", ArrayField(StructField("PieceMetadata"))));
  }

  /** The type text that an AddPieces signature commits to. */
  lemma AddPiecesText()
    ensures EncodeType(EIP712Types(), "AddPieces") ==
            ADD_PIECES_TEXT + (CID_TEXT + (METADATA_ENTRY_TEXT + PIECE_METADATA_TEXT))
  {
    AddPiecesOrder();
    AddPiecesStructText();
    CidText();
    EntryText();
    PieceMetadataStructText();
    hide EIP712Types, TypeOrder, StructText;
    var s := EIP712Types();
    TextsOfOne(s, "PieceMetadata");
    TextsOfMore(s, "MetadataEntry", ["PieceMetadata"]);
    assert ["MetadataEntry"] + ["PieceMetadata"] == ["MetadataEntry", "PieceMetadata"];
    TextsOfMore(s, "Cid", ["MetadataEntry", "PieceMetadata"]);
    assert ["Cid"] + ["MetadataEntry", "PieceMetadata"] == ["Cid", "MetadataEntry", "PieceMetadata"];
    TextsOfMore(s, "AddPieces", ["Cid", "MetadataEntry", "PieceMetadata"]);
    assert ["AddPieces"] + ["Cid", "MetadataEntry", "PieceMetadata"] ==
        ["AddPieces", "Cid", "MetadataEntry", "PieceMetadata"];
  }
}
