/** The type texts that the signer computes are the contract's, character for character. */
module TypeLiterals {
  import opened TypedData
  import opened TypeTexts
  import opened ContractDigest

  //
  // The same text in other pieces
  //

  lemma Associates(a: string, b: string, c: string)
    ensures a + b + c == a + (b + c)
  {
  }

  lemma RegroupOne(name: string, f1: string, open: string, p1: string)
    requires open == name + "(" && p1 == f1 + ")"
    ensures name + "(" + f1 + ")" == open + p1
  {
    assert open + p1 == name + "(" + f1 + ")";
  }

  lemma RegroupFieldsTwo(f1: string, f2: string, p1: string, p2: string)
    requires p1 == f1 + "," && p2 == f2 + ")"
    ensures (f1 + "," + f2) + ")" == p1 + p2
  {
    Associates(p1, f2, ")");
  }

  lemma RegroupTwo(name: string, f1: string, f2: string, open: string, p1: string, p2: string)
    requires open == name + "(" && p1 == f1 + "," && p2 == f2 + ")"
    ensures name + "(" + (f1 + "," + f2) + ")" == open + (p1 + p2)
  {
    RegroupFieldsTwo(f1, f2, p1, p2);
    Associates(name + "(", f1 + "," + f2, ")");
  }

  lemma RegroupFieldsThree(f1: string, f2: string, f3: string, p1: string, p2: string, p3: string)
    requires p1 == f1 + "," && p2 == f2 + "," && p3 == f3 + ")"
    ensures (f1 + "," + (f2 + "," + f3)) + ")" == p1 + (p2 + p3)
  {
    RegroupFieldsTwo(f2, f3, p2, p3);
    Associates(p1, f2 + "," + f3, ")");
  }

  lemma RegroupThree(name: string, f1: string, f2: string, f3: string, open: string, p1: string, p2: string, p3: string)
    requires open == name + "(" && p1 == f1 + "," && p2 == f2 + "," && p3 == f3 + ")"
    ensures name + "(" + (f1 + "," + (f2 + "," + f3)) + ")" == open + (p1 + (p2 + p3))
  {
    RegroupFieldsThree(f1, f2, f3, p1, p2, p3);
    Associates(name + "(", f1 + "," + (f2 + "," + f3), ")");
  }

  lemma RegroupFieldsFour(
    f1: string, f2: string, f3: string, f4: string, p1: string, p2: string, p3: string, p4: string)
    requires p1 == f1 + "," && p2 == f2 + "," && p3 == f3 + "," && p4 == f4 + ")"
    ensures (f1 + "," + (f2 + "," + (f3 + "," + f4))) + ")" == p1 + (p2 + (p3 + p4))
  {
    RegroupFieldsThree(f2, f3, f4, p2, p3, p4);
    Associates(p1, f2 + "," + (f3 + "," + f4), ")");
  }

  lemma RegroupFour(
    name: string, f1: string, f2: string, f3: string, f4: string,
    open: string, p1: string, p2: string, p3: string, p4: string)
    requires open == name + "(" && p1 == f1 + "," && p2 == f2 + "," && p3 == f3 + "," && p4 == f4 + ")"
    ensures name + "(" + (f1 + "," + (f2 + "," + (f3 + "," + f4))) + ")" == open + (p1 + (p2 + (p3 + p4)))
  {
    RegroupFieldsFour(f1, f2, f3, f4, p1, p2, p3, p4);
    Associates(name + "(", f1 + "," + (f2 + "," + (f3 + "," + f4)), ")");
  }

  //
  // Struct by struct
  //

  lemma MetadataEntryOpens()
    ensures "MetadataEntry" + "(" == "MetadataEntry("
  {
  }

  lemma StringKeyComma()
    ensures "string key" + "," == "string key,"
  {
  }

  lemma StringValueCloses()
    ensures "string value" + ")" == "string value)"
  {
  }

  lemma EntryLiteral()
    ensures METADATA_ENTRY_TEXT ==
            "MetadataEntry(" + ("string key," + "string value)")
  {
    MetadataEntryOpens();
    StringKeyComma();
    StringValueCloses();
    RegroupTwo("MetadataEntry", "string key", "string value",
      "MetadataEntry(", "string key,", "string value)");
  }

  lemma CidOpens()
    ensures "Cid" + "(" == "Cid("
  {
  }

  lemma BytesDataCloses()
    ensures "bytes data" + ")" == "bytes data)"
  {
  }

  lemma CidLiteral()
    ensures CID_TEXT ==
            "Cid(" + "bytes data)"
  {
    CidOpens();
    BytesDataCloses();
    RegroupOne("Cid", "bytes data",
      "Cid(", "bytes data)");
  }

  lemma PieceMetadataOpens()
    ensures "PieceMetadata" + "(" == "PieceMetadata("
  {
  }

  lemma Uint256PieceIndexComma()
    ensures "uint256 pieceIndex" + "," == "uint256 pieceIndex,"
  {
  }

  lemma MetadataEntryMetadataCloses()
    ensures "MetadataEntry[] metadata" + ")" == "MetadataEntry[] metadata)"
  {
  }

  lemma PieceMetadataLiteral()
    ensures PIECE_METADATA_TEXT ==
            "PieceMetadata(" + ("uint256 pieceIndex," + "MetadataEntry[] metadata)")
  {
    PieceMetadataOpens();
    Uint256PieceIndexComma();
    MetadataEntryMetadataCloses();
    RegroupTwo("PieceMetadata", "uint256 pieceIndex", "MetadataEntry[] metadata",
      "PieceMetadata(", "uint256 pieceIndex,", "MetadataEntry[] metadata)");
  }

  lemma CreateDataSetOpens()
    ensures "CreateDataSet" + "(" == "CreateDataSet("
  {
  }

  lemma Uint256ClientDataSetIdComma()
    ensures "uint256 clientDataSetId" + "," == "uint256 clientDataSetId,"
  {
  }

  lemma AddressPayeeComma()
    ensures "address payee" + "," == "address payee,"
  {
  }

  lemma CreateDataSetLiteral()
    ensures CREATE_DATA_SET_TEXT ==
            "CreateDataSet(" + ("uint256 clientDataSetId," + ("address payee," + "MetadataEntry[] metadata)"))
  {
    CreateDataSetOpens();
    Uint256ClientDataSetIdComma();
    AddressPayeeComma();
    MetadataEntryMetadataCloses();
    RegroupThree("CreateDataSet", "uint256 clientDataSetId", "address payee", "MetadataEntry[] metadata",
      "CreateDataSet(", "uint256 clientDataSetId,", "address payee,", "MetadataEntry[] metadata)");
  }

  lemma AddPiecesOpens()
    ensures "AddPieces" + "(" == "AddPieces("
  {
  }

  lemma Uint256NonceComma()
    ensures "uint256 nonce" + "," == "uint256 nonce,"
  {
  }

  lemma CidPieceDataComma()
    ensures "Cid[] pieceData" + "," == "Cid[] pieceData,"
  {
  }

  lemma PieceMetadataPieceMetadataCloses()
    ensures "PieceMetadata[] pieceMetadata" + ")" == "PieceMetadata[] pieceMetadata)"
  {
  }

  lemma AddPiecesLiteral()
    ensures ADD_PIECES_TEXT ==
            "AddPieces(" +
            ("uint256 clientDataSetId," + ("uint256 nonce," + ("Cid[] pieceData," + "PieceMetadata[] pieceMetadata)")))
  {
    AddPiecesOpens();
    Uint256ClientDataSetIdComma();
    Uint256NonceComma();
    CidPieceDataComma();
    PieceMetadataPieceMetadataCloses();
    RegroupFour("AddPieces",
      "uint256 clientDataSetId", "uint256 nonce", "Cid[] pieceData", "PieceMetadata[] pieceMetadata",
      "AddPieces(", "uint256 clientDataSetId,", "uint256 nonce,", "Cid[] pieceData,", "PieceMetadata[] pieceMetadata)");
  }

  lemma SchedulePieceRemovalsOpens()
    ensures "SchedulePieceRemovals" + "(" == "SchedulePieceRemovals("
  {
  }

  lemma Uint256PieceIdsCloses()
    ensures "uint256[] pieceIds" + ")" == "uint256[] pieceIds)"
  {
  }

  lemma SchedulePieceRemovalsLiteral()
    ensures SCHEDULE_PIECE_REMOVALS_TEXT ==
            "SchedulePieceRemovals(" + ("uint256 clientDataSetId," + "uint256[] pieceIds)")
  {
    SchedulePieceRemovalsOpens();
    Uint256ClientDataSetIdComma();
    Uint256PieceIdsCloses();
    RegroupTwo("SchedulePieceRemovals", "uint256 clientDataSetId", "uint256[] pieceIds",
      "SchedulePieceRemovals(", "uint256 clientDataSetId,", "uint256[] pieceIds)");
  }

  lemma EIP712DomainOpens()
    ensures "EIP712Domain" + "(" == "EIP712Domain("
  {
  }

  lemma StringNameComma()
    ensures "string name" + "," == "string name,"
  {
  }

  lemma StringVersionComma()
    ensures "string version" + "," == "string version,"
  {
  }

  lemma Uint256ChainIdComma()
    ensures "uint256 chainId" + "," == "uint256 chainId,"
  {
  }

  lemma AddressVerifyingContractCloses()
    ensures ("address" + " " + "verifyingContract") + ")" == "address verifyingContract)"
  {
  }

  lemma DomainLiteral()
    ensures DOMAIN_TEXT ==
            "EIP712Domain(" +
            ("string name," + ("string version," + ("uint256 chainId," + "address verifyingContract)")))
  {
    EIP712DomainOpens();
    StringNameComma();
    StringVersionComma();
    Uint256ChainIdComma();
    AddressVerifyingContractCloses();
    RegroupFour("EIP712Domain",
      "string name", "string version", "uint256 chainId", "address" + " " + "verifyingContract",
      "EIP712Domain(", "string name,", "string version,", "uint256 chainId,", "address verifyingContract)");
  }

  lemma DeleteDataSetLiteral()
    ensures EncodeType(EIP712Types(), "DeleteDataSet") == "DeleteDataSet(uint256 clientDataSetId)"
  {
    hide EIP712Types, EncodeType;
    DeleteDataSetText();
  }

  lemma LeafTextsAgree()
    ensures EncodeType(EIP712Types(), "EIP712Domain") == DomainType()
    ensures EncodeType(EIP712Types(), "MetadataEntry") == MetadataEntryType()
    ensures EncodeType(EIP712Types(), "Cid") == CidType()
    ensures EncodeType(EIP712Types(), "SchedulePieceRemovals") == SchedulePieceRemovalsType()
  {
    hide EIP712Types, EncodeType;
    DomainText();
    DomainLiteral();
    EntryText();
    EntryLiteral();
    CidText();
    CidLiteral();
    SchedulePieceRemovalsText();
    SchedulePieceRemovalsLiteral();
  }

  lemma AddPiecesTextAgrees()
    ensures EncodeType(EIP712Types(), "AddPieces") == AddPiecesType()
  {
    hide EIP712Types, EncodeType;
    AddPiecesText();
    AddPiecesLiteral();
    CidLiteral();
    EntryLiteral();
    PieceMetadataLiteral();
  }

  lemma SplitTextsAgree()
    ensures EncodeType(EIP712Types(), "CreateDataSet") == CreateDataSetType()
    ensures EncodeType(EIP712Types(), "PieceMetadata") == PieceMetadataType()
  {
    hide EIP712Types, EncodeType;
    CreateDataSetText();
    CreateDataSetLiteral();
    PieceMetadataText();
    PieceMetadataLiteral();
    EntryLiteral();
  }
}
