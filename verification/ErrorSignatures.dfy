/**
 The signatures of the errors, as they are printed beside the entries of the dispatch table: a second spelling of
 every entry, in text, which the table must agree with.
 */
module ErrorSignatures {
  import opened Bytes
  import opened Abi
  import opened AbiText
  import opened ErrorTable

  /** A printed signature: the name of the error, and in parentheses the types of its parameters. */
  datatype Printed = Printed(name: string, params: string)
  {
    function Text(): string { name + "(" + params + ")" }
  }

  function Texts(): map<int, Printed>
  {
    Texts1() + Texts2() + Texts3() + Texts4() + Texts5() + Texts6() +
    Texts7() + Texts8() + Texts9() + Texts10() + Texts11() + Texts12()
  }

  function Texts1(): map<int, Printed>
  {
    map[
      0xca062e88 := Printed("AddressAlreadySet", "uint8"),
      0x9996b315 := Printed("AddressEmptyCode", "address"),
      0x84b8dcae := Printed("AtLeastOnePriceMustBeNonZero", ""),
      0x8b82bf2b := Printed("CDNPaymentAlreadyTerminated", "uint256"),
      0x34fee1da := Printed("CacheMissPaymentAlreadyTerminated", "uint256"),
      0x1176a89f := Printed("CallerNotPayer", "uint256,address,address"),
      0x7e47554b := Printed("CallerNotPayerOrPayee", "uint256,address,address,address"),
      0xed73634e := Printed("CallerNotPayments", "address,address"),
      0x323d3c67 := Printed("CannotModifyTerminatedRailBeyondEndEpoch", "uint256,uint256,uint256"),
      0x1d932033 := Printed("CannotSettleFutureEpochs", "uint256,uint256,uint256")
    ]
  }

  function Texts2(): map<int, Printed>
  {
    map[
      0x20827009 := Printed("CannotSettleTerminatedRailBeforeMaxEpoch", "uint256,uint256,uint256"),
      0xc41d66e8 := Printed("ChallengeWindowTooEarly", "uint256,uint256,uint256"),
      0xdb94c961 := Printed("ClientDataSetAlreadyRegistered", "uint256"),
      0x45d4d477 := Printed("CommissionExceedsMaximum", "uint8,uint256,uint256"),
      0x49c4e4f0 := Printed("CommissionRateTooHigh", "uint256,uint256"),
      0x92dfe5fc := Printed("CurrentLockupLessThanOldLockup", "address,address,uint256,uint256"),
      0x1f7a6b73 := Printed("DataSetNotFoundForRail", "uint256"),
      0x8a961ba3 := Printed("DataSetNotRegistered", "uint256"),
      0x211a40c0 := Printed("DataSetPaymentAlreadyTerminated", "uint256"),
      0xd7c45de5 := Printed("DataSetPaymentBeyondEndEpoch", "uint256,uint256,uint256")
    ]
  }

  function Texts3(): map<int, Printed>
  {
    map[
      0x23d359a3 := Printed("DivisionByZero", ""),
      0xca210722 := Printed("DuplicateMetadataKey", "uint256,string"),
      0x4c9c8ce3 := Printed("ERC1967InvalidImplementation", "address"),
      0xb398979f := Printed("ERC1967NonPayable", ""),
      0x6a514229 := Printed("ExtraDataRequired", ""),
      0xa9255222 := Printed("ExtraDataTooLarge", "uint256,uint256"),
      0xd6bda275 := Printed("FailedCall", ""),
      0xfadd7dd5 := Printed("FeeWithdrawalNativeTransferFailed", "address,uint256"),
      0x54f754fd := Printed("FilBeamServiceNotConfigured", "uint256"),
      0xc7b67cf3 := Printed("IndexedError", "uint256,string")
    ]
  }

  function Texts4(): map<int, Printed>
  {
    map[
      0xdd978c4f := Printed("InsufficientCapabilitiesForProduct", "uint8"),
      0x6fb42560 := Printed("InsufficientCurrentLockup", "address,address,uint256,uint256"),
      0xcdc76e7c := Printed("InsufficientFundsForOneTimePayment", "address,address,uint256,uint256"),
      0x707dfeab := Printed("InsufficientFundsForSettlement", "address,address,uint256,uint256"),
      0xdfca894c := Printed("InsufficientLockupAllowance", "address,address,uint256,uint256,uint256"),
      0x18d8ed64 := Printed("InsufficientLockupForSettlement", "address,address,uint256,uint256"),
      0xdae03403 := Printed("InsufficientLockupFunds", "address,uint256,uint256"),
      0x591b6546 := Printed("InsufficientMaxLockupPeriod", "address,address,uint256,uint256"),
      0x3e2f02c1 := Printed("InsufficientNativeTokenForBurn", "uint256,uint256"),
      0x3a66032e := Printed("InsufficientRateAllowance", "address,address,uint256,uint256,uint256")
    ]
  }

  function Texts5(): map<int, Printed>
  {
    map[
      0xe610210c := Printed("InsufficientUnlockedFunds", "uint256,uint256"),
      0x985bf88a := Printed("InvalidChallengeCount", "uint256,uint256,uint256"),
      0x25a0c7f7 := Printed("InvalidChallengeEpoch", "uint256,uint256,uint256,uint256"),
      0x5d0ad0ad := Printed("InvalidChallengeWindowSize", "uint256,uint256"),
      0xcba16d8c := Printed("InvalidDataSetId", "uint256"),
      0xbb4e0af7 := Printed("InvalidEpochRange", "uint256,uint256"),
      0xf92ee8a9 := Printed("InvalidInitialization", ""),
      0x2e78e91f := Printed("InvalidRateChangeQueueState", "uint256,uint256"),
      0x028af3d4 := Printed("InvalidServiceDescriptionLength", "uint256"),
      0x57e65eb8 := Printed("InvalidServiceNameLength", "uint256")
    ]
  }

  function Texts6(): map<int, Printed>
  {
    map[
      0x42d750dc := Printed("InvalidSignature", "address,address"),
      0xd615d706 := Printed("InvalidSignatureLength", "uint256,uint256"),
      0xf72a2118 := Printed("InvalidTerminatedRailModification", "uint256,uint256,uint256,uint256"),
      0x2c5e9e88 := Printed("InvalidTopUpAmount", "uint256"),
      0x3bea1fb8 := Printed("LockupExceedsFundsInvariant", "address,address,uint256,uint256"),
      0x249e1b0e := Printed("LockupFixedIncreaseNotAllowedDueToInsufficientFunds", "address,address,uint256,uint256"),
      0xdb3137ef := Printed("LockupInconsistencyDuringRailFinalization", "uint256,address,address,uint256,uint256"),
      0x020c2e30 := Printed("LockupNotSettledRateChangeNotAllowed", "uint256,address,bool,uint256,uint256"),
      0x9bd4f7f6 := Printed("LockupPeriodChangeNotAllowedDueToInsufficientFunds", "address,address,uint256,uint256"),
      0xb8afa055 := Printed("LockupPeriodExceedsOperatorMaximum", "address,address,uint256,uint256")
    ]
  }

  function Texts7(): map<int, Printed>
  {
    map[
      0xa18ff4af := Printed("LockupRateInconsistent", "uint256,address,uint256,uint256"),
      0xd909f4e2 := Printed("LockupRateLessThanOldRate", "uint256,address,uint256,uint256"),
      0xab9ff1e7 := Printed("MaxProvingPeriodZero", ""),
      0x9b7cf882 := Printed("MetadataArrayCountMismatch", "uint256,uint256"),
      0xa3741480 := Printed("MetadataKeyAndValueLengthMismatch", "uint256,uint256"),
      0xd307879f := Printed("MetadataKeyExceedsMaxLength", "uint256,uint256,uint256"),
      0x9a16e82a := Printed("MetadataValueExceedsMaxLength", "uint256,uint256,uint256"),
      0xe237a731 := Printed("MissingServiceFeeRecipient", ""),
      0x753a1281 := Printed("MustSendExactNativeAmount", "uint256,uint256"),
      0x2546923b := Printed("NativeTokenNotAccepted", "uint256")
    ]
  }

  function Texts8(): map<int, Printed>
  {
    map[
      0xb10b947e := Printed("NativeTokenNotSupported", ""),
      0xa5b05eec := Printed("NativeTransferFailed", "address,uint256"),
      0x033bf3f1 := Printed("NextProvingPeriodAlreadyCalled", "uint256,uint256,uint256"),
      0x5d3bfcbb := Printed("NoPDPPaymentRail", "uint256"),
      0xae296731 := Printed("NoProgressInSettlement", "uint256,uint256,uint256"),
      0x766e1d31 := Printed("NotAuthorizedToTerminateRail", "uint256,address,address,address"),
      0xd7e6bcf8 := Printed("NotInitializing", ""),
      0x23964715 := Printed("OldServiceProviderMismatch", "uint256,address,address"),
      0xc58d5cbc := Printed("OneTimePaymentExceedsLockup", "uint256,uint256,uint256"),
      0xc2aebdff := Printed("OnlyFilBeamControllerAllowed", "address,address")
    ]
  }

  function Texts9(): map<int, Printed>
  {
    map[
      0x6459cb42 := Printed("OnlyPDPVerifierAllowed", "address,address"),
      0x2c0d8add := Printed("OnlyRailClientAllowed", "address,address"),
      0xf4d2d70a := Printed("OnlyRailOperatorAllowed", "address,address"),
      0x1dcd4c5f := Printed("OnlyRailParticipantAllowed", "address,address,address,address"),
      0x3ce8f537 := Printed("OnlySelf", "address,address"),
      0x8dcd0606 := Printed("OperatorLockupAllowanceExceeded", "uint256,uint256"),
      0xeef23db6 := Printed("OperatorNotApproved", "address,address"),
      0x6c577bf9 := Printed("OperatorRateAllowanceExceeded", "uint256,uint256"),
      0x1e4fbdf7 := Printed("OwnableInvalidOwner", "address"),
      0x118cdaa7 := Printed("OwnableUnauthorizedAccount", "address")
    ]
  }

  function Texts10(): map<int, Printed>
  {
    map[
      0x23fe2e89 := Printed("PaymentRailsNotFinalized", "uint256,uint256"),
      0x40dc9097 := Printed("PriceExceedsMaximum", "uint8,uint256,uint256"),
      0x425335c3 := Printed("ProofAlreadySubmitted", "uint256"),
      0x431cf638 := Printed("ProviderAlreadyApproved", "uint256"),
      0x52d6fdb5 := Printed("ProviderNotInApprovedList", "uint256"),
      0x232cb27a := Printed("ProviderNotRegistered", "address"),
      0x28bb1a79 := Printed("ProvingNotStarted", "uint256"),
      0x999010d5 := Printed("ProvingPeriodNotInitialized", "uint256"),
      0x9514f828 := Printed("ProvingPeriodPassed", "uint256,uint256,uint256"),
      0x4947b7af := Printed("RailAlreadyTerminated", "uint256")
    ]
  }

  function Texts11(): map<int, Printed>
  {
    map[
      0xd87df04d := Printed("RailInactiveOrSettled", "uint256"),
      0x797fec96 := Printed("RailNotAssociated", "uint256"),
      0x5a70954b := Printed("RailNotTerminated", "uint256"),
      0x9eb55fd7 := Printed("RateChangeNotAllowedOnTerminatedRail", "uint256"),
      0xe60266a8 := Printed("RateChangeQueueNotEmpty", "uint256"),
      0x1a1e3e28 := Printed("ServiceContractMustTerminateRail", ""),
      0x5269c0dd := Printed("SignerMustBeMsgSender", "address,address"),
      0xd516067a := Printed("TooManyMetadataKeys", "uint256,uint256"),
      0xe07c8dba := Printed("UUPSUnauthorizedCallContext", ""),
      0x425c1fae := Printed("UnsupportedSignatureV", "uint8")
    ]
  }

  function Texts12(): map<int, Printed>
  {
    map[
      0x1fccb6c4 := Printed("ValidatorModifiedAmountExceedsMaximum", "uint256,uint256,uint256"),
      0x0696a4a4 := Printed("ValidatorSettledBeforeSegmentStart", "uint256,uint256,uint256"),
      0xcaa0872a := Printed("ValidatorSettledBeyondSegmentEnd", "uint256,uint256,uint256"),
      0xf7a5ad6d := Printed("WithdrawAmountExceedsAccumulatedFees", "address,uint256,uint256"),
      0x620b9903 := Printed("ZeroAddress", "uint8"),
      0x44034241 := Printed("ZeroAddressNotAllowed", "string")
    ]
  }

  //
  // Lists of parameters
  //

  function ParamsText(params: seq<PlainType>): string
  {
    Names(TypesOf(params))
  }

  lemma ParamsStep(a: PlainType, rest: seq<PlainType>)
    requires rest != []
    ensures ParamsText([a] + rest) == TypeName(a.Type()) + "," + ParamsText(rest)
  {
    assert TypesOf([a] + rest) == [a.Type()] + TypesOf(rest);
    NamesMore(a.Type(), TypesOf(rest));
  }

  lemma PlainNames()
    ensures TypeName(U256.Type()) == "uint256" && TypeName(U8.Type()) == "uint8"
    ensures TypeName(Account.Type()) == "address" && TypeName(Boolean.Type()) == "bool"
    ensures TypeName(Str.Type()) == "string"
  {
  }

  lemma NamesOfNothing()
    ensures ParamsText([]) == ""
  {
  }

  lemma NamesOfOne(a: PlainType)
    ensures ParamsText([a]) == TypeName(a.Type())
  {
    assert TypesOf([a]) == [a.Type()];
  }

  lemma NamesAddress()
    ensures ParamsText([Account]) == "address"
  {
    NamesOfOne(Account);
  }

  lemma NamesString()
    ensures ParamsText([Str]) == "string"
  {
    NamesOfOne(Str);
  }

  lemma NamesUint256()
    ensures ParamsText([U256]) == "uint256"
  {
    NamesOfOne(U256);
  }

  lemma NamesUint8()
    ensures ParamsText([U8]) == "uint8"
  {
    NamesOfOne(U8);
  }

  lemma NamesAddressAddress()
    ensures ParamsText([Account, Account]) == "address,address"
  {
    hide *;
    PlainNames();
    NamesAddress();
    ParamsStep(Account, [Account]);
    assert [Account] + [Account] == [Account, Account];
  }

  lemma NamesAddressUint256()
    ensures ParamsText([Account, U256]) == "address,uint256"
  {
    hide *;
    PlainNames();
    NamesUint256();
    ParamsStep(Account, [U256]);
    assert [Account] + [U256] == [Account, U256];
  }

  lemma NamesUint256String()
    ensures ParamsText([U256, Str]) == "uint256,string"
  {
    hide *;
    PlainNames();
    NamesString();
    ParamsStep(U256, [Str]);
    assert [U256] + [Str] == [U256, Str];
  }

  lemma NamesUint256Uint256()
    ensures ParamsText([U256, U256]) == "uint256,uint256"
  {
    hide *;
    PlainNames();
    NamesUint256();
    ParamsStep(U256, [U256]);
    assert [U256] + [U256] == [U256, U256];
  }

  lemma TextAddressAddressAddress()
    ensures "address" + "," + "address,address" == "address,address,address"
  {
  }

  lemma NamesAddressAddressAddress()
    ensures ParamsText([Account, Account, Account]) == "address,address,address"
  {
    hide *;
    PlainNames();
    NamesAddressAddress();
    ParamsStep(Account, [Account, Account]);
    assert [Account] + [Account, Account] == [Account, Account, Account];
    TextAddressAddressAddress();
  }

  lemma TextAddressUint256Uint256()
    ensures "address" + "," + "uint256,uint256" == "address,uint256,uint256"
  {
  }

  lemma NamesAddressUint256Uint256()
    ensures ParamsText([Account, U256, U256]) == "address,uint256,uint256"
  {
    hide *;
    PlainNames();
    NamesUint256Uint256();
    ParamsStep(Account, [U256, U256]);
    assert [Account] + [U256, U256] == [Account, U256, U256];
    TextAddressUint256Uint256();
  }

  lemma TextBoolUint256Uint256()
    ensures "bool" + "," + "uint256,uint256" == "bool,uint256,uint256"
  {
  }

  lemma NamesBoolUint256Uint256()
    ensures ParamsText([Boolean, U256, U256]) == "bool,uint256,uint256"
  {
    hide *;
    PlainNames();
    NamesUint256Uint256();
    ParamsStep(Boolean, [U256, U256]);
    assert [Boolean] + [U256, U256] == [Boolean, U256, U256];
    TextBoolUint256Uint256();
  }

  lemma TextUint256AddressAddress()
    ensures "uint256" + "," + "address,address" == "uint256,address,address"
  {
  }

  lemma NamesUint256AddressAddress()
    ensures ParamsText([U256, Account, Account]) == "uint256,address,address"
  {
    hide *;
    PlainNames();
    NamesAddressAddress();
    ParamsStep(U256, [Account, Account]);
    assert [U256] + [Account, Account] == [U256, Account, Account];
    TextUint256AddressAddress();
  }

  lemma TextUint256Uint256Uint256()
    ensures "uint256" + "," + "uint256,uint256" == "uint256,uint256,uint256"
  {
  }

  lemma NamesUint256Uint256Uint256()
    ensures ParamsText([U256, U256, U256]) == "uint256,uint256,uint256"
  {
    hide *;
    PlainNames();
    NamesUint256Uint256();
    ParamsStep(U256, [U256, U256]);
    assert [U256] + [U256, U256] == [U256, U256, U256];
    TextUint256Uint256Uint256();
  }

  lemma TextUint8Uint256Uint256()
    ensures "uint8" + "," + "uint256,uint256" == "uint8,uint256,uint256"
  {
  }

  lemma NamesUint8Uint256Uint256()
    ensures ParamsText([U8, U256, U256]) == "uint8,uint256,uint256"
  {
    hide *;
    PlainNames();
    NamesUint256Uint256();
    ParamsStep(U8, [U256, U256]);
    assert [U8] + [U256, U256] == [U8, U256, U256];
    TextUint8Uint256Uint256();
  }

  lemma TextAddressAddressAddressAddress()
    ensures "address" + "," + "address,address,address" == "address,address,address,address"
  {
  }

  lemma NamesAddressAddressAddressAddress()
    ensures ParamsText([Account, Account, Account, Account]) == "address,address,address,address"
  {
    hide *;
    PlainNames();
    NamesAddressAddressAddress();
    ParamsStep(Account, [Account, Account, Account]);
    assert [Account] + [Account, Account, Account] == [Account, Account, Account, Account];
    TextAddressAddressAddressAddress();
  }

  lemma TextAddressAddressUint256Uint256()
    ensures "address" + "," + "address,uint256,uint256" == "address,address,uint256,uint256"
  {
  }

  lemma NamesAddressAddressUint256Uint256()
    ensures ParamsText([Account, Account, U256, U256]) == "address,address,uint256,uint256"
  {
    hide *;
    PlainNames();
    NamesAddressUint256Uint256();
    ParamsStep(Account, [Account, U256, U256]);
    assert [Account] + [Account, U256, U256] == [Account, Account, U256, U256];
    TextAddressAddressUint256Uint256();
  }

  lemma TextAddressBoolUint256Uint256()
    ensures "address" + "," + "bool,uint256,uint256" == "address,bool,uint256,uint256"
  {
  }

  lemma NamesAddressBoolUint256Uint256()
    ensures ParamsText([Account, Boolean, U256, U256]) == "address,bool,uint256,uint256"
  {
    hide *;
    PlainNames();
    NamesBoolUint256Uint256();
    ParamsStep(Account, [Boolean, U256, U256]);
    assert [Account] + [Boolean, U256, U256] == [Account, Boolean, U256, U256];
    TextAddressBoolUint256Uint256();
  }

  lemma TextAddressUint256Uint256Uint256()
    ensures "address" + "," + "uint256,uint256,uint256" == "address,uint256,uint256,uint256"
  {
  }

  lemma NamesAddressUint256Uint256Uint256()
    ensures ParamsText([Account, U256, U256, U256]) == "address,uint256,uint256,uint256"
  {
    hide *;
    PlainNames();
    NamesUint256Uint256Uint256();
    ParamsStep(Account, [U256, U256, U256]);
    assert [Account] + [U256, U256, U256] == [Account, U256, U256, U256];
    TextAddressUint256Uint256Uint256();
  }

  lemma TextUint256AddressAddressAddress()
    ensures "uint256" + "," + "address,address,address" == "uint256,address,address,address"
  {
  }

  lemma NamesUint256AddressAddressAddress()
    ensures ParamsText([U256, Account, Account, Account]) == "uint256,address,address,address"
  {
    hide *;
    PlainNames();
    NamesAddressAddressAddress();
    ParamsStep(U256, [Account, Account, Account]);
    assert [U256] + [Account, Account, Account] == [U256, Account, Account, Account];
    TextUint256AddressAddressAddress();
  }

  lemma TextUint256AddressUint256Uint256()
    ensures "uint256" + "," + "address,uint256,uint256" == "uint256,address,uint256,uint256"
  {
  }

  lemma NamesUint256AddressUint256Uint256()
    ensures ParamsText([U256, Account, U256, U256]) == "uint256,address,uint256,uint256"
  {
    hide *;
    PlainNames();
    NamesAddressUint256Uint256();
    ParamsStep(U256, [Account, U256, U256]);
    assert [U256] + [Account, U256, U256] == [U256, Account, U256, U256];
    TextUint256AddressUint256Uint256();
  }

  lemma TextUint256Uint256Uint256Uint256()
    ensures "uint256" + "," + "uint256,uint256,uint256" == "uint256,uint256,uint256,uint256"
  {
  }

  lemma NamesUint256Uint256Uint256Uint256()
    ensures ParamsText([U256, U256, U256, U256]) == "uint256,uint256,uint256,uint256"
  {
    hide *;
    PlainNames();
    NamesUint256Uint256Uint256();
    ParamsStep(U256, [U256, U256, U256]);
    assert [U256] + [U256, U256, U256] == [U256, U256, U256, U256];
    TextUint256Uint256Uint256Uint256();
  }

  lemma TextAddressAddressUint256Uint256Uint256()
    ensures "address" + "," + "address,uint256,uint256,uint256" == "address,address,uint256,uint256,uint256"
  {
  }

  lemma NamesAddressAddressUint256Uint256Uint256()
    ensures ParamsText([Account, Account, U256, U256, U256]) == "address,address,uint256,uint256,uint256"
  {
    hide *;
    PlainNames();
    NamesAddressUint256Uint256Uint256();
    ParamsStep(Account, [Account, U256, U256, U256]);
    assert [Account] + [Account, U256, U256, U256] == [Account, Account, U256, U256, U256];
    TextAddressAddressUint256Uint256Uint256();
  }

  lemma TextUint256AddressAddressUint256Uint256()
    ensures "uint256" + "," + "address,address,uint256,uint256" == "uint256,address,address,uint256,uint256"
  {
  }

  lemma NamesUint256AddressAddressUint256Uint256()
    ensures ParamsText([U256, Account, Account, U256, U256]) == "uint256,address,address,uint256,uint256"
  {
    hide *;
    PlainNames();
    NamesAddressAddressUint256Uint256();
    ParamsStep(U256, [Account, Account, U256, U256]);
    assert [U256] + [Account, Account, U256, U256] == [U256, Account, Account, U256, U256];
    TextUint256AddressAddressUint256Uint256();
  }

  lemma TextUint256AddressBoolUint256Uint256()
    ensures "uint256" + "," + "address,bool,uint256,uint256" == "uint256,address,bool,uint256,uint256"
  {
  }

  lemma NamesUint256AddressBoolUint256Uint256()
    ensures ParamsText([U256, Account, Boolean, U256, U256]) == "uint256,address,bool,uint256,uint256"
  {
    hide *;
    PlainNames();
    NamesAddressBoolUint256Uint256();
    ParamsStep(U256, [Account, Boolean, U256, U256]);
    assert [U256] + [Account, Boolean, U256, U256] == [U256, Account, Boolean, U256, U256];
    TextUint256AddressBoolUint256Uint256();
  }

  //
  // The table
  //

  /** The rows have the names and the parameters of the printed signatures. */
  predicate Agree(rows: map<int, PlainSignature>, texts: map<int, Printed>)
  {
    && rows.Keys == texts.Keys
    && forall k :: k in rows ==> Printed(rows[k].name, ParamsText(rows[k].params)) == texts[k]
  }

  lemma AgreeMore(a: map<int, PlainSignature>, x: map<int, Printed>, b: map<int, PlainSignature>, y: map<int, Printed>)
    requires Agree(a, x) && Agree(b, y)
    ensures Agree(a + b, x + y)
  {
  }

  lemma Agree1()
    ensures Agree(Decoders1(), Texts1())
  {
    hide ParamsText;
    NamesUint8();
    NamesAddress();
    NamesOfNothing();
    NamesUint256();
    NamesUint256AddressAddress();
    NamesUint256AddressAddressAddress();
    NamesAddressAddress();
    NamesUint256Uint256Uint256();
  }

  lemma Agree2()
    ensures Agree(Decoders2(), Texts2())
  {
    hide ParamsText;
    NamesUint256Uint256Uint256();
    NamesUint256();
    NamesUint8Uint256Uint256();
    NamesUint256Uint256();
    NamesAddressAddressUint256Uint256();
  }

  lemma Agree3()
    ensures Agree(Decoders3(), Texts3())
  {
    hide ParamsText;
    NamesOfNothing();
    NamesUint256String();
    NamesAddress();
    NamesUint256Uint256();
    NamesAddressUint256();
    NamesUint256();
  }

  lemma Agree4()
    ensures Agree(Decoders4(), Texts4())
  {
    hide ParamsText;
    NamesUint8();
    NamesAddressAddressUint256Uint256();
    NamesAddressAddressUint256Uint256Uint256();
    NamesAddressUint256Uint256();
    NamesUint256Uint256();
  }

  lemma Agree5()
    ensures Agree(Decoders5(), Texts5())
  {
    hide ParamsText;
    NamesUint256Uint256();
    NamesUint256Uint256Uint256();
    NamesUint256Uint256Uint256Uint256();
    NamesUint256();
    NamesOfNothing();
  }

  lemma Agree6()
    ensures Agree(Decoders6(), Texts6())
  {
    hide ParamsText;
    NamesAddressAddress();
    NamesUint256Uint256();
    NamesUint256Uint256Uint256Uint256();
    NamesUint256();
    NamesAddressAddressUint256Uint256();
    NamesUint256AddressAddressUint256Uint256();
    NamesUint256AddressBoolUint256Uint256();
  }

  lemma Agree7()
    ensures Agree(Decoders7(), Texts7())
  {
    hide ParamsText;
    NamesUint256AddressUint256Uint256();
    NamesOfNothing();
    NamesUint256Uint256();
    NamesUint256Uint256Uint256();
    NamesUint256();
  }

  lemma Agree8()
    ensures Agree(Decoders8(), Texts8())
  {
    hide ParamsText;
    NamesOfNothing();
    NamesAddressUint256();
    NamesUint256Uint256Uint256();
    NamesUint256();
    NamesUint256AddressAddressAddress();
    NamesUint256AddressAddress();
    NamesAddressAddress();
  }

  lemma Agree9()
    ensures Agree(Decoders9(), Texts9())
  {
    hide ParamsText;
    NamesAddressAddress();
    NamesAddressAddressAddressAddress();
    NamesUint256Uint256();
    NamesAddress();
  }

  lemma Agree10()
    ensures Agree(Decoders10(), Texts10())
  {
    hide ParamsText;
    NamesUint256Uint256();
    NamesUint8Uint256Uint256();
    NamesUint256();
    NamesAddress();
    NamesUint256Uint256Uint256();
  }

  lemma Agree11()
    ensures Agree(Decoders11(), Texts11())
  {
    hide ParamsText;
    NamesUint256();
    NamesOfNothing();
    NamesAddressAddress();
    NamesUint256Uint256();
    NamesUint8();
  }

  lemma Agree12()
    ensures Agree(Decoders12(), Texts12())
  {
    hide ParamsText;
    NamesUint256Uint256Uint256();
    NamesAddressUint256Uint256();
    NamesUint8();
    NamesString();
  }

  lemma TableAgrees()
    ensures Agree(PlainDecoders(), Texts())
  {
    hide Agree, Decoders1, Decoders2, Decoders3, Decoders4, Decoders5, Decoders6;
    hide Decoders7, Decoders8, Decoders9, Decoders10, Decoders11, Decoders12;
    hide Texts1, Texts2, Texts3, Texts4, Texts5, Texts6, Texts7, Texts8, Texts9, Texts10, Texts11, Texts12;
    Agree1();
    Agree2();
    Agree3();
    Agree4();
    Agree5();
    Agree6();
    Agree7();
    Agree8();
    Agree9();
    Agree10();
    Agree11();
    Agree12();
    var rows, texts := Decoders1(), Texts1();
    AgreeMore(rows, texts, Decoders2(), Texts2());
    rows, texts := rows + Decoders2(), texts + Texts2();
    AgreeMore(rows, texts, Decoders3(), Texts3());
    rows, texts := rows + Decoders3(), texts + Texts3();
    AgreeMore(rows, texts, Decoders4(), Texts4());
    rows, texts := rows + Decoders4(), texts + Texts4();
    AgreeMore(rows, texts, Decoders5(), Texts5());
    rows, texts := rows + Decoders5(), texts + Texts5();
    AgreeMore(rows, texts, Decoders6(), Texts6());
    rows, texts := rows + Decoders6(), texts + Texts6();
    AgreeMore(rows, texts, Decoders7(), Texts7());
    rows, texts := rows + Decoders7(), texts + Texts7();
    AgreeMore(rows, texts, Decoders8(), Texts8());
    rows, texts := rows + Decoders8(), texts + Texts8();
    AgreeMore(rows, texts, Decoders9(), Texts9());
    rows, texts := rows + Decoders9(), texts + Texts9();
    AgreeMore(rows, texts, Decoders10(), Texts10());
    rows, texts := rows + Decoders10(), texts + Texts10();
    AgreeMore(rows, texts, Decoders11(), Texts11());
    rows, texts := rows + Decoders11(), texts + Texts11();
    AgreeMore(rows, texts, Decoders12(), Texts12());
    rows, texts := rows + Decoders12(), texts + Texts12();
  }

  /** What is printed beside the entry of a selector. */
  function SignatureText(selector: Selector): Option<Printed>
  {
    hide Texts;
    if selector == 0xaa1d49a4 then Some(Printed("UUPSUnsupportedProxiableUUID", "bytes32"))
    else if selector in Texts() then Some(Texts()[selector])
    else None
  }

  /** The table has exactly the printed entries, each with its printed name and parameters. */
  lemma TableAsPrinted(selector: Selector)
    ensures SignatureText(selector) ==
            match Lookup(selector)
            case None => None
            case Some(sig) => Some(Printed(sig.name, Names(sig.params)))
    ensures Lookup(selector).Some? ==>
              var sig := Lookup(selector).value;
              SignatureText(selector).value.Text() == sig.name + "(" + Names(sig.params) + ")"
  {
    hide Texts, PlainDecoders, Names, TypesOf;
    TableAgrees();
    WordText();
  }

  lemma WordText()
    ensures Names([FixedBytes32]) == "bytes32"
  {
  }
}
