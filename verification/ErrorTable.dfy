/** The dispatch table of contract errors: the layout of the parameters behind every selector. */
module ErrorTable {
  import opened Bytes
  import opened Abi

  /** The first four bytes of the hash of an error's signature, as a number. */
  type Selector = n: nat | n < 0x1_0000_0000

  datatype Signature = Signature(name: string, params: seq<AbiType>)

  /** The types whose decoders assert what unpacking gives: those of all parameters but one. */
  datatype PlainType = U256 | U8 | Account | Boolean | Str
  {
    function Type(): (t: AbiType)
      ensures t != FixedBytes32
    {
      match this
      case U256 => Uint256
      case U8 => Uint8
      case Account => Address
      case Boolean => Bool
      case Str => CharString
    }
  }

  function TypesOf(params: seq<PlainType>): (ts: seq<AbiType>)
    ensures |ts| == |params| && FixedBytes32 !in ts
  {
    seq(|params|, i requires 0 <= i < |params| => params[i].Type())
  }

  datatype PlainSignature = Plain(name: string, params: seq<PlainType>)

  const UUPS_UNSUPPORTED_PROXIABLE_UUID: Selector := 0xaa1d49a4

  /** All entries but one. */
  function PlainDecoders(): map<int, PlainSignature>
  {
    Decoders1() + Decoders2() + Decoders3() + Decoders4() + Decoders5() + Decoders6() +
    Decoders7() + Decoders8() + Decoders9() + Decoders10() + Decoders11() + Decoders12()
  }

  function Decoders1(): map<int, PlainSignature>
  {
    map[
      0xca062e88 := Plain("AddressAlreadySet", [U8]),
      0x9996b315 := Plain("AddressEmptyCode", [Account]),
      0x84b8dcae := Plain("AtLeastOnePriceMustBeNonZero", []),
      0x8b82bf2b := Plain("CDNPaymentAlreadyTerminated", [U256]),
      0x34fee1da := Plain("CacheMissPaymentAlreadyTerminated", [U256]),
      0x1176a89f := Plain("CallerNotPayer", [U256, Account, Account]),
      0x7e47554b := Plain("CallerNotPayerOrPayee", [U256, Account, Account, Account]),
      0xed73634e := Plain("CallerNotPayments", [Account, Account]),
      0x323d3c67 := Plain("CannotModifyTerminatedRailBeyondEndEpoch", [U256, U256, U256]),
      0x1d932033 := Plain("CannotSettleFutureEpochs", [U256, U256, U256])
    ]
  }

  function Decoders2(): map<int, PlainSignature>
  {
    map[
      0x20827009 := Plain("CannotSettleTerminatedRailBeforeMaxEpoch", [U256, U256, U256]),
      0xc41d66e8 := Plain("ChallengeWindowTooEarly", [U256, U256, U256]),
      0xdb94c961 := Plain("ClientDataSetAlreadyRegistered", [U256]),
      0x45d4d477 := Plain("CommissionExceedsMaximum", [U8, U256, U256]),
      0x49c4e4f0 := Plain("CommissionRateTooHigh", [U256, U256]),
      0x92dfe5fc := Plain("CurrentLockupLessThanOldLockup", [Account, Account, U256, U256]),
      0x1f7a6b73 := Plain("DataSetNotFoundForRail", [U256]),
      0x8a961ba3 := Plain("DataSetNotRegistered", [U256]),
      0x211a40c0 := Plain("DataSetPaymentAlreadyTerminated", [U256]),
      0xd7c45de5 := Plain("DataSetPaymentBeyondEndEpoch", [U256, U256, U256])
    ]
  }

  function Decoders3(): map<int, PlainSignature>
  {
    map[
      0x23d359a3 := Plain("DivisionByZero", []),
      0xca210722 := Plain("DuplicateMetadataKey", [U256, Str]),
      0x4c9c8ce3 := Plain("ERC1967InvalidImplementation", [Account]),
      0xb398979f := Plain("ERC1967NonPayable", []),
      0x6a514229 := Plain("ExtraDataRequired", []),
      0xa9255222 := Plain("ExtraDataTooLarge", [U256, U256]),
      0xd6bda275 := Plain("FailedCall", []),
      0xfadd7dd5 := Plain("FeeWithdrawalNativeTransferFailed", [Account, U256]),
      0x54f754fd := Plain("FilBeamServiceNotConfigured", [U256]),
      0xc7b67cf3 := Plain("IndexedError", [U256, Str])
    ]
  }

  function Decoders4(): map<int, PlainSignature>
  {
    map[
      0xdd978c4f := Plain("InsufficientCapabilitiesForProduct", [U8]),
      0x6fb42560 := Plain("InsufficientCurrentLockup", [Account, Account, U256, U256]),
      0xcdc76e7c := Plain("InsufficientFundsForOneTimePayment", [Account, Account, U256, U256]),
      0x707dfeab := Plain("InsufficientFundsForSettlement", [Account, Account, U256, U256]),
      0xdfca894c := Plain("InsufficientLockupAllowance", [Account, Account, U256, U256, U256]),
      0x18d8ed64 := Plain("InsufficientLockupForSettlement", [Account, Account, U256, U256]),
      0xdae03403 := Plain("InsufficientLockupFunds", [Account, U256, U256]),
      0x591b6546 := Plain("InsufficientMaxLockupPeriod", [Account, Account, U256, U256]),
      0x3e2f02c1 := Plain("InsufficientNativeTokenForBurn", [U256, U256]),
      0x3a66032e := Plain("InsufficientRateAllowance", [Account, Account, U256, U256, U256])
    ]
  }

  function Decoders5(): map<int, PlainSignature>
  {
    map[
      0xe610210c := Plain("InsufficientUnlockedFunds", [U256, U256]),
      0x985bf88a := Plain("InvalidChallengeCount", [U256, U256, U256]),
      0x25a0c7f7 := Plain("InvalidChallengeEpoch", [U256, U256, U256, U256]),
      0x5d0ad0ad := Plain("InvalidChallengeWindowSize", [U256, U256]),
      0xcba16d8c := Plain("InvalidDataSetId", [U256]),
      0xbb4e0af7 := Plain("InvalidEpochRange", [U256, U256]),
      0xf92ee8a9 := Plain("InvalidInitialization", []),
      0x2e78e91f := Plain("InvalidRateChangeQueueState", [U256, U256]),
      0x028af3d4 := Plain("InvalidServiceDescriptionLength", [U256]),
      0x57e65eb8 := Plain("InvalidServiceNameLength", [U256])
    ]
  }

  function Decoders6(): map<int, PlainSignature>
  {
    map[
      0x42d750dc := Plain("InvalidSignature", [Account, Account]),
      0xd615d706 := Plain("InvalidSignatureLength", [U256, U256]),
      0xf72a2118 := Plain("InvalidTerminatedRailModification", [U256, U256, U256, U256]),
      0x2c5e9e88 := Plain("InvalidTopUpAmount", [U256]),
      0x3bea1fb8 := Plain("LockupExceedsFundsInvariant", [Account, Account, U256, U256]),
      0x249e1b0e := Plain("LockupFixedIncreaseNotAllowedDueToInsufficientFunds", [Account, Account, U256, U256]),
      0xdb3137ef := Plain("LockupInconsistencyDuringRailFinalization", [U256, Account, Account, U256, U256]),
      0x020c2e30 := Plain("LockupNotSettledRateChangeNotAllowed", [U256, Account, Boolean, U256, U256]),
      0x9bd4f7f6 := Plain("LockupPeriodChangeNotAllowedDueToInsufficientFunds", [Account, Account, U256, U256]),
      0xb8afa055 := Plain("LockupPeriodExceedsOperatorMaximum", [Account, Account, U256, U256])
    ]
  }

  function Decoders7(): map<int, PlainSignature>
  {
    map[
      0xa18ff4af := Plain("LockupRateInconsistent", [U256, Account, U256, U256]),
      0xd909f4e2 := Plain("LockupRateLessThanOldRate", [U256, Account, U256, U256]),
      0xab9ff1e7 := Plain("MaxProvingPeriodZero", []),
      0x9b7cf882 := Plain("MetadataArrayCountMismatch", [U256, U256]),
      0xa3741480 := Plain("MetadataKeyAndValueLengthMismatch", [U256, U256]),
      0xd307879f := Plain("MetadataKeyExceedsMaxLength", [U256, U256, U256]),
      0x9a16e82a := Plain("MetadataValueExceedsMaxLength", [U256, U256, U256]),
      0xe237a731 := Plain("MissingServiceFeeRecipient", []),
      0x753a1281 := Plain("MustSendExactNativeAmount", [U256, U256]),
      0x2546923b := Plain("NativeTokenNotAccepted", [U256])
    ]
  }

  function Decoders8(): map<int, PlainSignature>
  {
    map[
      0xb10b947e := Plain("NativeTokenNotSupported", []),
      0xa5b05eec := Plain("NativeTransferFailed", [Account, U256]),
      0x033bf3f1 := Plain("NextProvingPeriodAlreadyCalled", [U256, U256, U256]),
      0x5d3bfcbb := Plain("NoPDPPaymentRail", [U256]),
      0xae296731 := Plain("NoProgressInSettlement", [U256, U256, U256]),
      0x766e1d31 := Plain("NotAuthorizedToTerminateRail", [U256, Account, Account, Account]),
      0xd7e6bcf8 := Plain("NotInitializing", []),
      0x23964715 := Plain("OldServiceProviderMismatch", [U256, Account, Account]),
      0xc58d5cbc := Plain("OneTimePaymentExceedsLockup", [U256, U256, U256]),
      0xc2aebdff := Plain("OnlyFilBeamControllerAllowed", [Account, Account])
    ]
  }

  function Decoders9(): map<int, PlainSignature>
  {
    map[
      0x6459cb42 := Plain("OnlyPDPVerifierAllowed", [Account, Account]),
      0x2c0d8add := Plain("OnlyRailClientAllowed", [Account, Account]),
      0xf4d2d70a := Plain("OnlyRailOperatorAllowed", [Account, Account]),
      0x1dcd4c5f := Plain("OnlyRailParticipantAllowed", [Account, Account, Account, Account]),
      0x3ce8f537 := Plain("OnlySelf", [Account, Account]),
      0x8dcd0606 := Plain("OperatorLockupAllowanceExceeded", [U256, U256]),
      0xeef23db6 := Plain("OperatorNotApproved", [Account, Account]),
      0x6c577bf9 := Plain("OperatorRateAllowanceExceeded", [U256, U256]),
      0x1e4fbdf7 := Plain("OwnableInvalidOwner", [Account]),
      0x118cdaa7 := Plain("OwnableUnauthorizedAccount", [Account])
    ]
  }

  function Decoders10(): map<int, PlainSignature>
  {
    map[
      0x23fe2e89 := Plain("PaymentRailsNotFinalized", [U256, U256]),
      0x40dc9097 := Plain("PriceExceedsMaximum", [U8, U256, U256]),
      0x425335c3 := Plain("ProofAlreadySubmitted", [U256]),
      0x431cf638 := Plain("ProviderAlreadyApproved", [U256]),
      0x52d6fdb5 := Plain("ProviderNotInApprovedList", [U256]),
      0x232cb27a := Plain("ProviderNotRegistered", [Account]),
      0x28bb1a79 := Plain("ProvingNotStarted", [U256]),
      0x999010d5 := Plain("ProvingPeriodNotInitialized", [U256]),
      0x9514f828 := Plain("ProvingPeriodPassed", [U256, U256, U256]),
      0x4947b7af := Plain("RailAlreadyTerminated", [U256])
    ]
  }

  function Decoders11(): map<int, PlainSignature>
  {
    map[
      0xd87df04d := Plain("RailInactiveOrSettled", [U256]),
      0x797fec96 := Plain("RailNotAssociated", [U256]),
      0x5a70954b := Plain("RailNotTerminated", [U256]),
      0x9eb55fd7 := Plain("RateChangeNotAllowedOnTerminatedRail", [U256]),
      0xe60266a8 := Plain("RateChangeQueueNotEmpty", [U256]),
      0x1a1e3e28 := Plain("ServiceContractMustTerminateRail", []),
      0x5269c0dd := Plain("SignerMustBeMsgSender", [Account, Account]),
      0xd516067a := Plain("TooManyMetadataKeys", [U256, U256]),
      0xe07c8dba := Plain("UUPSUnauthorizedCallContext", []),
      0x425c1fae := Plain("UnsupportedSignatureV", [U8])
    ]
  }

  function Decoders12(): map<int, PlainSignature>
  {
    map[
      0x1fccb6c4 := Plain("ValidatorModifiedAmountExceedsMaximum", [U256, U256, U256]),
      0x0696a4a4 := Plain("ValidatorSettledBeforeSegmentStart", [U256, U256, U256]),
      0xcaa0872a := Plain("ValidatorSettledBeyondSegmentEnd", [U256, U256, U256]),
      0xf7a5ad6d := Plain("WithdrawAmountExceedsAccumulatedFees", [Account, U256, U256]),
      0x620b9903 := Plain("ZeroAddress", [U8]),
      0x44034241 := Plain("ZeroAddressNotAllowed", [Str])
    ]
  }

  /** The entry of a selector, if there is one. */
  function Lookup(selector: Selector): Option<Signature>
  {
    hide PlainDecoders;
    if selector == UUPS_UNSUPPORTED_PROXIABLE_UUID then
      Some(Signature("UUPSUnsupportedProxiableUUID", [FixedBytes32]))
    else if selector in PlainDecoders() then
      var row := PlainDecoders()[selector];
      Some(Signature(row.name, TypesOf(row.params)))
    else
      None
  }
}
