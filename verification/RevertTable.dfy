/** Which errors of the table can be reported at all. */
module RevertTable {
  import opened Bytes
  import opened Abi
  import opened ErrorTable
  import opened RevertParser
  import opened RevertProofs

  lemma AssertionsHoldUnlessWord(ts: seq<AbiType>)
    ensures AssertionsHold(ts) <==> FixedBytes32 !in ts
  {
    forall i | 0 <= i < |ts| ensures UnpackedAs(ts[i]) == AssertedAs(ts[i]) <==> ts[i] != FixedBytes32 {}
  }

  /** The one entry with a `bytes32` parameter is the one whose decoder asserts the wrong type. */
  lemma OneWrongAssertion(selector: Selector, sig: Signature)
    requires Lookup(selector) == Some(sig)
    ensures AssertionsHold(sig.params) <==> selector != UUPS_UNSUPPORTED_PROXIABLE_UUID
  {
    hide PlainDecoders;
    AssertionsHoldUnlessWord(sig.params);
  }

  /**
   Every error of the table is reported from its own printed text, with all its parameters, except the one
   with a `bytes32` parameter: its decoder asserts a byte slice where unpacking gives an array, and panics.
   */
  lemma ReportedUnlessWord(selector: Selector, sig: Signature, values: seq<Value>, trailing: Bytes)
    requires Lookup(selector) == Some(sig)
    requires HaveTypes(values, sig.params) && |EncodeList(values)| < UINT256_LIMIT
    ensures var r := ParseRevert(RevertText(selector, EncodeList(values) + trailing));
            && (r == Decoded(ContractError(selector, sig.name, values)) <==>
               selector != UUPS_UNSUPPORTED_PROXIABLE_UUID)
            && (r == Panicked <==> selector == UUPS_UNSUPPORTED_PROXIABLE_UUID)
  {
    hide Lookup, ParseRevert, RevertText;
    OneWrongAssertion(selector, sig);
    RevertRoundTrip(selector, sig, values, trailing);
  }

  lemma UnpackWord(data: Bytes)
    ensures Unpack([FixedBytes32], data).Ok? <==> |data| >= 32
  {
    hide Number;
    var ts := [FixedBytes32];
    assert ts[1..] == [] && ts[0] == FixedBytes32;
    assert DecodeArguments(ts[1..], data, 32) == Ok([]);
    if |data| >= 32 {
      assert DecodeAt(ts[0], data, 0).Ok?;
    } else {
      assert DecodeAt(ts[0], data, 0) == Err(LengthInsufficient);
    }
  }

  /** So its text makes the parser panic exactly when 32 bytes or more follow the selector. */
  lemma WordPanics(data: Bytes)
    ensures ParseRevert(RevertText(UUPS_UNSUPPORTED_PROXIABLE_UUID, data)) == Panicked <==> |data| >= 32
  {
    hide ParseRevert, RevertText, PlainDecoders;
    ParseOfText(UUPS_UNSUPPORTED_PROXIABLE_UUID, data);
    var ts := [FixedBytes32];
    UnpackWord(data);
    AssertionsHoldUnlessWord(ts);
    assert Lookup(UUPS_UNSUPPORTED_PROXIABLE_UUID) == Some(Signature("UUPSUnsupportedProxiableUUID", ts));
  }
}
