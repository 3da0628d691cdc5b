/**
 What parsing a revert gives: the printed error comes back from every frame it is put in, truncated data
 is refused, and the form of the text around the digits makes no difference.
 */
module RevertProofs {
  import opened Bytes
  import opened Abi
  import opened AbiLayout
  import opened AbiProofs
  import opened GoText
  import opened Hex
  import opened ErrorTable
  import opened RevertParser

  //
  // Keys
  //

  lemma {:induction false} HexOfConcat(a: Bytes, b: Bytes)
    ensures HexOf(a + b) == HexOf(a) + HexOf(b)
  {
    if a == [] {
      assert a + b == b;
    } else {
      assert (a + b)[0] == a[0] && (a + b)[1..] == a[1..] + b;
      HexOfConcat(a[1..], b);
    }
  }

  lemma {:induction false} HexOfIsLower(b: Bytes)
    ensures Lower(HexOf(b)) == HexOf(b)
  {
    if b != [] {
      HexOfIsLower(b[1..]);
      var s := HexOf(b);
      assert forall i :: 2 <= i < |s| ==>
          s[i] == HexOf(b[1..])[i - 2] && Lower(HexOf(b[1..]))[i - 2] == HexOf(b[1..])[i - 2];
    }
  }

  lemma FourBytes(selector: Selector)
    ensures Number(BigEndian(selector, 4)) == selector
  {
    assert Pow256(4) == 0x1_0000_0000;
    NumberOfBigEndian(selector, 4);
  }

  lemma LowerRest(s: Bytes)
    requires |s| >= 2 && s[..2] == HEX_PREFIX
    ensures Lower(s) == s <==> Lower(s[2..]) == s[2..]
  {
    forall i | 2 <= i < |s| ensures Lower(s)[i] == Lower(s[2..])[i - 2] && s[i] == s[2..][i - 2] {}
    assert s[..2][0] == s[0] && s[..2][1] == s[1];
    if Lower(s) == s {
      forall i | 0 <= i < |s| - 2 ensures Lower(s[2..])[i] == s[2..][i] {
        assert Lower(s)[i + 2] == s[i + 2];
      }
    }
    if Lower(s[2..]) == s[2..] {
      forall i | 0 <= i < |s| ensures Lower(s)[i] == s[i] {
        assert i >= 2 ==> Lower(s[2..])[i - 2] == s[2..][i - 2];
      }
    }
  }

  lemma KeyOfSelector(selector: Selector)
    ensures SelectorOf(SelectorText(selector)) == Some(selector)
  {
    var b, text := BigEndian(selector, 4), SelectorText(selector);
    FourBytes(selector);
    DecodeInvertsHexOf(b);
    HexOfIsLower(b);
    assert text[2..] == HexOf(b) && text[..2] == HEX_PREFIX;
    LowerRest(text);
  }

  lemma SelectorOfKey(key: Bytes)
    requires SelectorOf(key).Some?
    ensures key == SelectorText(SelectorOf(key).value)
  {
    var b := HexDecode(key[2..]).value;
    LowerRest(key);
    HexOfInvertsDecode(key[2..]);
    BigEndianOfNumber(b);
    assert key == key[..2] + key[2..];
  }

  /** The keys of the table stand for their selectors, and nothing else is a key. */
  lemma SelectorKeys(selector: Selector, key: Bytes)
    ensures SelectorOf(key) == Some(selector) <==> key == SelectorText(selector)
  {
    hide SelectorOf, SelectorText;
    KeyOfSelector(selector);
    if SelectorOf(key).Some? {
      SelectorOfKey(key);
    }
  }

  //
  // From printed errors to parsed ones
  //

  /** An error as it is printed: the prefix, the selector and the data in hex. */
  function RevertText(selector: Selector, data: Bytes): (t: Bytes)
    ensures |t| == 10 + 2 * |data|
  {
    Ascii("0x") + HexOf(BigEndian(selector, 4)) + HexOf(data)
  }

  lemma PrefixText()
    ensures HEX_PREFIX == Ascii("0x") && UPPER_HEX_PREFIX == Ascii("0X")
  {
  }

  lemma SolidEnds(t: Bytes)
    requires |t| >= 3 && t[0] == 48 && IsHexChar(t[|t| - 1])
    ensures TrimSpace(t) == t
  {
    hide TrimLeft, TrimRight, TrimSpace;
    TrimAround([], t, []);
    TrimNothing();
    assert [] + t + [] == t;
  }

  lemma TrimNothing()
    ensures TrimLeft([]) == [] == TrimRight([])
  {
  }

  lemma RevertTextShape(selector: Selector, data: Bytes)
    ensures var t := RevertText(selector, data);
            && HasPrefix(t, HEX_PREFIX) && AllHex(t[2..])
            && HEX_PREFIX + t[2..][..8] == SelectorText(selector) && t[2..][8..] == HexOf(data)
            && TrimSpace(t) == t
  {
    PrefixText();
    hide TrimSpace, IsHexChar, HexOf, BigEndian, Ascii;
    var t, s, d := RevertText(selector, data), HexOf(BigEndian(selector, 4)), HexOf(data);
    var digits := s + d;
    assert t[2..] == digits;
    assert t[..2] == HEX_PREFIX;
    assert digits[..8] == s && digits[8..] == d;
    assert IsHexChar(digits[|digits| - 1]);
    assert t[|t| - 1] == digits[|digits| - 1];
    SolidEnds(t);
  }

  /** `ParseRevert` hands the data to the decoder the selector stands for. */
  lemma ParseOfText(selector: Selector, data: Bytes)
    ensures ParseRevert(RevertText(selector, data)) ==
            match Lookup(selector)
            case None => Failed(UnknownSelector(SelectorText(selector)))
            case Some(sig) => DecodeEntry(selector, sig, data)
  {
    hide Lookup, TrimSpace, DecodeEntry, SelectorOf;
    RevertTextShape(selector, data);
    DecodeInvertsHexOf(data);
    SelectorKeys(selector, SelectorText(selector));
  }

  /** The outcome of decoding well-typed parameters: the error, or a panic when an assertion is wrong. */
  function Expected(selector: Selector, sig: Signature, values: seq<Value>): Parsed
  {
    if AssertionsHold(sig.params) then Decoded(ContractError(selector, sig.name, values)) else Panicked
  }

  /** Printed and parsed, an error comes back with its parameters; bytes after them are ignored. */
  lemma RevertRoundTrip(selector: Selector, sig: Signature, values: seq<Value>, trailing: Bytes)
    requires Lookup(selector) == Some(sig)
    requires HaveTypes(values, sig.params) && |EncodeList(values)| < UINT256_LIMIT
    ensures ParseRevert(RevertText(selector, EncodeList(values) + trailing)) == Expected(selector, sig, values)
  {
    hide Lookup, ParseRevert, RevertText;
    ParseOfText(selector, EncodeList(values) + trailing);
    UnpackInvertsEncode(values, sig.params, trailing);
  }

  /** The parameters could not be unpacked. */
  predicate Refused(p: Parsed)
  {
    p.Failed? && p.reason.UnpackFailed?
  }

  /** A prefix of the encoded parameters parses to the error or is refused; the extent says which. */
  lemma RevertTruncated(selector: Selector, sig: Signature, values: seq<Value>, k: nat)
    requires Lookup(selector) == Some(sig) && sig.params != []
    requires HaveTypes(values, sig.params) && |EncodeList(values)| < UINT256_LIMIT
    requires k <= |EncodeList(values)|
    ensures ListExtent(values) <= k ==>
            ParseRevert(RevertText(selector, EncodeList(values)[..k])) == Expected(selector, sig, values)
    ensures k < ListExtent(values) ==> Refused(ParseRevert(RevertText(selector, EncodeList(values)[..k])))
  {
    hide Lookup, ParseRevert, RevertText;
    ParseOfText(selector, EncodeList(values)[..k]);
    UnpackTruncated(values, sig.params, k);
  }

  /** Less than a word for every parameter is refused, whatever the bytes are. */
  lemma RevertNeedsAllHeads(selector: Selector, sig: Signature, data: Bytes)
    requires Lookup(selector) == Some(sig) && sig.params != []
    requires |data| < 32 * |sig.params|
    ensures Refused(ParseRevert(RevertText(selector, data)))
  {
    hide Lookup, ParseRevert, RevertText;
    ParseOfText(selector, data);
    UnpackNeedsAllHeads(sig.params, data, 0);
  }

  //
  // Normalisation
  //

  lemma ParseIgnoresBlanks(before: Bytes, s: Bytes, after: Bytes)
    requires Blank(before) && Blank(after)
    ensures ParseRevert(before + s + after) == ParseRevert(s)
  {
    hide TrimSpace, ParseDigits, Lookup;
    TrimIgnoresBlanks(before, s, after);
  }

  /** Text without white space at either end is what trimming leaves of it. */
  lemma UntrimmableStays(s: Bytes)
    requires LeadingSpace(s) == 0 && TrailingSpace(s) == 0
    ensures TrimSpace(s) == s
  {
  }

  lemma PrefixedEnds(t: Bytes, prefix: Bytes)
    requires prefix == HEX_PREFIX || prefix == UPPER_HEX_PREFIX
    requires LeadingSpace(t) == 0 && TrailingSpace(t) == 0
    ensures LeadingSpace(prefix + t) == 0 && TrailingSpace(prefix + t) == 0
  {
  }

  /**
   An absent prefix may be added, with a small or a capital X, exactly when there is something to put it in
   front of: no text at all is empty, and a prefix alone too short.
   */
  lemma ParseIgnoresPrefix(s: Bytes, prefix: Bytes)
    requires prefix == HEX_PREFIX || prefix == UPPER_HEX_PREFIX
    requires !HasPrefix(TrimSpace(s), HEX_PREFIX) && !HasPrefix(TrimSpace(s), UPPER_HEX_PREFIX)
    ensures ParseRevert(prefix + TrimSpace(s)) == ParseRevert(s) <==> TrimSpace(s) != []
  {
    hide TrimSpace, LeadingSpace, TrailingSpace, Lookup, SelectorOf, HexDecode;
    var t := TrimSpace(s);
    TrimmedIsTrimmed(s);
    PrefixedEnds(t, prefix);
    UntrimmableStays(prefix + t);
    var u := prefix + t;
    assert u[..2] == prefix && u[2..] == t;
    assert HasPrefix(u, prefix) && WithoutPrefix(u) == t && u != [];
    assert WithoutPrefix(t) == t;
  }

  /** `digits` with everything after the selector in lower case. */
  function LowerParams(digits: Bytes): (r: Bytes)
    ensures |r| == |digits|
  {
    if |digits| < 8 then digits else digits[..8] + Lower(digits[8..])
  }

  lemma DigitsIgnoreCase(digits: Bytes)
    ensures ParseDigits(LowerParams(digits)) == ParseDigits(digits)
  {
    hide SelectorOf, Lookup, DecodeEntry, Lower;
    if |digits| >= 8 {
      var t := LowerParams(digits);
      assert t[..8] == digits[..8] && t[8..] == Lower(digits[8..]);
      DecodeIgnoresCase(digits[8..]);
    }
  }

  /** `u` differs from `t` at most by the letter case of hex digits. */
  predicate Lowered(t: Bytes, u: Bytes)
  {
    |t| == |u| && forall i :: 0 <= i < |t| ==> u[i] == t[i] || u[i] == LowerChar(t[i])
  }

  lemma LoweredLeadingSpace(t: Bytes, u: Bytes)
    requires Lowered(t, u)
    ensures LeadingSpace(u) == LeadingSpace(t)
  {
  }

  lemma LoweredTrailingSpace(t: Bytes, u: Bytes)
    requires Lowered(t, u)
    ensures TrailingSpace(u) == TrailingSpace(t)
  {
  }

  /** Lowering everything behind a prefix and a selector keeps the prefix, and leaves nothing to trim. */
  lemma LoweredStays(head: Bytes, digits: Bytes)
    requires LeadingSpace(head + digits) == 0 && TrailingSpace(head + digits) == 0
    ensures TrimSpace(head + LowerParams(digits)) == head + LowerParams(digits)
  {
    hide LeadingSpace, TrailingSpace, TrimSpace;
    var t, u := head + digits, head + LowerParams(digits);
    assert Lowered(t, u);
    LoweredLeadingSpace(t, u);
    LoweredTrailingSpace(t, u);
    UntrimmableStays(u);
  }

  lemma LoweredPrefix(t: Bytes, u: Bytes, prefix: Bytes)
    requires |t| == |u| && (|t| < 8 ==> t == u) && (|t| >= 8 ==> t[..8] == u[..8]) && |prefix| == 2
    ensures HasPrefix(u, prefix) <==> HasPrefix(t, prefix)
  {
    assert |t| >= 8 ==> t[..2] == t[..8][..2] && u[..2] == u[..8][..2];
  }

  /** Trimmed text with all digits after the selector in lower case. */
  function LowerText(t: Bytes): (u: Bytes)
    ensures |u| == |t|
  {
    var d := WithoutPrefix(t);
    t[..|t| - |d|] + LowerParams(d)
  }

  lemma LoweredDigits(t: Bytes)
    ensures WithoutPrefix(LowerText(t)) == LowerParams(WithoutPrefix(t))
  {
    var d := WithoutPrefix(t);
    var head, low := t[..|t| - |d|], LowerParams(d);
    var u := head + low;
    assert |t| >= 8 ==> t[..8] == u[..8];
    LoweredPrefix(t, u, HEX_PREFIX);
    LoweredPrefix(t, u, UPPER_HEX_PREFIX);
    assert u[|head|..] == low;
  }

  /** For every input, the letter case of the digits after the selector makes no difference. */
  lemma ParseIgnoresCase(s: Bytes)
    ensures ParseRevert(LowerText(TrimSpace(s))) == ParseRevert(s)
  {
    hide ParseDigits, TrimSpace, LeadingSpace, TrailingSpace, WithoutPrefix, LowerParams;
    var t := TrimSpace(s);
    var d := WithoutPrefix(t);
    TrimmedIsTrimmed(s);
    LoweredStays(t[..|t| - |d|], d);
    LoweredDigits(t);
    DigitsIgnoreCase(d);
  }

  /** The key that `ParseRevert` looks up. */
  function KeyLookedUp(hexData: Bytes): Option<Bytes>
  {
    var digits := WithoutPrefix(TrimSpace(hexData));
    if |digits| < 8 then None else Some(HEX_PREFIX + digits[..8])
  }

  /** Whether an answer speaks of the key: the error of its selector, or the key itself when that is unknown. */
  predicate SpeaksOf(answer: Parsed, key: Option<Bytes>)
  {
    match answer
    case Decoded(error) => key == Some(SelectorText(error.selector))
    case Failed(UnknownSelector(selectorHex)) => key == Some(selectorHex)
    case _ => true
  }

  lemma DispatchSpeaks(key: Bytes, data: Bytes)
    ensures SpeaksOf(Dispatch(key, data), Some(key))
  {
    hide Lookup, SelectorText, SelectorOf, Unpack, AssertionsHold;
    if SelectorOf(key).Some? {
      SelectorOfKey(key);
    }
  }

  /** The answer of `ParseRevert` depends on its key as the table does. */
  lemma KeyDecides(hexData: Bytes)
    ensures TrimSpace(hexData) != [] && KeyLookedUp(hexData).None? ==> ParseRevert(hexData) == Failed(TooShort)
    ensures SpeaksOf(ParseRevert(hexData), KeyLookedUp(hexData))
  {
    hide TrimSpace, Dispatch, HexDecode;
    var digits := WithoutPrefix(TrimSpace(hexData));
    if |digits| >= 8 && HexDecode(digits[8..]).Some? {
      DispatchSpeaks(HEX_PREFIX + digits[..8], HexDecode(digits[8..]).value);
    }
  }

  /** Whether the digits after the selector are the hex of whole bytes. */
  predicate HexParams(d: Bytes)
  {
    |d| >= 8 && |d| % 2 == 0 && AllHex(d[8..])
  }

  /** A decoder neither complains of the text nor of the selector. */
  lemma DecoderRefuses(selector: Selector, sig: Signature, data: Bytes)
    ensures DecodeEntry(selector, sig, data).Failed? ==> DecodeEntry(selector, sig, data).reason.UnpackFailed?
  {
    hide Unpack, AssertionsHold;
  }

  lemma DispatchRefuses(key: Bytes, data: Bytes)
    ensures Dispatch(key, data).Failed? ==>
              Dispatch(key, data).reason.UnpackFailed? || Dispatch(key, data) == Failed(UnknownSelector(key))
  {
    hide Lookup, SelectorOf, DecodeEntry;
    if SelectorOf(key).Some? && Lookup(SelectorOf(key).value).Some? {
      DecoderRefuses(SelectorOf(key).value, Lookup(SelectorOf(key).value).value, data);
    }
  }

  lemma RefusedDigits(d: Bytes)
    ensures ParseDigits(d) != Failed(EmptyData)
    ensures ParseDigits(d) == Failed(TooShort) <==> |d| < 8
    ensures ParseDigits(d) == Failed(InvalidHex) <==> |d| >= 8 && !HexParams(d)
  {
    hide Dispatch, AllHex;
    if HexParams(d) {
      DispatchRefuses(HEX_PREFIX + d[..8], HexDecode(d[8..]).value);
    }
  }

  /** Refused text: nothing at all, too few digits for a selector, or digits after it that are not hex. */
  lemma RefusedText(s: Bytes)
    ensures var t, d := TrimSpace(s), WithoutPrefix(TrimSpace(s));
            && (ParseRevert(s) == Failed(EmptyData) <==> t == [])
            && (ParseRevert(s) == Failed(TooShort) <==> t != [] && |d| < 8)
            && (ParseRevert(s) == Failed(InvalidHex) <==> |d| >= 8 && !(|d| % 2 == 0 && AllHex(d[8..])))
  {
    hide TrimSpace, ParseDigits, WithoutPrefix, AllHex;
    RefusedDigits(WithoutPrefix(TrimSpace(s)));
  }

  /** Digits that are a selector's key and the hex of some data, in letters of either case. */
  predicate ReadsAs(d: Bytes, key: Bytes, data: Bytes)
  {
    HexParams(d) && key == Ascii("0x") + d[..8] && HexOf(data) == Lower(d[8..])
  }

  lemma DataRead(params: Bytes, data: Bytes)
    requires HexOf(data) == Lower(params)
    ensures HexDecode(params) == Some(data)
  {
    hide HexDecode;
    DecodeIgnoresCase(params);
    DecodeInvertsHexOf(data);
  }

  lemma KeyRead(d: Bytes, key: Bytes)
    requires |d| >= 8 && key == Ascii("0x") + d[..8]
    ensures key == HEX_PREFIX + d[..8]
  {
    PrefixText();
  }

  lemma AcceptedDigits(d: Bytes, data: Bytes, key: Bytes)
    requires ReadsAs(d, key, data)
    ensures ParseDigits(d) == Dispatch(key, data)
  {
    hide Dispatch, AllHex, HexOf, Lower, Ascii, HexDecode, HEX_PREFIX;
    KeyRead(d, key);
    DataRead(d[8..], data);
  }

  /** The answer of the decoder that a key stands for, or that the key is unknown. */
  ghost predicate Dispatched(answer: Parsed, key: Bytes, data: Bytes)
  {
    && (forall selector, sig :: SelectorText(selector) == key && Lookup(selector) == Some(sig) ==>
          answer == DecodeEntry(selector, sig, data))
    && ((forall selector :: SelectorText(selector) == key ==> Lookup(selector) == None) ==>
          answer == Failed(UnknownSelector(key)))
  }

  /**
   All other text: with the first eight digits as its key and the rest as its data, it is handed to the decoder of
   the selector that the key stands for, and is an unknown selector when there is none.
   */
  lemma AcceptedText(s: Bytes, data: Bytes, key: Bytes)
    requires ReadsAs(WithoutPrefix(TrimSpace(s)), key, data)
    ensures Dispatched(ParseRevert(s), key, data)
  {
    hide TrimSpace, ParseDigits, HexOf, Lower, Ascii, AllHex, Dispatched, Dispatch;
    AcceptedDigits(WithoutPrefix(TrimSpace(s)), data, key);
    DispatchIsDispatched(key, data);
  }

  lemma DispatchIsDispatched(key: Bytes, data: Bytes)
    ensures Dispatched(Dispatch(key, data), key, data)
  {
    hide Lookup, SelectorOf, DecodeEntry, SelectorText;
    forall selector: Selector | SelectorText(selector) == key ensures SelectorOf(key) == Some(selector) {
      SelectorKeys(selector, key);
    }
    if SelectorOf(key).Some? {
      SelectorKeys(SelectorOf(key).value, key);
    }
  }

  const CAPITAL_REPEATED: Bytes := [48, 88, 48, 88, 48, 88, 48, 88, 48, 88]

  /**
   `GetSelector` and `ParseRevert` mean the same key exactly when the trimmed text does not start with
   "0X", which only `ParseRevert` strips; with it, only when both find too little or the text is "0X0X0X0X0X".
   */
  lemma GetSelectorAgrees(hexData: Bytes)
    ensures var t := TrimSpace(hexData);
            GetSelector(hexData) == KeyLookedUp(hexData) <==>
            !HasPrefix(t, UPPER_HEX_PREFIX) || |t| < 8 || HasPrefix(t, CAPITAL_REPEATED)
  {
    hide TrimSpace;
    var t := TrimSpace(hexData);
    if HasPrefix(t, UPPER_HEX_PREFIX) {
      assert t[0] == UPPER_HEX_PREFIX[0] && t[1] == UPPER_HEX_PREFIX[1];
      assert !HasPrefix(t, HEX_PREFIX) by {
        assert t[..2][1] == 88;
      }
      if |t| >= 10 {
        CapitalKey(t);
      }
    }
  }

  lemma CapitalKey(t: Bytes)
    requires |t| >= 10 && t[0] == 48 && t[1] == 88
    ensures HEX_PREFIX + t[..8] == HEX_PREFIX + t[2..][..8] <==> HasPrefix(t, CAPITAL_REPEATED)
  {
    var a, b := HEX_PREFIX + t[..8], HEX_PREFIX + t[2..][..8];
    PrefixPointwise(t, CAPITAL_REPEATED);
    if a == b {
      EveryOther(t);
    }
    if HasPrefix(t, CAPITAL_REPEATED) {
      forall i | 0 <= i < 8 ensures t[i] == t[i + 2] {
        assert t[i] == CAPITAL_REPEATED[i] && t[i + 2] == CAPITAL_REPEATED[i + 2];
      }
      assert t[..8] == t[2..][..8];
    }
  }

  lemma EveryOther(t: Bytes)
    requires |t| >= 10 && t[0] == 48 && t[1] == 88 && HEX_PREFIX + t[..8] == HEX_PREFIX + t[2..][..8]
    ensures forall k :: 0 <= k < |CAPITAL_REPEATED| ==> t[k] == CAPITAL_REPEATED[k]
  {
    forall i | 0 <= i < 8 ensures t[i] == t[i + 2] {
      assert (HEX_PREFIX + t[..8])[i + 2] == t[i] && (HEX_PREFIX + t[2..][..8])[i + 2] == t[i + 2];
    }
    assert t[2] == 48 && t[3] == 88;
    assert t[4] == 48 && t[5] == 88;
    assert t[6] == 48 && t[7] == 88;
    assert t[8] == 48 && t[9] == 88;
  }
}
