/**
 Revert data found in an error message: the hex text is extracted by five patterns in order of priority,
 decoded, and handed to the decoder that the first four bytes select.
 */
module RevertParser {
  import opened Bytes
  import opened Abi
  import opened GoText
  import opened Hex
  import opened ErrorTable

  /** A decoded contract error: its selector, its name and its parameters in order. */
  datatype ContractError = ContractError(selector: Selector, name: string, params: seq<Value>)

  datatype ParseError =
    | NoRevertData
    | EmptyData
    | TooShort
    | InvalidHex
    | UnknownSelector(selectorHex: Bytes)
    | UnpackFailed(reason: DecodeError)

  /** `Panicked` is a failed type assertion. */
  datatype Parsed = Decoded(error: ContractError) | Failed(reason: ParseError) | Panicked

  const HEX_PREFIX: Bytes := [48, 120]

  const UPPER_HEX_PREFIX: Bytes := [48, 88]

  const EXECUTION_REVERTED: Bytes := Ascii("execution reverted:")

  const VM_ERROR: Bytes := Ascii("vm error=[")

  const REVERT: Bytes := Ascii("revert ")

  //
  // Decoders
  //

  /** The Go types of unpacked values. */
  datatype GoType = BigInt | GoByte | GoAddress | GoBool | GoString | ByteSlice | ByteArray32 | GoSlice

  /** The Go type that unpacking gives a parameter. */
  function UnpackedAs(t: AbiType): GoType
  {
    match t
    case Uint256 => BigInt
    case Uint8 => GoByte
    case Address => GoAddress
    case Bool => GoBool
    case FixedBytes32 => ByteArray32
    case ByteString => ByteSlice
    case CharString => GoString
    case Array(_) => GoSlice
  }

  /** The Go type that the decoders assert for a parameter: the same, but for `bytes32`. */
  function AssertedAs(t: AbiType): GoType
  {
    if t == FixedBytes32 then ByteSlice else UnpackedAs(t)
  }

  predicate AssertionsHold(ts: seq<AbiType>)
  {
    forall i :: 0 <= i < |ts| ==> UnpackedAs(ts[i]) == AssertedAs(ts[i])
  }

  /** A decoder function; without parameters it does not look at the data. */
  function DecodeEntry(selector: Selector, sig: Signature, data: Bytes): Parsed
  {
    if sig.params == [] then Decoded(ContractError(selector, sig.name, []))
    else
      match Unpack(sig.params, data)
      case Err(reason) => Failed(UnpackFailed(reason))
      case Ok(values) =>
        if AssertionsHold(sig.params) then Decoded(ContractError(selector, sig.name, values)) else Panicked
  }

  //
  // The table as it is keyed
  //

  /** The key of a selector: "0x" and eight lower-case digits. */
  function SelectorText(selector: Selector): (t: Bytes)
    ensures |t| == 10
  {
    HEX_PREFIX + HexOf(BigEndian(selector, 4))
  }

  function SelectorOf(key: Bytes): Option<Selector>
  {
    if |key| == 10 && key[..2] == HEX_PREFIX && HexDecode(key[2..]).Some? && Lower(key) == key then
      var n := Number(HexDecode(key[2..]).value);
      NumberBound(HexDecode(key[2..]).value);
      assert Pow256(4) == 0x1_0000_0000;
      Some(n as Selector)
    else None
  }

  //
  // ParseRevert and GetSelector
  //

  function WithoutPrefix(t: Bytes): (d: Bytes)
    ensures |d| <= |t| && t == t[..|t| - |d|] + d
  {
    if HasPrefix(t, HEX_PREFIX) || HasPrefix(t, UPPER_HEX_PREFIX) then t[2..] else t
  }

  /** The decoder of a key, if there is one, applied to the data. */
  function Dispatch(selectorHex: Bytes, paramData: Bytes): Parsed
  {
    hide Lookup;
    match SelectorOf(selectorHex)
    case None => Failed(UnknownSelector(selectorHex))
    case Some(selector) =>
      match Lookup(selector)
      case None => Failed(UnknownSelector(selectorHex))
      case Some(sig) => DecodeEntry(selector, sig, paramData)
  }

  /** What `ParseRevert` makes of the digits after the prefix. */
  function ParseDigits(hexData: Bytes): Parsed
  {
    hide Dispatch;
    if |hexData| < 8 then Failed(TooShort)
    else
      match HexDecode(hexData[8..])
      case None => Failed(InvalidHex)
      case Some(paramData) => Dispatch(HEX_PREFIX + hexData[..8], paramData)
  }

  function ParseRevert(hexData: Bytes): Parsed
  {
    var t := TrimSpace(hexData);
    if t == [] then Failed(EmptyData) else ParseDigits(WithoutPrefix(t))
  }

  function GetSelector(hexData: Bytes): Option<Bytes>
  {
    var t := TrimSpace(hexData);
    var digits := if HasPrefix(t, HEX_PREFIX) then t[2..] else t;
    if |digits| < 8 then None else Some(HEX_PREFIX + digits[..8])
  }

  //
  // Extraction
  //

  /** Where the run of hex digits from `i` on ends. */
  function HexEnd(s: Bytes, i: nat): (end: nat)
    requires i <= |s|
    ensures i <= end <= |s|
    ensures forall k :: i <= k < end ==> IsHexChar(s[k])
    ensures end < |s| ==> !IsHexChar(s[end])
    decreases |s| - i
  {
    if i < |s| && IsHexChar(s[i]) then HexEnd(s, i + 1) else i
  }

  /** The prefix and the digits that follow it. */
  function FirstHexString(s: Bytes): Bytes
  {
    if HasPrefix(s, HEX_PREFIX) then s[..HexEnd(s, 2)] else []
  }

  method ExtractFirstHexString(s: Bytes) returns (r: Bytes)
    ensures r == FirstHexString(s)
    ensures !HasPrefix(s, HEX_PREFIX) ==> r == []
    ensures HasPrefix(s, HEX_PREFIX) ==>
              && 2 <= |r| <= |s| && r == s[..|r|] && AllHex(r[2..]) && (|r| < |s| ==> !IsHexChar(s[|r|]))
  {
    if !HasPrefix(s, HEX_PREFIX) {
      return [];
    }
    var end := 2;
    while end < |s|
      invariant 2 <= end <= |s|
      invariant HexEnd(s, 2) == HexEnd(s, end)
    {
      if !IsHexChar(s[end]) {
        break;
      }
      end := end + 1;
    }
    return s[..end];
  }

  /** What follows the first occurrence of a marker, trimmed when the pattern trims. */
  function After(msg: Bytes, marker: Bytes, trim: bool): (r: Option<Bytes>)
    ensures r.Some? <==> Contains(msg, marker)
  {
    match Index(msg, marker)
    case None => None
    case Some(i) =>
      var remaining := msg[i + |marker|..];
      Some(if trim then TrimSpace(remaining) else remaining)
  }

  /** A marker pattern applies when "0x" follows the marker. */
  predicate Applies(msg: Bytes, marker: Bytes, trim: bool)
  {
    After(msg, marker, trim).Some? && HasPrefix(After(msg, marker, trim).value, HEX_PREFIX)
  }

  function HexDataIn(msg: Bytes): Bytes
  {
    if HasPrefix(msg, HEX_PREFIX) then msg
    else if Applies(msg, EXECUTION_REVERTED, true) then FirstHexString(After(msg, EXECUTION_REVERTED, true).value)
    else if Applies(msg, VM_ERROR, false) then FirstHexString(After(msg, VM_ERROR, false).value)
    else if Applies(msg, REVERT, true) then FirstHexString(After(msg, REVERT, true).value)
    else
      match Index(msg, HEX_PREFIX)
      case None => []
      case Some(i) => FirstHexString(msg[i..])
  }

  function HexData(errMsg: Bytes): Bytes
  {
    HexDataIn(TrimSpace(errMsg))
  }

  method ExtractHexData(errMsg: Bytes) returns (r: Bytes)
    ensures r == HexData(errMsg)
  {
    hide Ascii, TrimSpace, Index, HasPrefix, FirstHexString;
    var msg := TrimSpace(errMsg);
    if HasPrefix(msg, HEX_PREFIX) {
      return msg;
    }
    var idx := Index(msg, EXECUTION_REVERTED);
    if idx.Some? {
      var remaining := TrimSpace(msg[idx.value + |EXECUTION_REVERTED|..]);
      if HasPrefix(remaining, HEX_PREFIX) {
        r := ExtractFirstHexString(remaining);
        return;
      }
    }
    idx := Index(msg, VM_ERROR);
    if idx.Some? {
      var remaining := msg[idx.value + |VM_ERROR|..];
      if HasPrefix(remaining, HEX_PREFIX) {
        r := ExtractFirstHexString(remaining);
        return;
      }
    }
    idx := Index(msg, REVERT);
    if idx.Some? {
      var remaining := TrimSpace(msg[idx.value + |REVERT|..]);
      if HasPrefix(remaining, HEX_PREFIX) {
        r := ExtractFirstHexString(remaining);
        return;
      }
    }
    idx := Index(msg, HEX_PREFIX);
    if idx.Some? {
      r := ExtractFirstHexString(msg[idx.value..]);
      return;
    }
    return [];
  }

  function ParsedFromError(errMsg: Bytes): Parsed
  {
    if HexData(errMsg) == [] then Failed(NoRevertData) else ParseRevert(HexData(errMsg))
  }

  method ParseRevertFromError(errMsg: Bytes) returns (r: Parsed)
    ensures r == ParsedFromError(errMsg)
  {
    hide HexData, ParseRevert;
    var hexData := ExtractHexData(errMsg);
    if hexData == [] {
      return Failed(NoRevertData);
    }
    return ParseRevert(hexData);
  }
}
