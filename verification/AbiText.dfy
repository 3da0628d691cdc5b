/** Types as they are written in signatures. */
module AbiText {
  import opened Abi

  function TypeName(t: AbiType): string
  {
    match t
    case Uint256 => "uint256"
    case Uint8 => "uint8"
    case Address => "address"
    case Bool => "bool"
    case FixedBytes32 => "bytes32"
    case ByteString => "bytes"
    case CharString => "string"
    case Array(elem) => TypeName(elem) + "[]"
  }

  /** Type names with commas in between. */
  function Names(ts: seq<AbiType>): string
  {
    if ts == [] then ""
    else if |ts| == 1 then TypeName(ts[0])
    else TypeName(ts[0]) + "," + Names(ts[1..])
  }

  lemma NamesMore(t: AbiType, rest: seq<AbiType>)
    requires rest != []
    ensures Names([t] + rest) == TypeName(t) + "," + Names(rest)
  {
    assert ([t] + rest)[0] == t && ([t] + rest)[1..] == rest;
  }
}
