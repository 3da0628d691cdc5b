/**
 The Contract ABI codec behind `arguments.Pack` and `arguments.Unpack`.

 `EncodeValue` and `EncodeList` follow section "Formal Specification of the Encoding" of the Solidity
 Contract ABI Specification: every component has a one-word head, which holds a static component itself
 or the offset of a dynamic component's tail.  Decoding makes the checks of go-ethereum's unpacking:
 every word, length and content it reads must lie inside the buffer; padding is not looked at.
 */
module Abi {
  import opened Bytes

  datatype AbiType =
    | Uint256
    | Uint8
    | Address
    | Bool
    | FixedBytes32
    | ByteString
    | CharString
    | Array(elem: AbiType)
  {
    predicate Dynamic() {
      ByteString? || CharString? || Array?
    }
  }

  datatype Value =
    | Num(n: nat)
    | Flag(b: bool)
    | Addr(a: Bytes)
    | Fixed(f: Bytes)
    | Blob(bytes: Bytes)
    | Text(text: Bytes)
    | List(items: seq<Value>)
  {
    predicate Dynamic() {
      Blob? || Text? || List?
    }
  }

  datatype DecodeError = LengthInsufficient | BadUint8 | BadBool

  predicate HasType(v: Value, t: AbiType)
    decreases t
  {
    match t
    case Uint256 => v.Num? && v.n < UINT256_LIMIT
    case Uint8 => v.Num? && v.n < 256
    case Address => v.Addr? && |v.a| == 20
    case Bool => v.Flag?
    case FixedBytes32 => v.Fixed? && |v.f| == 32
    case ByteString => v.Blob?
    case CharString => v.Text?
    case Array(elem) => v.List? && forall i :: 0 <= i < |v.items| ==> HasType(v.items[i], elem)
  }

  predicate HaveTypes(vs: seq<Value>, ts: seq<AbiType>)
  {
    && |vs| == |ts|
    && forall i :: 0 <= i < |vs| ==> HasType(vs[i], ts[i])
  }

  //
  // Encoding
  //

  /** The zero bytes that fill `n` bytes up to whole words. */
  function PadLength(n: nat): (p: nat)
    ensures p < 32 && (n + p) % 32 == 0
  {
    if n % 32 == 0 then 0 else 32 - n % 32
  }

  function EncodeBytes(b: Bytes): (e: Bytes)
    ensures |e| == 32 + |b| + PadLength(|b|)
  {
    Word(|b|) + (b + Zeros(PadLength(|b|)))
  }

  /** One encoded component of a list: it goes into the heads, or its offset does and it goes to the tails. */
  datatype Part = Inline(bytes: Bytes) | Tailed(bytes: Bytes) {
    function Head(offset: nat): Bytes {
      if Tailed? then Word(offset) else bytes
    }

    function Tail(): Bytes {
      if Tailed? then bytes else []
    }
  }

  /** The heads of `ps` when the first tail is to start at `offset`. */
  function Heads(ps: seq<Part>, offset: nat): Bytes
  {
    if ps == [] then [] else ps[0].Head(offset) + Heads(ps[1..], offset + |ps[0].Tail()|)
  }

  function Tails(ps: seq<Part>): Bytes
  {
    if ps == [] then [] else ps[0].Tail() + Tails(ps[1..])
  }

  function Join(ps: seq<Part>): Bytes
  {
    Heads(ps, 32 * |ps|) + Tails(ps)
  }

  function EncodeValue(v: Value): (e: Bytes)
    decreases v, 0
  {
    match v
    case Num(n) => Word(n)
    case Flag(b) => Word(if b then 1 else 0)
    case Addr(a) => Zeros(if |a| <= 32 then 32 - |a| else 0) + a
    case Fixed(f) => f
    case Blob(b) => EncodeBytes(b)
    case Text(s) => EncodeBytes(s)
    case List(items) => Word(|items|) + Join(Parts(items))
  }

  function PartOf(v: Value): Part
    decreases v, 1
  {
    if v.Dynamic() then Tailed(EncodeValue(v)) else Inline(EncodeValue(v))
  }

  function Parts(vs: seq<Value>): (ps: seq<Part>)
    ensures |ps| == |vs|
    decreases vs, 0
  {
    if vs == [] then [] else [PartOf(vs[0])] + Parts(vs[1..])
  }

  /** The encoding of an argument list: `arguments.Pack(vs...)`. */
  function EncodeList(vs: seq<Value>): Bytes
  {
    Join(Parts(vs))
  }

  //
  // Decoding
  //

  /** The content that the offset word at `index` points to: where it starts and its length word. */
  function LengthPrefix(out: Bytes, index: nat): (r: Result<(nat, nat), DecodeError>)
    requires index + 32 <= |out|
    ensures r.Ok? ==> r.value.0 + r.value.1 <= |out|
  {
    var start := Number(Slice(out, index, 32)) + 32;
    if start > |out| then Err(LengthInsufficient)
    else
      var length := Number(Slice(out, start - 32, 32));
      if start + length > |out| then Err(LengthInsufficient) else Ok((start, length))
  }

  function DecodeWord(t: AbiType, word: Word32): Result<Value, DecodeError>
    requires !t.Dynamic()
  {
    match t
    case Uint256 => Ok(Num(Number(word)))
    case Uint8 => if Number(word) < 256 then Ok(Num(Number(word))) else Err(BadUint8)
    case Address => Ok(Addr(word[12..]))
    case Bool =>
      if Number(word) == 0 then Ok(Flag(false))
      else if Number(word) == 1 then Ok(Flag(true))
      else Err(BadBool)
    case FixedBytes32 => Ok(Fixed(word))
  }

  /** The value of type `t` whose head is at `index`. */
  function DecodeAt(t: AbiType, out: Bytes, index: nat): Result<Value, DecodeError>
    decreases t, 0, 0
  {
    if index + 32 > |out| then Err(LengthInsufficient)
    else if t.Array? then
      var items :- DecodeArray(t.elem, out, index);
      Ok(List(items))
    else if !t.Dynamic() then DecodeWord(t, Slice(out, index, 32))
    else
      var (start, length) :- LengthPrefix(out, index);
      Ok(if t.ByteString? then Blob(Slice(out, start, length)) else Text(Slice(out, start, length)))
  }

  function DecodeArray(elem: AbiType, out: Bytes, index: nat): Result<seq<Value>, DecodeError>
    requires index + 32 <= |out|
    decreases elem, 2, 0
  {
    var (start, length) :- LengthPrefix(out, index);
    if start + 32 * length > |out| then Err(LengthInsufficient)
    else DecodeItems(elem, length, out[start..], 0)
  }

  /** `n` array elements whose heads follow each other from `index`. */
  function DecodeItems(elem: AbiType, n: nat, out: Bytes, index: nat): Result<seq<Value>, DecodeError>
    decreases elem, 1, n
  {
    if n == 0 then Ok([])
    else
      var first :- DecodeAt(elem, out, index);
      var rest :- DecodeItems(elem, n - 1, out, index + 32);
      Ok([first] + rest)
  }

  /** The arguments of types `ts` whose heads follow each other from `index`. */
  function DecodeArguments(ts: seq<AbiType>, out: Bytes, index: nat): Result<seq<Value>, DecodeError>
  {
    if ts == [] then Ok([])
    else
      var first :- DecodeAt(ts[0], out, index);
      var rest :- DecodeArguments(ts[1..], out, index + 32);
      Ok([first] + rest)
  }

  /** `arguments.Unpack(data)`. */
  function Unpack(ts: seq<AbiType>, data: Bytes): Result<seq<Value>, DecodeError>
  {
    DecodeArguments(ts, data, 0)
  }
}
