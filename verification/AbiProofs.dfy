/**
 What unpacking makes of an encoding: any truncation of it, and whatever follows it, gives the
 encoded values back or fails, and the extent of the encoding says which.
 */
module AbiProofs {
  import opened Bytes
  import opened Abi
  import opened AbiLayout

  //
  // Shapes
  //

  lemma ItemsOneWordHeads(vs: seq<Value>, elem: AbiType)
    requires forall i :: 0 <= i < |vs| ==> HasType(vs[i], elem)
    ensures OneWordHeads(Parts(vs))
  {
    TypedParts(vs, seq(|vs|, _ => elem));
  }

  lemma PartsStep(vs: seq<Value>)
    requires vs != []
    ensures Parts(vs)[0] == PartOf(vs[0]) && Parts(vs)[1..] == Parts(vs[1..])
  {
  }

  //
  // Extents: how many bytes of an encoding the decoder reads
  //

  function Extent(v: Value): nat
    decreases v, 0
  {
    match v
    case Blob(b) => 32 + |b|
    case Text(s) => 32 + |s|
    case List(items) => 32 + ListExtent(items)
    case _ => 32
  }

  /** From the start of a list's encoding to the end of the last content in it, padding left out. */
  function ListExtent(vs: seq<Value>): nat
    decreases vs, 2
  {
    32 * |vs| + TailExtent(vs)
  }

  function TailExtent(vs: seq<Value>): nat
    decreases vs, 1
  {
    if vs == [] then 0
    else
      var rest := TailExtent(vs[1..]);
      if !vs[0].Dynamic() then rest
      else if rest == 0 then Extent(vs[0])
      else |EncodeValue(vs[0])| + rest
  }

  //
  // Decoding a truncated encoding
  //

  /** `out` may stop before the end of `bs`, but holds the bytes of `bs` from `pos` as far as it goes. */
  predicate Agrees(out: Bytes, pos: nat, bs: Bytes)
    decreases |bs|
  {
    bs != [] && pos < |out| ==> out[pos] == bs[0] && Agrees(out, pos + 1, bs[1..])
  }

  lemma {:induction false} AgreesPointwise(out: Bytes, pos: nat, bs: Bytes)
    ensures Agrees(out, pos, bs) <==>
            forall j {:trigger out[j]} :: pos <= j < pos + |bs| && j < |out| ==> out[j] == bs[j - pos]
    decreases |bs|
  {
    if bs != [] {
      AgreesPointwise(out, pos + 1, bs[1..]);
      forall j {:trigger out[j]} | pos + 1 <= j < pos + |bs| && j < |out| ensures bs[j - pos] == bs[1..][j - pos - 1] {}
    }
  }

  lemma AgreesSplit(out: Bytes, pos: nat, a: Bytes, mid: nat, b: Bytes)
    requires Agrees(out, pos, a + b) && mid == pos + |a|
    ensures Agrees(out, pos, a) && Agrees(out, mid, b)
  {
    AgreesPointwise(out, pos, a + b);
    AgreesPointwise(out, pos, a);
    AgreesPointwise(out, mid, b);
  }

  lemma AgreesDrop(out: Bytes, from: nat, pos: nat, bs: Bytes)
    requires from <= |out| && Agrees(out, from + pos, bs)
    ensures Agrees(out[from..], pos, bs)
  {
    AgreesPointwise(out, from + pos, bs);
    AgreesPointwise(out[from..], pos, bs);
    forall j | pos <= j < pos + |bs| && j < |out[from..]| ensures out[from..][j] == bs[j - pos] {
      assert out[from..][j] == out[from + j];
    }
  }

  lemma AgreesSlice(out: Bytes, pos: nat, bs: Bytes)
    requires Agrees(out, pos, bs) && pos + |bs| <= |out|
    ensures Slice(out, pos, |bs|) == bs
  {
    AgreesPointwise(out, pos, bs);
  }

  /** Where the value with head at `index` and tail at `offset` must end for the decoder to read it. */
  predicate Readable(v: Value, out: Bytes, index: nat, offset: nat)
  {
    index + 32 <= |out| && (v.Dynamic() ==> offset + Extent(v) <= |out|)
  }

  /** `out` holds the head of `v` at `index` and its tail at `offset`. */
  predicate Placed(v: Value, out: Bytes, index: nat, offset: nat)
  {
    && Agrees(out, index, PartOf(v).Head(offset))
    && Agrees(out, offset, PartOf(v).Tail())
    && offset + |PartOf(v).Tail()| < UINT256_LIMIT
  }

  predicate ListPlaced(vs: seq<Value>, out: Bytes, index: nat, offset: nat)
  {
    && Agrees(out, index, Heads(Parts(vs), offset))
    && Agrees(out, offset, Tails(Parts(vs)))
    && offset + |Tails(Parts(vs))| < UINT256_LIMIT
  }

  predicate ListReadable(vs: seq<Value>, out: Bytes, index: nat, offset: nat)
  {
    vs != [] ==> index + 32 * |vs| <= |out| && (TailExtent(vs) != 0 ==> offset + TailExtent(vs) <= |out|)
  }

  /** Where the tails of `vs[1..]` start when the tails of `vs` start at `offset`. */
  function TailStart(vs: seq<Value>, offset: nat): nat
    requires vs != []
  {
    offset + |PartOf(vs[0]).Tail()|
  }

  lemma DecodeStatic(v: Value, t: AbiType, out: Bytes, index: nat)
    requires HasType(v, t) && !t.Dynamic() && index + 32 <= |out|
    requires Agrees(out, index, EncodeValue(v))
    ensures DecodeAt(t, out, index) == Ok(v)
  {
    AgreesSlice(out, index, EncodeValue(v));
    match v
    case Num(n) => NumberOfWord(n);
    case Flag(b) => NumberOfWord(if b then 1 else 0);
    case Addr(a) => assert EncodeValue(v)[12..] == a;
    case Fixed(f) =>
  }

  /** The offset and length words of a dynamic value, read back. */
  lemma PrefixOf(out: Bytes, index: nat, offset: nat, length: nat, content: Bytes)
    requires index + 32 <= |out| && offset < UINT256_LIMIT && length < UINT256_LIMIT
    requires Agrees(out, index, Word(offset)) && Agrees(out, offset, Word(length) + content)
    ensures LengthPrefix(out, index) ==
            if offset + 32 + length <= |out| then Ok((offset + 32, length)) else Err(LengthInsufficient)
  {
    AgreesSlice(out, index, Word(offset));
    NumberOfWord(offset);
    if offset + 32 <= |out| {
      AgreesSplit(out, offset, Word(length), offset + 32, content);
      AgreesSlice(out, offset, Word(length));
      NumberOfWord(length);
    }
  }

  lemma DecodeBytesContent(out: Bytes, index: nat, offset: nat, b: Bytes)
    requires index + 32 <= |out| && offset + |EncodeBytes(b)| < UINT256_LIMIT
    requires Agrees(out, index, Word(offset)) && Agrees(out, offset, EncodeBytes(b))
    ensures LengthPrefix(out, index) ==
            if offset + 32 + |b| <= |out| then Ok((offset + 32, |b|)) else Err(LengthInsufficient)
    ensures offset + 32 + |b| <= |out| ==> Slice(out, offset + 32, |b|) == b
  {
    var pad := Zeros(PadLength(|b|));
    PrefixOf(out, index, offset, |b|, b + pad);
    AgreesSplit(out, offset, Word(|b|), offset + 32, b + pad);
    AgreesSplit(out, offset + 32, b, offset + 32 + |b|, pad);
    if offset + 32 + |b| <= |out| {
      AgreesSlice(out, offset + 32, b);
    }
  }

  /** A placed value decodes to itself exactly when the buffer reaches the end of its extent. */
  lemma {:induction false} DecodePlaced(v: Value, t: AbiType, out: Bytes, index: nat, offset: nat)
    requires HasType(v, t) && Placed(v, out, index, offset)
    ensures Readable(v, out, index, offset) ==> DecodeAt(t, out, index) == Ok(v)
    ensures !Readable(v, out, index, offset) ==> DecodeAt(t, out, index).Err?
    decreases v, 0
  {
    hide Agrees, EncodeBytes, Join, Parts, Placed;
    PlacedUnfolds(v, out, index, offset);
    if index + 32 > |out| {
    } else if v.List? {
      assert EncodeValue(v) == Word(|v.items|) + Join(Parts(v.items));
      DecodePlacedArray(v.items, t.elem, out, index, offset);
    } else if v.Dynamic() {
      var b := if v.Blob? then v.bytes else v.text;
      assert EncodeValue(v) == EncodeBytes(b);
      DecodeBytesContent(out, index, offset, b);
    } else {
      DecodeStatic(v, t, out, index);
    }
  }

  lemma PlacedUnfolds(v: Value, out: Bytes, index: nat, offset: nat)
    requires Placed(v, out, index, offset)
    ensures v.Dynamic() ==>
      Agrees(out, index, Word(offset)) && Agrees(out, offset, EncodeValue(v))
          && offset + |EncodeValue(v)| < UINT256_LIMIT
    ensures !v.Dynamic() ==> Agrees(out, index, EncodeValue(v))
  {
    hide Agrees;
  }

  lemma {:induction false} DecodePlacedArray(items: seq<Value>, elem: AbiType, out: Bytes, index: nat, offset: nat)
    requires forall i :: 0 <= i < |items| ==> HasType(items[i], elem)
    requires Agrees(out, index, Word(offset)) && Agrees(out, offset, Word(|items|) + Join(Parts(items)))
    requires index + 32 <= |out| && offset + 32 + |Join(Parts(items))| < UINT256_LIMIT
    ensures offset + 32 + ListExtent(items) <= |out| ==> DecodeArray(elem, out, index) == Ok(items)
    ensures offset + 32 + ListExtent(items) > |out| ==> DecodeArray(elem, out, index).Err?
    decreases items, 1
  {
    hide Agrees, ListPlaced, Heads, Tails, Parts;
    var n := |items|;
    assert LengthPrefix(out, index) ==
        if offset + 32 + n <= |out| then Ok((offset + 32, n)) else Err(LengthInsufficient) by {
      ItemsOneWordHeads(items, elem);
      HeadsLength(Parts(items), 32 * n);
      PrefixOf(out, index, offset, n, Join(Parts(items)));
    }
    if offset + 32 + n <= |out| {
      var content := out[offset + 32..];
      ArrayContent(items, elem, out, offset);
      DecodePlacedItems(items, elem, content, 0, 32 * n);
      assert ListReadable(items, content, 0, 32 * n) <==> offset + 32 + ListExtent(items) <= |out|;
    }
  }

  /** The heads and tails of a placed array follow its length word. */
  lemma ArrayContent(items: seq<Value>, elem: AbiType, out: Bytes, offset: nat)
    requires forall i :: 0 <= i < |items| ==> HasType(items[i], elem)
    requires Agrees(out, offset, Word(|items|) + Join(Parts(items)))
    requires offset + 32 <= |out| && |Join(Parts(items))| < UINT256_LIMIT
    ensures ListPlaced(items, out[offset + 32..], 0, 32 * |items|)
  {
    hide Agrees;
    var heads, tails := Heads(Parts(items), 32 * |items|), Tails(Parts(items));
    ItemsOneWordHeads(items, elem);
    HeadsLength(Parts(items), 32 * |items|);
    AgreesSplit(out, offset, Word(|items|), offset + 32, heads + tails);
    AgreesDrop(out, offset + 32, 0, heads + tails);
    AgreesSplit(out[offset + 32..], 0, heads, 32 * |items|, tails);
  }

  lemma {:induction false} DecodePlacedItems(vs: seq<Value>, elem: AbiType, out: Bytes, index: nat, offset: nat)
    requires forall i :: 0 <= i < |vs| ==> HasType(vs[i], elem)
    requires ListPlaced(vs, out, index, offset)
    ensures ListReadable(vs, out, index, offset) ==> DecodeItems(elem, |vs|, out, index) == Ok(vs)
    ensures !ListReadable(vs, out, index, offset) ==> DecodeItems(elem, |vs|, out, index).Err?
    decreases vs, 0
  {
    hide Placed, ListPlaced, TailExtent, Extent, TailStart, DecodeAt;
    if vs != [] {
      assert vs == [vs[0]] + vs[1..];
      var next := TailStart(vs, offset);
      StepPlaced(vs, elem, out, index, offset);
      DecodePlaced(vs[0], elem, out, index, offset);
      DecodePlacedItems(vs[1..], elem, out, index + 32, next);
      StepReadable(vs, elem, out, index, offset);
    }
  }

  /** The first component of a placed list is placed, and so is the rest of the list. */
  lemma StepPlaced(vs: seq<Value>, t: AbiType, out: Bytes, index: nat, offset: nat)
    requires vs != [] && HasType(vs[0], t) && ListPlaced(vs, out, index, offset)
    ensures Placed(vs[0], out, index, offset)
    ensures ListPlaced(vs[1..], out, index + 32, TailStart(vs, offset))
  {
    hide Agrees, Part.Head, Part.Tail;
    var next, p := TailStart(vs, offset), PartOf(vs[0]);
    PartsStep(vs);
    HeadLength(p, offset);
    AgreesSplit(out, index, p.Head(offset), index + 32, Heads(Parts(vs[1..]), next));
    AgreesSplit(out, offset, p.Tail(), next, Tails(Parts(vs[1..])));
  }

  lemma StepReadable(vs: seq<Value>, t: AbiType, out: Bytes, index: nat, offset: nat)
    requires vs != [] && HasType(vs[0], t)
    ensures ListReadable(vs, out, index, offset) <==>
            && Readable(vs[0], out, index, offset)
            && ListReadable(vs[1..], out, index + 32, TailStart(vs, offset))
  {
    ExtentWithinEncoding(vs[0], t);
    var rest := vs[1..];
    assert rest == [] ==> TailExtent(rest) == 0;
    assert |vs| == 1 + |rest|;
  }

  /** The decoder never needs more than the encoding. */
  lemma {:induction false} ExtentWithinEncoding(v: Value, t: AbiType)
    requires HasType(v, t)
    ensures v.Dynamic() ==> 32 <= Extent(v) <= |EncodeValue(v)|
    decreases v, 0
  {
    if v.List? {
      ItemsOneWordHeads(v.items, t.elem);
      HeadsLength(Parts(v.items), 32 * |v.items|);
      TailExtentWithinTails(v.items, t.elem);
    }
  }

  lemma {:induction false} TailExtentWithinTails(vs: seq<Value>, elem: AbiType)
    requires forall i :: 0 <= i < |vs| ==> HasType(vs[i], elem)
    ensures TailExtent(vs) <= |Tails(Parts(vs))|
    decreases vs, 0
  {
    if vs != [] {
      ExtentWithinEncoding(vs[0], elem);
      TailExtentWithinTails(vs[1..], elem);
    }
  }

  lemma {:induction false} DecodePlacedArguments(vs: seq<Value>, ts: seq<AbiType>, out: Bytes, index: nat, offset: nat)
    requires HaveTypes(vs, ts) && ListPlaced(vs, out, index, offset)
    ensures ListReadable(vs, out, index, offset) ==> DecodeArguments(ts, out, index) == Ok(vs)
    ensures !ListReadable(vs, out, index, offset) ==> DecodeArguments(ts, out, index).Err?
    decreases vs
  {
    hide Placed, ListPlaced, TailExtent, Extent, TailStart, DecodeAt;
    if vs != [] {
      assert vs == [vs[0]] + vs[1..];
      var next := TailStart(vs, offset);
      StepPlaced(vs, ts[0], out, index, offset);
      DecodePlaced(vs[0], ts[0], out, index, offset);
      DecodePlacedArguments(vs[1..], ts[1..], out, index + 32, next);
      StepReadable(vs, ts[0], out, index, offset);
    }
  }

  lemma ArgumentsHeadsLength(vs: seq<Value>, ts: seq<AbiType>, offset: nat)
    requires HaveTypes(vs, ts)
    ensures |Heads(Parts(vs), offset)| == 32 * |vs|
    ensures |EncodeList(vs)| == 32 * |vs| + |Tails(Parts(vs))|
  {
    TypedParts(vs, ts);
    HeadsLength(Parts(vs), offset);
    HeadsLength(Parts(vs), 32 * |vs|);
  }

  /**
   Unpacking a buffer that starts like an encoding, however much of it is missing and whatever comes
   after it, gives the encoded values when the buffer reaches the end of their extent and fails otherwise.
   */
  lemma UnpackPlaced(vs: seq<Value>, ts: seq<AbiType>, out: Bytes)
    requires HaveTypes(vs, ts) && |EncodeList(vs)| < UINT256_LIMIT
    requires Agrees(out, 0, EncodeList(vs))
    ensures ListExtent(vs) <= |out| ==> Unpack(ts, out) == Ok(vs)
    ensures ListExtent(vs) > |out| ==> Unpack(ts, out).Err?
  {
    ArgumentsHeadsLength(vs, ts, 32 * |vs|);
    AgreesSplit(out, 0, Heads(Parts(vs), 32 * |vs|), 32 * |vs|, Tails(Parts(vs)));
    DecodePlacedArguments(vs, ts, out, 0, 32 * |vs|);
  }

  /** A prefix of an encoding unpacks to the encoded values or to an error; the extent says which. */
  lemma UnpackTruncated(vs: seq<Value>, ts: seq<AbiType>, k: nat)
    requires HaveTypes(vs, ts) && |EncodeList(vs)| < UINT256_LIMIT
    requires k <= |EncodeList(vs)|
    ensures ListExtent(vs) <= k ==> Unpack(ts, EncodeList(vs)[..k]) == Ok(vs)
    ensures k < ListExtent(vs) ==> Unpack(ts, EncodeList(vs)[..k]).Err?
  {
    var out := EncodeList(vs)[..k];
    AgreesPointwise(out, 0, EncodeList(vs));
    UnpackPlaced(vs, ts, out);
  }

  lemma {:induction false} ListExtentWithinEncoding(vs: seq<Value>, ts: seq<AbiType>)
    requires HaveTypes(vs, ts)
    ensures 32 * |vs| <= ListExtent(vs) <= |EncodeList(vs)|
  {
    ArgumentsHeadsLength(vs, ts, 32 * |vs|);
    ArgumentsTailExtent(vs, ts);
  }

  lemma {:induction false} ArgumentsTailExtent(vs: seq<Value>, ts: seq<AbiType>)
    requires HaveTypes(vs, ts)
    ensures TailExtent(vs) <= |Tails(Parts(vs))|
  {
    if vs != [] {
      ExtentWithinEncoding(vs[0], ts[0]);
      ArgumentsTailExtent(vs[1..], ts[1..]);
    }
  }

  /** Unpacking inverts packing, and ignores bytes after the encoding. */
  lemma UnpackInvertsEncode(vs: seq<Value>, ts: seq<AbiType>, trailing: Bytes)
    requires HaveTypes(vs, ts) && |EncodeList(vs)| < UINT256_LIMIT
    ensures Unpack(ts, EncodeList(vs) + trailing) == Ok(vs)
  {
    var out := EncodeList(vs) + trailing;
    AgreesPointwise(out, 0, EncodeList(vs));
    ListExtentWithinEncoding(vs, ts);
    UnpackPlaced(vs, ts, out);
  }

  /** Any buffer shorter than one word per argument is refused, whatever it holds. */
  lemma {:induction false} UnpackNeedsAllHeads(ts: seq<AbiType>, out: Bytes, index: nat)
    requires ts != [] && |out| < index + 32 * |ts|
    ensures DecodeArguments(ts, out, index).Err?
    decreases ts
  {
    if index + 32 <= |out| {
      UnpackNeedsAllHeads(ts[1..], out, index + 32);
    }
  }

  /** Different argument lists have different encodings. */
  lemma EncodeInjective(vs: seq<Value>, ws: seq<Value>, ts: seq<AbiType>)
    requires HaveTypes(vs, ts) && HaveTypes(ws, ts) && |EncodeList(vs)| < UINT256_LIMIT
    requires EncodeList(vs) == EncodeList(ws)
    ensures vs == ws
  {
    UnpackInvertsEncode(vs, ts, []);
    UnpackInvertsEncode(ws, ts, []);
  }

  //
  // Whatever is unpacked is well typed
  //

  lemma {:induction false} DecodeAtTyped(t: AbiType, out: Bytes, index: nat)
    ensures DecodeAt(t, out, index).Ok? ==> HasType(DecodeAt(t, out, index).value, t)
    decreases t, 0, 0
  {
    if index + 32 <= |out| {
      if t.Array? {
        if DecodeArray(t.elem, out, index).Ok? {
          var (start, length) := LengthPrefix(out, index).value;
          DecodeItemsTyped(t.elem, length, out[start..], 0);
        }
      } else if !t.Dynamic() {
        NumberBound(Slice(out, index, 32));
        Pow256Is256Bits();
      }
    }
  }

  lemma {:induction false} DecodeItemsTyped(elem: AbiType, n: nat, out: Bytes, index: nat)
    ensures DecodeItems(elem, n, out, index).Ok? ==>
              forall v :: v in DecodeItems(elem, n, out, index).value ==> HasType(v, elem)
    decreases elem, 1, n
  {
    if n > 0 {
      DecodeAtTyped(elem, out, index);
      DecodeItemsTyped(elem, n - 1, out, index + 32);
    }
  }

  lemma {:induction false} UnpackTyped(ts: seq<AbiType>, out: Bytes, index: nat)
    ensures DecodeArguments(ts, out, index).Ok? ==> HaveTypes(DecodeArguments(ts, out, index).value, ts)
    decreases ts
  {
    if ts != [] {
      DecodeAtTyped(ts[0], out, index);
      UnpackTyped(ts[1..], out, index + 32);
    }
  }
}
