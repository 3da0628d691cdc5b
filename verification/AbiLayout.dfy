/** How an encoding is laid out: heads, then tails that follow each other and fill the buffer. */
module AbiLayout {
  import opened Bytes
  import opened Abi

  /** Every part that stays in the heads takes exactly one word. */
  ghost predicate OneWordHeads(ps: seq<Part>)
  {
    forall i :: 0 <= i < |ps| && ps[i].Inline? ==> |ps[i].bytes| == 32
  }

  lemma HeadLength(p: Part, offset: nat)
    requires p.Inline? ==> |p.bytes| == 32
    ensures |p.Head(offset)| == 32
  {
  }

  lemma {:induction false} HeadsLength(ps: seq<Part>, offset: nat)
    requires OneWordHeads(ps)
    ensures |Heads(ps, offset)| == 32 * |ps|
  {
    hide Part.Head;
    if ps != [] {
      HeadLength(ps[0], offset);
      HeadsLength(ps[1..], offset + |ps[0].Tail()|);
    }
  }

  lemma ConcatAssociates(a: Bytes, b: Bytes, c: Bytes)
    ensures a + b + c == a + (b + c)
  {
  }

  lemma RestOfConcat<T>(a: seq<T>, b: seq<T>)
    requires a != []
    ensures (a + b)[0] == a[0] && (a + b)[1..] == a[1..] + b
  {
  }

  lemma {:induction false} TailsConcat(a: seq<Part>, b: seq<Part>)
    ensures Tails(a + b) == Tails(a) + Tails(b)
  {
    hide Part.Tail;
    if a == [] {
      assert a + b == b;
    } else {
      RestOfConcat(a, b);
      TailsConcat(a[1..], b);
      ConcatAssociates(a[0].Tail(), Tails(a[1..]), Tails(b));
    }
  }

  lemma {:induction false} HeadsConcat(a: seq<Part>, b: seq<Part>, offset: nat)
    ensures Heads(a + b, offset) == Heads(a, offset) + Heads(b, offset + |Tails(a)|)
  {
    hide Part.Head, Part.Tail;
    if a == [] {
      assert a + b == b;
    } else {
      var next, last := offset + |a[0].Tail()|, offset + |Tails(a)|;
      RestOfConcat(a, b);
      HeadsConcat(a[1..], b, next);
      assert next + |Tails(a[1..])| == last;
      ConcatAssociates(a[0].Head(offset), Heads(a[1..], next), Heads(b, last));
    }
  }

  /** Where the tail of part `i` starts: after all heads and the tails of earlier parts. */
  function TailOffset(ps: seq<Part>, i: nat): nat
    requires i <= |ps|
  {
    32 * |ps| + |Tails(ps[..i])|
  }

  /** The heads and the tails cut around one part. */
  lemma Cut(a: seq<Part>, p: Part, b: seq<Part>, start: nat)
    ensures var at := start + |Tails(a)|;
            Heads(a + ([p] + b), start) == Heads(a, start) + (p.Head(at) + Heads(b, at + |p.Tail()|))
    ensures Tails(a + ([p] + b)) == Tails(a) + (p.Tail() + Tails(b))
  {
    hide Part.Head, Part.Tail;
    var rest := [p] + b;
    assert rest[0] == p && rest[1..] == b;
    TailsConcat(a, rest);
    HeadsConcat(a, rest, start);
  }

  lemma SplitAround<T>(s: seq<T>, i: nat)
    requires i < |s|
    ensures s == s[..i] + ([s[i]] + s[i + 1..])
  {
  }

  lemma SliceWithin(a: Bytes, m: Bytes, b: Bytes, before: Bytes, after: Bytes)
    ensures |before| + |a| + |m| <= |before + (a + (m + b))|
    ensures Slice((a + (m + b)) + after, |a|, |m|) == m
    ensures Slice(before + (a + (m + b)), |before| + |a|, |m|) == m
  {
  }

  lemma HeadAt(ps: seq<Part>, i: nat)
    requires OneWordHeads(ps) && i < |ps|
    ensures 32 * i + 32 <= |Join(ps)|
    ensures Slice(Join(ps), 32 * i, 32) == ps[i].Head(TailOffset(ps, i))
  {
    hide Part.Head, Part.Tail;
    var a, p, b, at := ps[..i], ps[i], ps[i + 1..], TailOffset(ps, i);
    SplitAround(ps, i);
    Cut(a, p, b, 32 * |ps|);
    HeadsLength(a, 32 * |ps|);
    HeadLength(p, at);
    SliceWithin(Heads(a, 32 * |ps|), p.Head(at), Heads(b, at + |p.Tail()|), [], Tails(ps));
  }

  lemma TailAt(ps: seq<Part>, i: nat)
    requires OneWordHeads(ps) && i < |ps|
    ensures TailOffset(ps, i) + |ps[i].Tail()| <= |Join(ps)|
    ensures Slice(Join(ps), TailOffset(ps, i), |ps[i].Tail()|) == ps[i].Tail()
  {
    hide Part.Head, Part.Tail;
    SplitAround(ps, i);
    Cut(ps[..i], ps[i], ps[i + 1..], 32 * |ps|);
    HeadsLength(ps, 32 * |ps|);
    SliceWithin(Tails(ps[..i]), ps[i].Tail(), Tails(ps[i + 1..]), Heads(ps, 32 * |ps|), []);
  }

  lemma TailOffsetStep(ps: seq<Part>, i: nat)
    requires i < |ps|
    ensures TailOffset(ps, i + 1) == TailOffset(ps, i) + |ps[i].Tail()|
  {
    TailsConcat(ps[..i], [ps[i]]);
    assert ps[..i + 1] == ps[..i] + [ps[i]] && [ps[i]][1..] == [];
  }

  lemma TailOffsetGrows(ps: seq<Part>, i: nat, j: nat)
    requires i <= j <= |ps|
    ensures TailOffset(ps, i) <= TailOffset(ps, j)
  {
    TailsConcat(ps[..i], ps[i..j]);
    assert ps[..j] == ps[..i] + ps[i..j];
  }

  /**
   The layout of a list's encoding: head `i` is the static component itself or the offset of its tail,
   the tail is the component's encoding, tails start after the heads, follow each other without overlap
   and end with the buffer.
   */
  lemma PartsLayout(ps: seq<Part>, i: nat, j: nat)
    requires OneWordHeads(ps) && i < j <= |ps|
    ensures var e, at, n := Join(ps), TailOffset(ps, i), |ps[i].Tail()|;
            && 32 * |ps| <= at && at + n <= TailOffset(ps, j) <= |e|
            && Slice(e, 32 * i, 32) == ps[i].Head(at)
            && Slice(e, at, n) == ps[i].Tail()
    ensures TailOffset(ps, 0) == 32 * |ps| && TailOffset(ps, |ps|) == |Join(ps)|
  {
    HeadAt(ps, i);
    TailAt(ps, i);
    TailOffsetStep(ps, i);
    TailOffsetGrows(ps, i + 1, j);
    TailOffsetGrows(ps, j, |ps|);
    HeadsLength(ps, 32 * |ps|);
    assert ps[..|ps|] == ps && ps[..0] == [];
  }

  //
  // The same for values
  //

  lemma {:induction false} PartAt(vs: seq<Value>, i: nat)
    requires i < |vs|
    ensures Parts(vs)[i] == PartOf(vs[i])
  {
    if i > 0 {
      PartAt(vs[1..], i - 1);
    }
  }

  lemma TypedParts(vs: seq<Value>, ts: seq<AbiType>)
    requires HaveTypes(vs, ts)
    ensures OneWordHeads(Parts(vs))
  {
    forall i | 0 <= i < |vs| && Parts(vs)[i].Inline? ensures |Parts(vs)[i].bytes| == 32 {
      PartAt(vs, i);
      assert HasType(vs[i], ts[i]);
    }
  }

  /**
   `e` is laid out as the encoding of `vs`: head `i` is the static component itself or the offset of its tail,
   and the tail lies there whole, after all heads and before the tails of later components.
   */
  ghost predicate LaidOut(e: Bytes, vs: seq<Value>, i: nat, j: nat)
    requires i < j <= |vs|
  {
    var ps := Parts(vs);
    var at := TailOffset(ps, i);
    && TailOffset(ps, 0) == 32 * |vs| <= at <= TailOffset(ps, j) <= TailOffset(ps, |vs|) == |e|
    && 32 * i + 32 <= |e|
    && (!vs[i].Dynamic() ==> Slice(e, 32 * i, 32) == EncodeValue(vs[i]))
    && (vs[i].Dynamic() ==>
          && Slice(e, 32 * i, 32) == Word(at)
          && (|e| < UINT256_LIMIT ==> Number(Slice(e, 32 * i, 32)) == at)
          && at + |EncodeValue(vs[i])| <= TailOffset(ps, j)
          && Slice(e, at, |EncodeValue(vs[i])|) == EncodeValue(vs[i]))
  }

  lemma JoinLaidOut(vs: seq<Value>, i: nat, j: nat)
    requires OneWordHeads(Parts(vs)) && i < j <= |vs|
    ensures LaidOut(Join(Parts(vs)), vs, i, j)
  {
    hide EncodeValue, Join, Word, Number, TailOffset, OneWordHeads, Slice, Parts, UINT256_LIMIT;
    PartsLayout(Parts(vs), i, j);
    HeadAt(Parts(vs), i);
    PartAt(vs, i);
    OffsetReads(TailOffset(Parts(vs), i));
  }

  lemma OffsetReads(at: nat)
    ensures at < UINT256_LIMIT ==> Number(Word(at)) == at
  {
    if at < UINT256_LIMIT {
      NumberOfWord(at);
    }
  }

  /** An argument list's encoding is laid out as the specification says, argument by argument. */
  lemma Layout(vs: seq<Value>, ts: seq<AbiType>, i: nat, j: nat)
    requires HaveTypes(vs, ts) && i < j <= |vs|
    ensures LaidOut(EncodeList(vs), vs, i, j)
  {
    TypedParts(vs, ts);
    JoinLaidOut(vs, i, j);
  }

  /** An array is its length word and then its elements, laid out in the same way. */
  lemma ArrayLayout(items: seq<Value>, elem: AbiType, i: nat, j: nat)
    requires HasType(List(items), Array(elem)) && i < j <= |items|
    ensures var e := EncodeValue(List(items));
            && |e| >= 32 && LaidOut(e[32..], items, i, j)
            && (|e| < UINT256_LIMIT ==> Number(e[..32]) == |items|)
  {
    var types := seq(|items|, _ => elem);
    TypedParts(items, types);
    JoinLaidOut(items, i, j);
    var e := EncodeValue(List(items));
    assert e[32..] == Join(Parts(items)) && e[..32] == Word(|items|);
    if |e| < UINT256_LIMIT {
      NumberOfWord(|items|);
    }
  }

  /** The content of a byte string or a string, in its padded encoding. */
  lemma BytesPadding(b: Bytes)
    ensures var e := EncodeBytes(b);
            && Slice(e, 32, |b|) == b
            && forall k :: 32 + |b| <= k < |e| ==> e[k] == 0
  {
  }

  /** Byte `k` of a value's encoding is padding: in front of an address, behind a content, or within an element. */
  ghost predicate IsPadding(v: Value, k: nat)
    decreases v, 1
  {
    match v
    case Addr(_) => k < 12
    case Blob(b) => 32 + |b| <= k
    case Text(s) => 32 + |s| <= k
    case List(items) => k >= 32 && IsListPadding(items, k - 32)
    case _ => false
  }

  /** Byte `k` of a list's encoding is padding of the component whose word or tail it lies in. */
  ghost predicate IsListPadding(vs: seq<Value>, k: nat)
    decreases vs, 0
  {
    exists i :: 0 <= i < |vs| && Start(vs, i) <= k < Start(vs, i) + |EncodeValue(vs[i])|
        && IsPadding(vs[i], k - Start(vs, i))
  }

  /** Where the encoding of component `i` is within the encoding of its list. */
  function Start(vs: seq<Value>, i: nat): nat
    requires i < |vs|
  {
    if vs[i].Dynamic() then TailOffset(Parts(vs), i) else 32 * i
  }

  lemma ComponentAt(vs: seq<Value>, ts: seq<AbiType>, i: nat)
    requires HaveTypes(vs, ts) && i < |vs|
    ensures Start(vs, i) + |EncodeValue(vs[i])| <= |EncodeList(vs)|
    ensures Slice(EncodeList(vs), Start(vs, i), |EncodeValue(vs[i])|) == EncodeValue(vs[i])
  {
    hide EncodeList, TailOffset, Parts;
    StaticWord(vs[i], ts[i]);
    Layout(vs, ts, i, i + 1);
  }

  lemma StaticWord(v: Value, t: AbiType)
    requires HasType(v, t)
    ensures !v.Dynamic() ==> |EncodeValue(v)| == 32
  {
  }

  lemma {:induction false} ValuePaddingIsZero(v: Value, t: AbiType, k: nat)
    requires HasType(v, t) && k < |EncodeValue(v)| && IsPadding(v, k)
    ensures EncodeValue(v)[k] == 0
    decreases v, 1
  {
    hide EncodeBytes, Join, Word;
    match v
    case Addr(_) =>
    case Blob(b) => BytesPadding(b);
    case Text(s) => BytesPadding(s);
    case List(items) =>
      PaddingIsZero(items, seq(|items|, _ => t.elem), k - 32);
      assert EncodeValue(v)[k] == EncodeList(items)[k - 32];
  }

  /** In every packed argument list, arrays at any depth included, all padding is zero. */
  lemma {:induction false} PaddingIsZero(vs: seq<Value>, ts: seq<AbiType>, k: nat)
    requires HaveTypes(vs, ts) && k < |EncodeList(vs)| && IsListPadding(vs, k)
    ensures EncodeList(vs)[k] == 0
    decreases vs, 0
  {
    hide EncodeList, EncodeValue, Start;
    var i :| 0 <= i < |vs| && Start(vs, i) <= k < Start(vs, i) + |EncodeValue(vs[i])|
        && IsPadding(vs[i], k - Start(vs, i));
    ValuePaddingIsZero(vs[i], ts[i], k - Start(vs, i));
    ComponentAt(vs, ts, i);
    assert Slice(EncodeList(vs), Start(vs, i), |EncodeValue(vs[i])|)[k - Start(vs, i)] == EncodeList(vs)[k];
  }

  //
  // Sizes
  //

  function Size(v: Value): nat
    decreases v, 0
  {
    match v
    case Blob(b) => 32 + |b| + PadLength(|b|)
    case Text(s) => 32 + |s| + PadLength(|s|)
    case List(items) => 32 + ListSize(items)
    case _ => 32
  }

  function ListSize(vs: seq<Value>): nat
    decreases vs, 1
  {
    if vs == [] then 0
    else (if vs[0].Dynamic() then 32 else 0) + Size(vs[0]) + ListSize(vs[1..])
  }

  lemma WholeWords(a: nat, b: nat)
    requires a % 32 == 0 && b % 32 == 0
    ensures (a + b) % 32 == 0
  {
  }

  lemma {:induction false} SizeIsWhole(v: Value)
    ensures Size(v) % 32 == 0
    decreases v, 0
  {
    match v
    case Blob(b) => WholeWords(32, |b| + PadLength(|b|));
    case Text(s) => WholeWords(32, |s| + PadLength(|s|));
    case List(items) =>
      ListSizeIsWhole(items);
      WholeWords(32, ListSize(items));
    case _ =>
  }

  /** Encodings are whole words. */
  lemma {:induction false} ListSizeIsWhole(vs: seq<Value>)
    ensures ListSize(vs) % 32 == 0
    decreases vs, 0
  {
    if vs != [] {
      SizeIsWhole(vs[0]);
      ListSizeIsWhole(vs[1..]);
      WholeWords(Size(vs[0]), ListSize(vs[1..]));
      WholeWords(32, Size(vs[0]) + ListSize(vs[1..]));
    }
  }

  lemma {:induction false} SizeOfValue(v: Value, t: AbiType)
    requires HasType(v, t)
    ensures |EncodeValue(v)| == Size(v)
    decreases v, 0
  {
    if v.List? {
      SizeOfItems(v.items, t.elem);
      SizeOfParts(v.items);
    }
  }

  /** The parts of array elements have the sizes of the elements. */
  lemma {:induction false} SizeOfItems(vs: seq<Value>, elem: AbiType)
    requires forall i :: 0 <= i < |vs| ==> HasType(vs[i], elem)
    ensures forall i :: 0 <= i < |vs| ==> |EncodeValue(vs[i])| == Size(vs[i])
    decreases vs, 0
  {
    forall i | 0 <= i < |vs| ensures |EncodeValue(vs[i])| == Size(vs[i]) {
      SizeOfValue(vs[i], elem);
    }
  }

  lemma {:induction false} SizeOfParts(vs: seq<Value>)
    requires forall i :: 0 <= i < |vs| ==> |EncodeValue(vs[i])| == Size(vs[i])
    ensures |Join(Parts(vs))| == ListSize(vs)
  {
    StaticSizes(vs);
    HeadsLength(Parts(vs), 32 * |vs|);
    if vs != [] {
      SizeOfParts(vs[1..]);
      HeadsLength(Parts(vs[1..]), 32 * |vs[1..]|);
      assert Parts(vs)[1..] == Parts(vs[1..]);
    }
  }

  lemma StaticSizes(vs: seq<Value>)
    requires forall i :: 0 <= i < |vs| ==> |EncodeValue(vs[i])| == Size(vs[i])
    ensures OneWordHeads(Parts(vs)) && OneWordHeads(Parts(vs)[..]) && (vs != [] ==> OneWordHeads(Parts(vs[1..])))
  {
    forall i | 0 <= i < |vs| && Parts(vs)[i].Inline? ensures |Parts(vs)[i].bytes| == 32 {
      PartAt(vs, i);
    }
    forall i | 0 <= i < |vs| - 1 && Parts(vs[1..])[i].Inline? ensures |Parts(vs[1..])[i].bytes| == 32 {
      PartAt(vs[1..], i);
    }
  }

  /** An encoding's length is a closed form in the lengths of its strings and lists. */
  lemma SizeOfArguments(vs: seq<Value>, ts: seq<AbiType>)
    requires HaveTypes(vs, ts)
    ensures |EncodeList(vs)| == ListSize(vs)
  {
    forall i | 0 <= i < |vs| ensures |EncodeValue(vs[i])| == Size(vs[i]) {
      SizeOfValue(vs[i], ts[i]);
    }
    SizeOfParts(vs);
  }
}
