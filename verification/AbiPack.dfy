/**
 Packing as it runs: one pass over the components that appends heads to one buffer and tails to
 another, keeping the offset of the next tail.
 */
module AbiPack {
  import opened Bytes
  import opened Abi
  import opened AbiLayout

  lemma {:induction false} PartsAppend(vs: seq<Value>, v: Value)
    ensures Parts(vs + [v]) == Parts(vs) + [PartOf(v)]
  {
    if vs == [] {
      assert vs + [v] == [v] && [v][1..] == [];
    } else {
      assert (vs + [v])[0] == vs[0] && (vs + [v])[1..] == vs[1..] + [v];
      PartsAppend(vs[1..], v);
    }
  }

  /** Appending one component appends its head and its tail. */
  lemma JoinStep(vs: seq<Value>, i: nat, start: nat)
    requires i < |vs|
    ensures var heads, tails := Heads(Parts(vs[..i]), start), Tails(Parts(vs[..i]));
            && Heads(Parts(vs[..i + 1]), start) ==
               heads + (if vs[i].Dynamic() then Word(start + |tails|) else EncodeValue(vs[i]))
            && Tails(Parts(vs[..i + 1])) == if vs[i].Dynamic() then tails + EncodeValue(vs[i]) else tails
  {
    hide Heads, Tails, Parts, EncodeValue;
    var ps, p := Parts(vs[..i]), PartOf(vs[i]);
    assert Parts(vs[..i + 1]) == ps + [p] by {
      assert vs[..i + 1] == vs[..i] + [vs[i]];
      PartsAppend(vs[..i], vs[i]);
    }
    HeadsConcat(ps, [p], start);
    TailsConcat(ps, [p]);
    OnePart(p, start + |Tails(ps)|);
  }

  lemma OnePart(p: Part, start: nat)
    ensures Heads([p], start) == p.Head(start) && Tails([p]) == p.Tail()
  {
    assert [p][1..] == [];
  }

  lemma EmptyJoin(start: nat)
    ensures Heads(Parts([]), start) == [] == Tails(Parts([]))
  {
  }

  method PackValue(v: Value) returns (e: Bytes)
    ensures e == EncodeValue(v)
    decreases v, 0
  {
    match v
    case Num(n) => e := Word(n);
    case Flag(b) => e := Word(if b then 1 else 0);
    case Addr(a) => e := Zeros(if |a| <= 32 then 32 - |a| else 0) + a;
    case Fixed(f) => e := f;
    case Blob(b) => e := EncodeBytes(b);
    case Text(s) => e := EncodeBytes(s);
    case List(items) =>
      var joined := PackList(items);
      e := Word(|items|) + joined;
  }

  method PackList(vs: seq<Value>) returns (joined: Bytes)
    ensures joined == EncodeList(vs)
    decreases vs, 1
  {
    hide Heads, Tails, Parts, EncodeValue;
    assert Heads(Parts([]), 32 * |vs|) == [] == Tails(Parts([])) by { EmptyJoin(32 * |vs|); }
    var start := 32 * |vs|;
    var heads, tails, offset := [], [], start;
    for i := 0 to |vs|
      invariant heads == Heads(Parts(vs[..i]), start)
      invariant tails == Tails(Parts(vs[..i]))
      invariant offset == start + |tails|
    {
      var packed := PackValue(vs[i]);
      JoinStep(vs, i, start);
      if vs[i].Dynamic() {
        heads := heads + Word(offset);
        offset := offset + |packed|;
        tails := tails + packed;
      } else {
        heads := heads + packed;
      }
    }
    assert vs[..|vs|] == vs;
    joined := heads + tails;
  }
}
