/**
 Byte strings, the representation of every Go `string` and `[]byte` in this project, with the
 big-endian words that the Contract ABI and EIP-712 are built from.
 */
module Bytes {
  type byte = x: int | 0 <= x < 256

  type Bytes = seq<byte>

  /** A 32-byte word. */
  type Word32 = w: Bytes | |w| == 32 witness Zeros(32)

  /** A 20-byte account address. */
  type Address20 = a: Bytes | |a| == 20 witness Zeros(20)

  /** The outcome of a Go function that returns a value and an error. */
  datatype Result<+T, +E> = Ok(value: T) | Err(error: E) {
    predicate IsFailure() { Err? }

    function PropagateFailure<U>(): Result<U, E>
      requires Err?
    {
      Err(error)
    }

    function Extract(): T
      requires Ok?
    {
      value
    }
  }

  datatype Option<+T> = None | Some(value: T)

  /** One more than the largest uint256. */
  const UINT256_LIMIT: nat := 0x1_0000000000000000_0000000000000000_0000000000000000_0000000000000000

  function Zeros(n: nat): (z: Bytes)
    ensures |z| == n
    ensures forall i :: 0 <= i < n ==> z[i] == 0
  {
    seq(n, _ => 0)
  }

  /** The bytes of a literal whose characters are all below 256. */
  function Ascii(s: string): (b: Bytes)
    requires forall i :: 0 <= i < |s| ==> s[i] < 256 as char
    ensures |b| == |s|
    ensures forall i :: 0 <= i < |s| ==> b[i] == s[i] as int
  {
    seq(|s|, i requires 0 <= i < |s| => s[i] as int as byte)
  }

  /** Byte `k` of `n`, counted from the least significant. */
  function Digit(n: nat, k: nat): byte
    decreases k, n
  {
    if k == 0 then n % 256 else Digit(n / 256, k - 1)
  }

  /** The `len` low-order bytes of `n`, most significant first. */
  function BigEndian(n: nat, len: nat): (b: Bytes)
    ensures |b| == len
  {
    seq(len, i requires 0 <= i < len => Digit(n, len - 1 - i))
  }

  /** The number that big-endian bytes denote. */
  function Number(b: Bytes): nat
  {
    if b == [] then 0 else Number(b[..|b| - 1]) * 256 + b[|b| - 1]
  }

  function Pow256(k: nat): (p: nat)
    ensures p > 0
  {
    if k == 0 then 1 else 256 * Pow256(k - 1)
  }

  /** The 32-byte word holding `n` modulo 2^256. */
  function Word(n: nat): (w: Word32)
  {
    BigEndian(n, 32)
  }

  /** The bytes of `b` from `pos`, `len` of them. */
  function Slice(b: Bytes, pos: nat, len: nat): (s: Bytes)
    requires pos + len <= |b|
    ensures |s| == len
  {
    b[pos..pos + len]
  }

  lemma BigEndianStep(n: nat, len: nat)
    requires len > 0
    ensures BigEndian(n, len) == BigEndian(n / 256, len - 1) + [n % 256]
  {
    forall i | 0 <= i < len ensures BigEndian(n, len)[i] == (BigEndian(n / 256, len - 1) + [n % 256])[i] {
      assert i < len - 1 ==> Digit(n, len - 1 - i) == Digit(n / 256, len - 2 - i);
    }
  }

  /** The most significant byte comes first. */
  lemma {:induction false} FirstByteCounts(a: byte, b: Bytes)
    ensures Number([a] + b) == a * Pow256(|b|) + Number(b)
  {
    if b == [] {
      assert [a] + b == [a] && [a][..0] == [];
    } else {
      var s, rest := [a] + b, b[..|b| - 1];
      assert s[..|s| - 1] == [a] + rest;
      FirstByteCounts(a, rest);
      assert 256 * (a * Pow256(|rest|)) == a * (256 * Pow256(|rest|));
    }
  }

  lemma {:induction false} NumberOfBigEndian(n: nat, len: nat)
    requires n < Pow256(len)
    ensures Number(BigEndian(n, len)) == n
  {
    if len > 0 {
      assert n / 256 < Pow256(len - 1);
      NumberOfBigEndian(n / 256, len - 1);
      BigEndianStep(n, len);
      assert BigEndian(n, len)[..len - 1] == BigEndian(n / 256, len - 1);
    }
  }

  lemma {:induction false} NumberBound(b: Bytes)
    ensures Number(b) < Pow256(|b|)
  {
    if b != [] {
      NumberBound(b[..|b| - 1]);
    }
  }

  lemma {:induction false} BigEndianOfNumber(b: Bytes)
    ensures BigEndian(Number(b), |b|) == b
  {
    if b != [] {
      var front, last := b[..|b| - 1], b[|b| - 1];
      assert Number(b) / 256 == Number(front) && Number(b) % 256 == last;
      BigEndianOfNumber(front);
      BigEndianStep(Number(b), |b|);
    }
  }

  lemma Pow256Is256Bits()
    ensures Pow256(32) == UINT256_LIMIT
  {
    assert Pow256(8) == 0x1_0000000000000000;
    assert Pow256(16) == 0x1_0000000000000000_0000000000000000;
    assert Pow256(24) == 0x1_0000000000000000_0000000000000000_0000000000000000;
  }

  /** A word written and read back is the number, for every number a word can hold. */
  lemma NumberOfWord(n: nat)
    requires n < UINT256_LIMIT
    ensures Number(Word(n)) == n
  {
    Pow256Is256Bits();
    NumberOfBigEndian(n, 32);
  }

  lemma WordInjective(m: nat, n: nat)
    requires m < UINT256_LIMIT && n < UINT256_LIMIT
    requires Word(m) == Word(n)
    ensures m == n
  {
    NumberOfWord(m);
    NumberOfWord(n);
  }
}
