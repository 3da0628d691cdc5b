/** What the words of an encoding hold, and which words and contents the decoder accepts. */
module AbiWords {
  import opened Bytes
  import opened Abi
  import opened AbiLayout

  /** The word of a static value, as the specification describes it. */
  predicate IsWordOf(v: Value, word: Word32)
  {
    match v
    case Num(n) => Number(word) == n
    case Flag(b) => Number(word) == if b then 1 else 0
    case Addr(a) => word[12..] == a && forall i :: 0 <= i < 12 ==> word[i] == 0
    case Fixed(f) => word == f
    case _ => false
  }

  lemma OneAndZero()
    ensures Number(Word(0)) == 0 && Number(Word(1)) == 1
  {
    NumberOfWord(0);
    NumberOfWord(1);
  }

  /** A static value is encoded to its word, and to no other. */
  lemma WordOfValue(v: Value, t: AbiType, word: Word32)
    requires HasType(v, t) && !t.Dynamic()
    ensures EncodeValue(v) == word <==> IsWordOf(v, word)
  {
    hide Number, Word;
    match v
    case Num(n) =>
      NumberOfWord(n);
      WordOfNumber(word);
    case Flag(b) =>
      OneAndZero();
      WordOfNumber(word);
    case Addr(a) =>
      assert word == word[..12] + word[12..];
      if IsWordOf(v, word) {
        assert word[..12] == Zeros(12);
      }
    case Fixed(f) =>
  }

  lemma WordOfNumber(word: Word32)
    ensures Word(Number(word)) == word
  {
    BigEndianOfNumber(word);
  }

  /**
   A word is accepted for a type exactly when it is the word of a value of that type, the one decoded; of an address
   only the last 20 bytes are looked at. What is refused is a uint8 above 255 or a bool other than 0 and 1.
   */
  lemma WordAccepted(t: AbiType, word: Word32)
    requires !t.Dynamic()
    ensures var r := DecodeWord(t, word);
            && (t.Address? ==> r == Ok(Addr(word[12..])))
            && (!t.Address? ==> forall v :: HasType(v, t) ==> (r == Ok(v) <==> IsWordOf(v, word)))
            && (r.Ok? ==> HasType(r.value, t))
            && (r == Err(BadUint8) <==> t.Uint8? && Number(word) >= 256)
            && (r == Err(BadBool) <==> t.Bool? && Number(word) >= 2)
            && r != Err(LengthInsufficient)
  {
    hide Number;
    NumberBound(word);
    Pow256Is256Bits();
  }

  /** A byte string or string is its length in a word, its content, and the fewest zero bytes that fill whole words. */
  lemma BytesLayout(b: Bytes)
    requires |b| < UINT256_LIMIT
    ensures var e := EncodeBytes(b);
            && |e| % 32 == 0 && 32 + |b| <= |e| < 64 + |b|
            && Number(Slice(e, 0, 32)) == |b| && Slice(e, 32, |b|) == b
            && forall k :: 32 + |b| <= k < |e| ==> e[k] == 0
  {
    hide Number, Word;
    NumberOfWord(|b|);
    BytesPadding(b);
    var e := EncodeBytes(b);
    assert Slice(e, 0, 32) == Word(|b|);
    WholeWords(32, |b| + PadLength(|b|));
  }
}
