/** Hexadecimal text: `encoding/hex` on byte strings. */
module Hex {
  import opened Bytes

  predicate IsHexChar(c: byte)
  {
    (48 <= c <= 57) || (97 <= c <= 102) || (65 <= c <= 70)
  }

  predicate AllHex(s: Bytes)
  {
    forall i :: 0 <= i < |s| ==> IsHexChar(s[i])
  }

  function DigitChar(d: nat): (c: byte)
    requires d < 16
    ensures IsHexChar(c) && DigitValue(c) == d
  {
    if d < 10 then 48 + d else 87 + d
  }

  function DigitValue(c: byte): (d: nat)
    requires IsHexChar(c)
    ensures d < 16
  {
    if c <= 57 then c - 48 else if c <= 70 then c - 55 else c - 87
  }

  /** Lower-case digits, two a byte. */
  function HexOf(b: Bytes): (s: Bytes)
    ensures |s| == 2 * |b|
    ensures AllHex(s)
  {
    if b == [] then [] else [DigitChar(b[0] / 16), DigitChar(b[0] % 16)] + HexOf(b[1..])
  }

  /** `hex.DecodeString`: an even number of digits of either case. */
  function HexDecode(s: Bytes): (r: Option<Bytes>)
    ensures r.Some? <==> |s| % 2 == 0 && AllHex(s)
    ensures r.Some? ==> |s| == 2 * |r.value|
  {
    if s == [] then Some([])
    else if |s| == 1 || !IsHexChar(s[0]) || !IsHexChar(s[1]) then None
    else
      assert s[2..] == s[2..] && forall i :: 0 <= i < |s| - 2 ==> s[2..][i] == s[i + 2];
      match HexDecode(s[2..])
      case None =>
        assert !AllHex(s[2..]) || |s[2..]| % 2 != 0;
        None
      case Some(rest) => Some([16 * DigitValue(s[0]) + DigitValue(s[1])] + rest)
  }

  /** `c` in lower case, when it is a hex digit. */
  function LowerChar(c: byte): byte
  {
    if 65 <= c <= 70 then c + 32 else c
  }

  function Lower(s: Bytes): (r: Bytes)
    ensures |r| == |s|
  {
    seq(|s|, i requires 0 <= i < |s| => LowerChar(s[i]))
  }

  lemma ByteDigits(n: byte)
    ensures 0 <= n / 16 < 16 && 0 <= n % 16 < 16
    ensures 16 * DigitValue(DigitChar(n / 16)) + DigitValue(DigitChar(n % 16)) == n
  {
    hide DigitChar, DigitValue, IsHexChar;
    assert 16 * (n / 16) + n % 16 == n;
  }

  lemma {:induction false} DecodeInvertsHexOf(b: Bytes)
    ensures HexDecode(HexOf(b)) == Some(b)
  {
    hide DigitChar, DigitValue, IsHexChar;
    if b != [] {
      var s, rest := HexOf(b), b[1..];
      DecodeInvertsHexOf(rest);
      ByteDigits(b[0]);
      assert s == [DigitChar(b[0] / 16), DigitChar(b[0] % 16)] + HexOf(rest);
      assert s[2..] == HexOf(rest);
      assert HexDecode(s) == Some([b[0]] + rest);
      assert [b[0]] + rest == b;
    } else {
      assert HexOf(b) == [];
    }
  }

  lemma {:induction false} HexOfInvertsDecode(s: Bytes)
    requires HexDecode(s).Some?
    ensures HexOf(HexDecode(s).value) == Lower(s)
  {
    if s != [] {
      var rest := HexDecode(s[2..]).value;
      HexOfInvertsDecode(s[2..]);
      PairInverts(s[0], s[1]);
      var first := 16 * DigitValue(s[0]) + DigitValue(s[1]);
      assert HexDecode(s).value == [first] + rest;
      assert Lower(s) == [LowerChar(s[0]), LowerChar(s[1])] + Lower(s[2..]);
    }
  }

  lemma PairInverts(a: byte, b: byte)
    requires IsHexChar(a) && IsHexChar(b)
    ensures var n := 16 * DigitValue(a) + DigitValue(b);
            n < 256 && DigitChar(n / 16) == LowerChar(a) && DigitChar(n % 16) == LowerChar(b)
  {
  }

  /** The letter case of the digits makes no difference. */
  lemma {:induction false} DecodeIgnoresCase(s: Bytes)
    ensures HexDecode(Lower(s)) == HexDecode(s)
  {
    if |s| >= 2 {
      DecodeIgnoresCase(s[2..]);
      assert Lower(s)[2..] == Lower(s[2..]);
    }
  }

  const HEX_DIGITS := "0123456789abcdef"

  const CAPITAL_DIGITS := "ABCDEF"

  /** The digits and their values: those of both cases are read, those in lower case are written. */
  lemma HexAlphabet(c: byte, d: nat)
    requires d < 16
    ensures DigitChar(d) == HEX_DIGITS[d] as int
    ensures IsHexChar(c) <==> c as char in HEX_DIGITS || c as char in CAPITAL_DIGITS
    ensures IsHexChar(c) ==>
              (DigitValue(c) == d <==> c as char == HEX_DIGITS[d] || (d >= 10 && c as char == CAPITAL_DIGITS[d - 10]))
  {
  }
}
