/** What extraction finds in any message at all. */
module RevertExtraction {
  import opened Bytes
  import opened GoText
  import opened Hex
  import opened Abi
  import opened ErrorTable
  import opened RevertParser

  /** A byte of white space, alone or within a wide character. */
  predicate SpaceByte(c: byte)
  {
    AsciiSpace(c) || c >= 128
  }

  lemma {:induction false} TrimLeftDrops(s: Bytes, j: nat)
    requires j + |TrimLeft(s)| < |s|
    ensures SpaceByte(s[j])
    decreases |s|
  {
    var n := LeadingSpace(s);
    if j >= n {
      TrimLeftDrops(s[n..], j - n);
    }
  }

  lemma {:induction false} TrimRightDrops(s: Bytes, j: nat)
    requires |TrimRight(s)| <= j < |s|
    ensures SpaceByte(s[j])
    decreases |s|
  {
    var n := TrailingSpace(s);
    if j < |s| - n {
      TrimRightDrops(s[..|s| - n], j);
    }
  }

  /** `r` is the piece of `s` at `i`, and where it ends a run of hex digits ends. */
  predicate PieceAt(s: Bytes, r: Bytes, i: nat)
  {
    OccursAt(s, r, i) && (i + |r| < |s| ==> !IsHexChar(s[i + |r|]))
  }

  lemma PieceOfSuffix(s: Bytes, k: nat, r: Bytes, i: nat)
    requires k <= |s| && PieceAt(s[k..], r, i)
    ensures PieceAt(s, r, k + i)
  {
    assert s[k..][i..i + |r|] == s[k + i..k + i + |r|];
  }

  lemma PieceOfTrimmed(s: Bytes, r: Bytes, i: nat) returns (k: nat)
    requires PieceAt(TrimSpace(s), r, i)
    ensures PieceAt(s, r, k)
  {
    hide TrimLeft, TrimRight;
    var t := TrimLeft(s);
    var u := TrimRight(t);
    TrimRightIsPrefix(t);
    TrimLeftIsSuffix(s);
    assert t[i..i + |r|] == u[i..i + |r|];
    if |u| == i + |r| < |t| {
      TrimRightDrops(t, i + |r|);
    }
    k := |s| - |t| + i;
    PieceOfSuffix(s, |s| - |t|, r, i);
  }

  lemma FirstHexPiece(t: Bytes)
    requires HasPrefix(t, HEX_PREFIX)
    ensures PieceAt(t, FirstHexString(t), 0)
    ensures HasPrefix(FirstHexString(t), HEX_PREFIX) && AllHex(FirstHexString(t)[2..])
  {
    var r := FirstHexString(t);
    assert t[0..0 + |r|] == r;
    assert r[..2] == t[..2];
  }

  /** What a marker pattern extracts is a piece of the message. */
  lemma MarkerPiece(msg: Bytes, marker: Bytes, trim: bool) returns (i: nat)
    requires Applies(msg, marker, trim)
    ensures var r := FirstHexString(After(msg, marker, trim).value);
            PieceAt(msg, r, i) && HasPrefix(r, HEX_PREFIX) && AllHex(r[2..])
  {
    hide TrimSpace, FirstHexString, PieceAt;
    var at := Index(msg, marker).value + |marker|;
    var remaining := msg[at..];
    var t := After(msg, marker, trim).value;
    FirstHexPiece(t);
    var r := FirstHexString(t);
    var k := 0;
    if trim {
      k := PieceOfTrimmed(remaining, r, 0);
    }
    PieceOfSuffix(msg, at, r, k);
    i := at + k;
  }

  lemma HexDataPiece(msg: Bytes) returns (i: nat)
    requires !HasPrefix(msg, HEX_PREFIX) && Contains(msg, HEX_PREFIX)
    ensures var r := HexDataIn(msg); PieceAt(msg, r, i) && HasPrefix(r, HEX_PREFIX) && AllHex(r[2..])
  {
    hide After, Applies, FirstHexString, PieceAt, Index, Ascii;
    if Applies(msg, EXECUTION_REVERTED, true) {
      i := MarkerPiece(msg, EXECUTION_REVERTED, true);
    } else if Applies(msg, VM_ERROR, false) {
      i := MarkerPiece(msg, VM_ERROR, false);
    } else if Applies(msg, REVERT, true) {
      i := MarkerPiece(msg, REVERT, true);
    } else {
      i := Index(msg, HEX_PREFIX).value;
      IndexIsFirst(msg, HEX_PREFIX);
      assert HasPrefix(msg[i..], HEX_PREFIX) by {
        assert msg[i..][..2] == msg[i..i + 2];
      }
      FirstHexPiece(msg[i..]);
      PieceOfSuffix(msg, i, FirstHexString(msg[i..]), 0);
    }
  }

  lemma PrefixIsContained(s: Bytes)
    requires HasPrefix(s, HEX_PREFIX)
    ensures Contains(s, HEX_PREFIX)
  {
  }

  /** A marker pattern finds nothing in a message without "0x". */
  lemma NothingToFind(msg: Bytes, marker: Bytes, trim: bool)
    requires !Contains(msg, HEX_PREFIX)
    ensures !Applies(msg, marker, trim)
  {
    hide TrimSpace, FirstHexString, Index;
    if Applies(msg, marker, trim) {
      var i := MarkerPiece(msg, marker, trim);
      var r := FirstHexString(After(msg, marker, trim).value);
      assert msg[i..i + 2] == r[..2] by {
        assert msg[i..i + |r|][..2] == msg[i..i + 2];
      }
      assert OccursAt(msg, HEX_PREFIX, i);
      IndexIsFirst(msg, HEX_PREFIX);
    }
  }

  lemma HexPrefixAt(s: Bytes, i: nat)
    ensures OccursAt(s, HEX_PREFIX, i) <==> i + 2 <= |s| && s[i] == 48 && s[i + 1] == 120
  {
    if i + 2 <= |s| {
      OccursPointwise(s, HEX_PREFIX, i);
      assert HEX_PREFIX[0] == 48 && HEX_PREFIX[1] == 120;
      assert s[i + 0] == s[i];
    }
  }

  /** Where trimmed text lies in the text. */
  lemma TrimmedAt(s: Bytes) returns (cut: nat)
    ensures var u := TrimSpace(s);
            && cut + |u| <= |s|
            && (forall j :: 0 <= j < |u| ==> u[j] == s[cut + j])
            && (forall i :: 0 <= i < cut || cut + |u| <= i < |s| ==> SpaceByte(s[i]))
  {
    hide TrimLeft, TrimRight, SpaceByte;
    var t := TrimLeft(s);
    var u := TrimRight(t);
    TrimLeftIsSuffix(s);
    TrimRightIsPrefix(t);
    cut := |s| - |t|;
    forall i | 0 <= i < cut || cut + |u| <= i < |s| ensures SpaceByte(s[i]) {
      if i < cut {
        TrimLeftDrops(s, i);
      } else {
        TrimRightDrops(t, i - cut);
        assert t[i - cut] == s[i];
      }
    }
  }

  /** Trimming neither removes nor makes an occurrence of "0x". */
  lemma TrimKeepsHex(s: Bytes)
    ensures Contains(s, HEX_PREFIX) <==> Contains(TrimSpace(s), HEX_PREFIX)
  {
    hide TrimSpace, Index, OccursAt;
    var u := TrimSpace(s);
    var cut := TrimmedAt(s);
    IndexIsFirst(s, HEX_PREFIX);
    IndexIsFirst(u, HEX_PREFIX);
    if Contains(s, HEX_PREFIX) {
      var i := Index(s, HEX_PREFIX).value;
      HexPrefixAt(s, i);
      assert !SpaceByte(s[i]) && !SpaceByte(s[i + 1]);
      var j := i - cut;
      assert u[j] == s[cut + j] && u[j + 1] == s[cut + (j + 1)];
      HexPrefixAt(u, j);
    }
    if Contains(u, HEX_PREFIX) {
      var j := Index(u, HEX_PREFIX).value;
      HexPrefixAt(u, j);
      assert u[j] == s[cut + j] && u[j + 1] == s[cut + (j + 1)];
      HexPrefixAt(s, cut + j);
    }
  }

  /**
   Extraction finds nothing exactly in messages without "0x".  What it finds is a piece of the message that
   starts with "0x": all of the trimmed message when that starts so, and otherwise all the hex digits there.
   */
  lemma ExtractionCharacterised(errMsg: Bytes) returns (i: nat)
    ensures HexData(errMsg) == [] <==> !Contains(errMsg, HEX_PREFIX)
    ensures Contains(errMsg, HEX_PREFIX) ==>
            OccursAt(errMsg, HexData(errMsg), i) && HasPrefix(HexData(errMsg), HEX_PREFIX)
    ensures HasPrefix(TrimSpace(errMsg), HEX_PREFIX) ==> HexData(errMsg) == TrimSpace(errMsg)
    ensures Contains(errMsg, HEX_PREFIX) && !HasPrefix(TrimSpace(errMsg), HEX_PREFIX) ==>
              PieceAt(errMsg, HexData(errMsg), i) && AllHex(HexData(errMsg)[2..])
  {
    hide TrimSpace, Index, After, Applies, FirstHexString, Ascii;
    var msg := TrimSpace(errMsg);
    TrimKeepsHex(errMsg);
    if HasPrefix(msg, HEX_PREFIX) {
      PrefixIsContained(msg);
      assert OccursAt(msg, msg, 0);
      i := PieceOfTrimmed(errMsg, msg, 0);
    } else if Contains(msg, HEX_PREFIX) {
      var k := HexDataPiece(msg);
      i := PieceOfTrimmed(errMsg, HexDataIn(msg), k);
    } else {
      NothingToFind(msg, EXECUTION_REVERTED, true);
      NothingToFind(msg, VM_ERROR, false);
      NothingToFind(msg, REVERT, true);
      i := 0;
    }
  }

  /** A message without "0x", and no other, is reported as one without revert data. */
  lemma NoDataReported(errMsg: Bytes)
    ensures ParsedFromError(errMsg) == Failed(NoRevertData) <==> !Contains(errMsg, HEX_PREFIX)
    ensures Contains(errMsg, HEX_PREFIX) ==> ParsedFromError(errMsg) == ParseRevert(HexData(errMsg))
  {
    hide HexData, Lookup, SelectorOf, HexDecode, Contains, TrimSpace, WithoutPrefix, Unpack;
    var i := ExtractionCharacterised(errMsg);
  }
}
