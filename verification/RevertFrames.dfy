/**
 Error messages around revert data: whatever frame the printed error is put in, extraction finds exactly
 its text and parsing gives the error back.
 */
module RevertFrames {
  import opened Bytes
  import opened Abi
  import opened GoText
  import opened Hex
  import opened ErrorTable
  import opened RevertParser
  import opened RevertProofs

  /** The text before and after the hex text, and for some patterns the gap after the marker. */
  datatype Frame =
    | RawFrame(before: Bytes, after: Bytes)
    | GethFrame(before: Bytes, gap: Bytes, after: Bytes)
    | FvmFrame(before: Bytes, after: Bytes)
    | RevertFrame(before: Bytes, gap: Bytes, after: Bytes)
    | BareFrame(before: Bytes, after: Bytes)

  // The markers as the messages have them.
  const GETH_MARKER: Bytes := Ascii("execution reverted:")
  const FVM_MARKER: Bytes := Ascii("vm error=[")
  const REVERT_MARKER: Bytes := Ascii("revert ")

  function Marked(before: Bytes, marker: Bytes, gap: Bytes, hex: Bytes, after: Bytes): Bytes
  {
    before + (marker + gap + hex) + after
  }

  function Framed(f: Frame, hex: Bytes): Bytes
  {
    match f
    case RawFrame(before, after) => before + hex + after
    case GethFrame(before, gap, after) => Marked(before, GETH_MARKER, gap, hex, after)
    case FvmFrame(before, after) => Marked(before, FVM_MARKER, [], hex, after)
    case RevertFrame(before, gap, after) => Marked(before, REVERT_MARKER, gap, hex, after)
    case BareFrame(before, after) => before + hex + after
  }

  /** The prefix and hex digits. */
  predicate IsHexText(t: Bytes)
  {
    HasPrefix(t, HEX_PREFIX) && AllHex(t[2..])
  }

  predicate EndsDigits(after: Bytes)
  {
    after == [] || !IsHexChar(after[0])
  }

  /** When a frame shows its hex text: the text in front hides no earlier match, and the digits end where it ends. */
  predicate Shows(f: Frame, hex: Bytes)
  {
    var msg := TrimSpace(Framed(f, hex));
    var geth := Applies(msg, EXECUTION_REVERTED, true);
    var fvm := Applies(msg, VM_ERROR, false);
    var revert := Applies(msg, REVERT, true);
    match f
    case RawFrame(before, after) => Blank(before) && Blank(after)
    case GethFrame(before, gap, after) =>
      && !HasPrefix(TrimLeft(before), HEX_PREFIX) && !Contains(before, EXECUTION_REVERTED)
      && Blank(gap) && EndsDigits(after)
    case FvmFrame(before, after) =>
      && !HasPrefix(TrimLeft(before), HEX_PREFIX) && !Contains(before, VM_ERROR) && EndsDigits(after)
      && !geth
    case RevertFrame(before, gap, after) =>
      && !HasPrefix(TrimLeft(before), HEX_PREFIX) && !Contains(before, REVERT)
      && Blank(gap) && EndsDigits(after)
      && !geth && !fvm
    case BareFrame(before, after) =>
      && TrimLeft(before) != [] && !Contains(before, HEX_PREFIX) && EndsDigits(after)
      && !geth && !fvm && !revert
  }

  //
  // Markers
  //

  lemma MarkersEndUniquely()
    ensures EndsUniquely(EXECUTION_REVERTED) && EndsUniquely(VM_ERROR) && EndsUniquely(REVERT)
            && EndsUniquely(HEX_PREFIX)
  {
    ExecutionRevertedEndsUniquely();
  }

  lemma ExecutionRevertedEndsUniquely()
    ensures EndsUniquely(EXECUTION_REVERTED)
  {
    var s := "execution reverted:";
    forall i | 0 <= i < |s| - 1 ensures s[i] != ':' {}
  }

  /** A marker that starts with a solid byte other than the start of "0x", as the three markers do. */
  predicate GoodMarker(m: Bytes)
  {
    EndsUniquely(m) && Solid(m[0]) && m[0] != HEX_PREFIX[0] && m[0] != HEX_PREFIX[1]
  }

  lemma MarkersAreGood()
    ensures GoodMarker(EXECUTION_REVERTED) && GoodMarker(VM_ERROR) && GoodMarker(REVERT)
  {
    MarkersEndUniquely();
  }

  //
  // One marker
  //

  lemma HexTextEnds(t: Bytes)
    requires IsHexText(t)
    ensures |t| >= 2 && Solid(t[0]) && Solid(t[|t| - 1])
    ensures t[0] == 48 && t[1] == 120
  {
    assert t[..2][0] == t[0] && t[..2][1] == t[1];
    if |t| > 2 {
      assert IsHexChar(t[2..][|t| - 3]);
    }
  }

  lemma {:induction false} HexEndAt(s: Bytes, i: nat, end: nat)
    requires i <= end <= |s| && (forall k :: i <= k < end ==> IsHexChar(s[k])) && (end < |s| ==> !IsHexChar(s[end]))
    ensures HexEnd(s, i) == end
    decreases end - i
  {
    if i < end {
      HexEndAt(s, i + 1, end);
    }
  }

  /** A hex text is the first hex string of whatever starts with it and goes on with something else. */
  lemma FirstHexOf(hex: Bytes, after: Bytes)
    requires IsHexText(hex) && EndsDigits(after)
    ensures HasPrefix(hex + after, HEX_PREFIX) && FirstHexString(hex + after) == hex
  {
    var s := hex + after;
    assert s[..2] == hex[..2];
    forall k | 2 <= k < |hex| ensures IsHexChar(s[k]) {
      assert s[k] == hex[2..][k - 2];
    }
    HexEndAt(s, 2, |hex|);
    assert s[..|hex|] == hex;
  }

  lemma EndsDigitsTrimmed(after: Bytes)
    requires EndsDigits(after)
    ensures EndsDigits(TrimRight(after))
  {
    TrimRightIsPrefix(after);
    if TrimRight(after) != [] {
      assert TrimRight(after)[0] == after[0];
    }
  }

  lemma ContainsSuffix(s: Bytes, k: nat, m: Bytes)
    requires k <= |s| && !Contains(s, m)
    ensures !Contains(s[k..], m)
  {
    IndexIsFirst(s[k..], m);
    IndexIsFirst(s, m);
    if Contains(s[k..], m) {
      var i := Index(s[k..], m).value;
      assert s[k + i..k + i + |m|] == s[k..][i..i + |m|];
      assert OccursAt(s, m, k + i);
    }
  }

  lemma TrimLeftContains(s: Bytes, m: Bytes)
    requires !Contains(s, m)
    ensures !Contains(TrimLeft(s), m)
  {
    TrimLeftIsSuffix(s);
    ContainsSuffix(s, |s| - |TrimLeft(s)|, m);
  }

  /** The marker is found where it stands, and the hex text right after it. */
  lemma AfterMarker(before: Bytes, marker: Bytes, gap: Bytes, hex: Bytes, after: Bytes, trim: bool)
    requires GoodMarker(marker) && !Contains(before, marker) && IsHexText(hex) && EndsDigits(after)
    requires Blank(gap) && (gap == [] || trim)
    ensures var msg := TrimSpace(Marked(before, marker, gap, hex, after));
            && Applies(msg, marker, trim) && FirstHexString(After(msg, marker, trim).value) == hex
            && (!HasPrefix(TrimLeft(before), HEX_PREFIX) ==> !HasPrefix(msg, HEX_PREFIX))
  {
    hide GoodMarker, EndsUniquely, IsHexText, FirstHexString, TrimLeft, TrimRight, Contains, Index, EndsDigits, Blank;
    var body, p, q := marker + gap + hex, TrimLeft(before), TrimRight(after);
    HexTextEnds(hex);
    GoodMarkerStarts(marker);
    assert body[0] == marker[0] && body[|body| - 1] == hex[|hex| - 1];
    TrimAround(before, body, after);
    var msg := p + body + q;
    TrimLeftContains(before, marker);
    assert msg == p + marker + (gap + hex + q);
    IndexAfter(p, marker, gap + hex + q);
    assert msg[|p| + |marker|..] == gap + hex + q;
    EndsDigitsTrimmed(after);
    EndsDigitsTrimmed(q);
    if trim {
      TrimAround(gap, hex, q);
      BlankTrims(gap);
      assert TrimSpace(gap + hex + q) == hex + TrimRight(q);
      FirstHexOf(hex, TrimRight(q));
    } else {
      assert gap + hex + q == hex + q;
      FirstHexOf(hex, q);
    }
    if !HasPrefix(p, HEX_PREFIX) {
      NoEarlyPrefix(p, marker, gap + hex + q);
    }
  }

  lemma BlankTrims(b: Bytes)
    requires Blank(b)
    ensures TrimLeft(b) == []
  {
  }

  lemma GoodMarkerStarts(m: Bytes)
    requires GoodMarker(m)
    ensures EndsUniquely(m) && m != [] && Solid(m[0]) && m[0] != HEX_PREFIX[0] && m[0] != HEX_PREFIX[1]
  {
  }

  lemma NoEarlyPrefix(p: Bytes, m: Bytes, rest: Bytes)
    requires m != [] && m[0] != HEX_PREFIX[0] && m[0] != HEX_PREFIX[1] && !HasPrefix(p, HEX_PREFIX)
    ensures !HasPrefix(p + m + rest, HEX_PREFIX)
  {
    var s := p + m + rest;
    PrefixBytes(s);
    PrefixBytes(p);
    assert |p| == 1 ==> s[1] == m[0];
    assert |p| == 0 ==> s[0] == m[0];
  }

  lemma PrefixBytes(s: Bytes)
    ensures HasPrefix(s, HEX_PREFIX) <==> |s| >= 2 && s[0] == HEX_PREFIX[0] && s[1] == HEX_PREFIX[1]
  {
    if HasPrefix(s, HEX_PREFIX) {
      assert s[..2][0] == s[0] && s[..2][1] == s[1];
    }
  }

  //
  // Every frame
  //

  /** Without a marker, the first "0x" is the one of the hex text. */
  lemma BareHex(before: Bytes, hex: Bytes, after: Bytes)
    requires TrimLeft(before) != [] && !Contains(before, HEX_PREFIX) && IsHexText(hex) && EndsDigits(after)
    ensures var msg := TrimSpace(before + hex + after);
            && !HasPrefix(msg, HEX_PREFIX) && Index(msg, HEX_PREFIX).Some?
            && FirstHexString(msg[Index(msg, HEX_PREFIX).value..]) == hex
  {
    hide FirstHexString, TrimLeft, TrimRight, EndsDigits;
    var p, q := TrimLeft(before), TrimRight(after);
    HexTextEnds(hex);
    TrimAround(before, hex, after);
    var msg := p + hex + q;
    TrimLeftContains(before, HEX_PREFIX);
    assert hex == HEX_PREFIX + hex[2..];
    assert msg == p + HEX_PREFIX + (hex[2..] + q);
    MarkersEndUniquely();
    IndexAfter(p, HEX_PREFIX, hex[2..] + q);
    assert msg[|p|..] == hex + q;
    EndsDigitsTrimmed(after);
    FirstHexOf(hex, q);
    assert HasPrefix(msg, HEX_PREFIX) ==> Index(msg, HEX_PREFIX) == Some(0);
  }

  lemma RawHex(before: Bytes, hex: Bytes, after: Bytes)
    requires IsHexText(hex) && Blank(before) && Blank(after)
    ensures HexData(before + hex + after) == hex
  {
    HexTextEnds(hex);
    TrimIgnoresBlanks(before, hex, after);
    TrimAround([], hex, []);
    assert [] + hex + [] == hex;
  }

  /** Extraction finds exactly the hex text that a frame shows. */
  lemma FramedExtraction(f: Frame, hex: Bytes)
    requires IsHexText(hex) && Shows(f, hex)
    ensures HexData(Framed(f, hex)) == hex
  {
    hide TrimSpace, TrimLeft, Contains, Blank, EndsDigits, Applies, FirstHexString, GoodMarker, IsHexText, After, Ascii;
    MarkersAreGood();
    match f
    case RawFrame(before, after) =>
      RawHex(before, hex, after);
    case GethFrame(before, gap, after) =>
      AfterMarker(before, EXECUTION_REVERTED, gap, hex, after, true);
    case FvmFrame(before, after) =>
      BlankNothing();
      AfterMarker(before, VM_ERROR, [], hex, after, false);
    case RevertFrame(before, gap, after) =>
      AfterMarker(before, REVERT, gap, hex, after, true);
    case BareFrame(before, after) =>
      BareHex(before, hex, after);
  }

  lemma BlankNothing()
    ensures Blank([])
  {
  }

  /**
   From the error that reverted to the error that is reported: printed in hex and put in any frame that
   shows it, it is parsed back with the same parameters, or its decoder panics on a wrong type assertion.
   */
  lemma EndToEnd(f: Frame, selector: Selector, sig: Signature, values: seq<Value>, trailing: Bytes)
    requires Lookup(selector) == Some(sig)
    requires HaveTypes(values, sig.params) && |EncodeList(values)| < UINT256_LIMIT
    requires Shows(f, RevertText(selector, EncodeList(values) + trailing))
    ensures ParsedFromError(Framed(f, RevertText(selector, EncodeList(values) + trailing))) ==
            Expected(selector, sig, values)
  {
    hide Lookup, RevertText, HexData, Shows, Framed, ParseRevert;
    var data := EncodeList(values) + trailing;
    RevertTextShape(selector, data);
    FramedExtraction(f, RevertText(selector, data));
    RevertRoundTrip(selector, sig, values, trailing);
  }
}
