/** White space in Go is a property of characters; trimming bytes is trimming the characters they encode. */
module GoSpaces {
  import opened Bytes
  import opened GoText

  /** A Unicode code point. */
  type Point = c: nat | c < 0x11_0000

  /** `unicode.IsSpace` */
  predicate IsSpace(c: Point)
  {
    || c == 0x09 || c == 0x0A || c == 0x0B || c == 0x0C || c == 0x0D || c == 0x20 || c == 0x85 || c == 0xA0
    || c == 0x1680 || 0x2000 <= c <= 0x200A || c == 0x2028 || c == 0x2029 || c == 0x202F || c == 0x205F
    || c == 0x3000
  }

  /** The UTF-8 encoding of a code point. */
  function Utf8(c: Point): (b: Bytes)
    ensures 1 <= |b| <= 4
  {
    if c < 0x80 then [c]
    else if c < 0x800 then [0xC0 + c / 0x40, 0x80 + c % 0x40]
    else if c < 0x1_0000 then [0xE0 + c / 0x1000, 0x80 + c / 0x40 % 0x40, 0x80 + c % 0x40]
    else [0xF0 + c / 0x4_0000, 0x80 + c / 0x1000 % 0x40, 0x80 + c / 0x40 % 0x40, 0x80 + c % 0x40]
  }

  function Encoded(cs: seq<Point>): Bytes
  {
    if cs == [] then [] else Utf8(cs[0]) + Encoded(cs[1..])
  }

  /** Two encoded bytes are one of the wide spaces exactly when their code point is. */
  lemma TwoBytes(c: Point)
    requires 0x80 <= c < 0x800
    ensures WideSpace2(0xC0 + c / 0x40, 0x80 + c % 0x40) <==> IsSpace(c)
  {
  }

  lemma ThreeBytes(c: Point)
    requires 0x800 <= c < 0x1_0000
    ensures WideSpace3(0xE0 + c / 0x1000, 0x80 + c / 0x40 % 0x40, 0x80 + c % 0x40) <==> IsSpace(c)
  {
    var a, m, l := c / 0x1000, c / 0x40 % 0x40, c % 0x40;
    assert c == 0x1000 * a + 0x40 * m + l;
  }

  /** A character in front is taken as white space exactly when it is, and whole. */
  lemma SpaceAhead(c: Point, rest: Bytes)
    ensures LeadingSpace(Utf8(c) + rest) == if IsSpace(c) then |Utf8(c)| else 0
  {
    var s, u := Utf8(c) + rest, Utf8(c);
    assert forall k :: 0 <= k < |u| ==> s[k] == u[k];
    if 0x80 <= c < 0x800 {
      TwoBytes(c);
    } else if 0x800 <= c < 0x1_0000 {
      ThreeBytes(c);
    }
  }

  /** And so is a character at the end. */
  lemma SpaceBehind(before: Bytes, c: Point)
    ensures TrailingSpace(before + Utf8(c)) == if IsSpace(c) then |Utf8(c)| else 0
  {
    var s, u := before + Utf8(c), Utf8(c);
    assert forall k :: 0 <= k < |u| ==> s[|before| + k] == u[k];
    if 0x80 <= c < 0x800 {
      TwoBytes(c);
    } else if 0x800 <= c < 0x1_0000 {
      ThreeBytes(c);
    }
  }

  function DropLeading(cs: seq<Point>): seq<Point>
  {
    if cs != [] && IsSpace(cs[0]) then DropLeading(cs[1..]) else cs
  }

  function DropTrailing(cs: seq<Point>): seq<Point>
  {
    if cs != [] && IsSpace(cs[|cs| - 1]) then DropTrailing(cs[..|cs| - 1]) else cs
  }

  lemma {:induction false} TrimsLeading(cs: seq<Point>)
    ensures TrimLeft(Encoded(cs)) == Encoded(DropLeading(cs))
  {
    hide Utf8, IsSpace;
    if cs != [] {
      SpaceAhead(cs[0], Encoded(cs[1..]));
      if IsSpace(cs[0]) {
        TrimsLeading(cs[1..]);
        assert Encoded(cs)[|Utf8(cs[0])|..] == Encoded(cs[1..]);
      }
    }
  }

  lemma {:induction false} EncodedLast(cs: seq<Point>)
    requires cs != []
    ensures Encoded(cs) == Encoded(cs[..|cs| - 1]) + Utf8(cs[|cs| - 1])
  {
    hide Utf8;
    var last := |cs| - 1;
    if last == 0 {
      assert cs[..0] == [] && cs[1..] == [];
    } else {
      EncodedLast(cs[1..]);
      assert cs[1..][..last - 1] == cs[..last][1..];
      assert cs[1..][last - 1] == cs[last];
    }
  }

  lemma {:induction false} TrimsTrailing(cs: seq<Point>)
    ensures TrimRight(Encoded(cs)) == Encoded(DropTrailing(cs))
  {
    hide Utf8, IsSpace;
    if cs != [] {
      var init, last := cs[..|cs| - 1], cs[|cs| - 1];
      EncodedLast(cs);
      SpaceBehind(Encoded(init), last);
      if IsSpace(last) {
        TrimsTrailing(init);
        assert Encoded(cs)[..|Encoded(cs)| - |Utf8(last)|] == Encoded(init);
      }
    }
  }

  /** Trimming encoded text takes exactly the white space characters off its two ends. */
  lemma TrimsCharacters(cs: seq<Point>)
    ensures TrimSpace(Encoded(cs)) == Encoded(DropTrailing(DropLeading(cs)))
  {
    TrimsLeading(cs);
    TrimsTrailing(DropLeading(cs));
  }
}
