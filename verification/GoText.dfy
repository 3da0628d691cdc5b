/** The parts of Go's `strings` package that the revert parser uses, on the bytes of a string. */
module GoText {
  import opened Bytes

  function HasPrefix(s: Bytes, m: Bytes): bool
  {
    |m| <= |s| && s[..|m|] == m
  }

  /** `strings.Index`: the position of the first occurrence. */
  function Index(s: Bytes, m: Bytes): (r: Option<nat>)
    ensures r.Some? ==> r.value + |m| <= |s|
  {
    if HasPrefix(s, m) then Some(0)
    else if s == [] then None
    else
      match Index(s[1..], m)
      case None => None
      case Some(i) => Some(i + 1)
  }

  predicate OccursAt(s: Bytes, m: Bytes, i: nat)
  {
    i + |m| <= |s| && s[i..i + |m|] == m
  }

  predicate Contains(s: Bytes, m: Bytes)
  {
    Index(s, m).Some?
  }

  lemma OccursPointwise(s: Bytes, m: Bytes, i: nat)
    requires i + |m| <= |s|
    ensures OccursAt(s, m, i) <==> forall k :: 0 <= k < |m| ==> s[i + k] == m[k]
  {
    var piece := s[i..i + |m|];
    assert forall k :: 0 <= k < |m| ==> piece[k] == s[i + k];
    if forall k :: 0 <= k < |m| ==> s[i + k] == m[k] {
      assert piece == m;
    }
  }

  lemma PrefixPointwise(s: Bytes, m: Bytes)
    ensures HasPrefix(s, m) <==> |m| <= |s| && forall k :: 0 <= k < |m| ==> s[k] == m[k]
  {
    if |m| <= |s| && forall k :: 0 <= k < |m| ==> s[k] == m[k] {
      assert s[..|m|] == m;
    }
  }

  /** A prefix is an occurrence at the start. */
  lemma PrefixOccurs(s: Bytes, m: Bytes)
    ensures HasPrefix(s, m) <==> OccursAt(s, m, 0)
  {
    if |m| <= |s| {
      assert s[0..0 + |m|] == s[..|m|];
    }
  }

  /** An occurrence after the start is one in the rest of the text. */
  lemma OccursInRest(s: Bytes, m: Bytes, i: nat)
    requires s != [] && i > 0
    ensures OccursAt(s, m, i) <==> OccursAt(s[1..], m, i - 1)
  {
    if i + |m| <= |s| {
      assert s[1..][i - 1..i - 1 + |m|] == s[i..i + |m|];
    }
  }

  lemma {:induction false} IndexIsFirst(s: Bytes, m: Bytes)
    ensures Index(s, m).Some? ==> OccursAt(s, m, Index(s, m).value)
    ensures forall i :: OccursAt(s, m, i) ==> Index(s, m).Some? && Index(s, m).value <= i
  {
    hide OccursAt, HasPrefix;
    PrefixOccurs(s, m);
    if s == [] {
      NothingBeyond(s, m);
    } else if !HasPrefix(s, m) {
      var rest := s[1..];
      IndexIsFirst(rest, m);
      forall i: nat | OccursAt(s, m, i) ensures Index(s, m).Some? && Index(s, m).value <= i {
        OccursInRest(s, m, i);
      }
      if Index(rest, m).Some? {
        OccursInRest(s, m, Index(rest, m).value + 1);
      }
    }
  }

  lemma NothingBeyond(s: Bytes, m: Bytes)
    requires s == []
    ensures forall i :: OccursAt(s, m, i) ==> i == 0
  {
  }

  /** A marker whose last byte occurs nowhere else in it: two occurrences cannot overlap. */
  predicate EndsUniquely(m: Bytes)
  {
    m != [] && forall i :: 0 <= i < |m| - 1 ==> m[i] != m[|m| - 1]
  }

  lemma NoStraddle(p: Bytes, m: Bytes, rest: Bytes, i: nat)
    requires EndsUniquely(m) && OccursAt(p + m + rest, m, i)
    ensures i + |m| <= |p| || i >= |p|
  {
    var s, last := p + m + rest, i + |m| - 1;
    assert s[last] == s[i..i + |m|][|m| - 1];
    if |p| <= last < |p| + |m| {
      assert s[last] == m[last - |p|];
    }
  }

  /** The first occurrence of such a marker after a text without it: no occurrence straddles the two. */
  lemma IndexAfter(p: Bytes, m: Bytes, rest: Bytes)
    requires EndsUniquely(m) && !Contains(p, m)
    ensures Index(p + m + rest, m) == Some(|p|)
  {
    var s := p + m + rest;
    assert s[|p|..|p| + |m|] == m;
    assert OccursAt(s, m, |p|);
    IndexIsFirst(s, m);
    var i := Index(s, m).value;
    NoStraddle(p, m, rest, i);
    if i + |m| <= |p| {
      assert p[i..i + |m|] == s[i..i + |m|];
      assert OccursAt(p, m, i);
      IndexIsFirst(p, m);
    }
  }

  //
  // White space
  //

  predicate AsciiSpace(c: byte)
  {
    9 <= c <= 13 || c == 32
  }

  /** The UTF-8 encodings of the white space that `unicode.IsSpace` knows beyond ASCII. */
  predicate WideSpace2(a: byte, b: byte)
  {
    a == 0xC2 && (b == 0x85 || b == 0xA0)
  }

  predicate WideSpace3(a: byte, b: byte, c: byte)
  {
    || (a == 0xE1 && b == 0x9A && c == 0x80)
    || (a == 0xE2 && b == 0x80 && (0x80 <= c <= 0x8A || c == 0xA8 || c == 0xA9 || c == 0xAF))
    || (a == 0xE2 && b == 0x81 && c == 0x9F)
    || (a == 0xE3 && b == 0x80 && c == 0x80)
  }

  /** How many bytes of white space `s` starts with, as one character. */
  function LeadingSpace(s: Bytes): (n: nat)
    ensures n <= |s|
  {
    if s == [] then 0
    else if AsciiSpace(s[0]) then 1
    else if |s| >= 2 && WideSpace2(s[0], s[1]) then 2
    else if |s| >= 3 && WideSpace3(s[0], s[1], s[2]) then 3
    else 0
  }

  function TrailingSpace(s: Bytes): (n: nat)
    ensures n <= |s|
  {
    var k := |s|;
    if k == 0 then 0
    else if AsciiSpace(s[k - 1]) then 1
    else if k >= 2 && WideSpace2(s[k - 2], s[k - 1]) then 2
    else if k >= 3 && WideSpace3(s[k - 3], s[k - 2], s[k - 1]) then 3
    else 0
  }

  function TrimLeft(s: Bytes): Bytes
  {
    if LeadingSpace(s) == 0 then s else TrimLeft(s[LeadingSpace(s)..])
  }

  function TrimRight(s: Bytes): Bytes
  {
    if TrailingSpace(s) == 0 then s else TrimRight(s[..|s| - TrailingSpace(s)])
  }

  /** `strings.TrimSpace` */
  function TrimSpace(s: Bytes): Bytes
  {
    TrimRight(TrimLeft(s))
  }

  /** Nothing but white space. */
  predicate Blank(s: Bytes)
  {
    TrimLeft(s) == []
  }

  /** An ASCII byte that is not white space. */
  predicate Solid(c: byte)
  {
    c < 128 && !AsciiSpace(c)
  }

  lemma {:induction false} TrimLeftSolid(p: Bytes, r: Bytes)
    requires r != [] && Solid(r[0])
    ensures TrimLeft(p + r) == TrimLeft(p) + r
  {
    if p == [] {
      assert p + r == r;
    } else {
      var n := LeadingSpace(p);
      assert LeadingSpace(p + r) == n;
      if n > 0 {
        assert (p + r)[n..] == p[n..] + r;
        TrimLeftSolid(p[n..], r);
      }
    }
  }

  lemma {:induction false} TrimRightSolid(r: Bytes, q: Bytes)
    requires r != [] && Solid(r[|r| - 1])
    ensures TrimRight(r + q) == r + TrimRight(q)
  {
    if q == [] {
      assert r + q == r;
    } else {
      var n, s := TrailingSpace(q), r + q;
      assert TrailingSpace(s) == n;
      if n > 0 {
        assert s[..|s| - n] == r + q[..|q| - n];
        TrimRightSolid(r, q[..|q| - n]);
      }
    }
  }

  /** Trimming around solid text trims the two sides on their own. */
  lemma TrimAround(p: Bytes, r: Bytes, q: Bytes)
    requires r != [] && Solid(r[0]) && Solid(r[|r| - 1])
    ensures TrimSpace(p + r + q) == TrimLeft(p) + r + TrimRight(q)
  {
    assert p + r + q == p + (r + q);
    TrimLeftSolid(p, r + q);
    var left := TrimLeft(p) + r;
    assert TrimLeft(p) + (r + q) == left + q;
    TrimRightSolid(left, q);
  }

  lemma {:induction false} TrimRightIsPrefix(s: Bytes)
    ensures |TrimRight(s)| <= |s| && TrimRight(s) == s[..|TrimRight(s)|]
    ensures TrailingSpace(TrimRight(s)) == 0
    decreases |s|
  {
    if TrailingSpace(s) > 0 {
      TrimRightIsPrefix(s[..|s| - TrailingSpace(s)]);
    }
  }

  lemma {:induction false} TrimLeftIsSuffix(s: Bytes)
    ensures |TrimLeft(s)| <= |s| && TrimLeft(s) == s[|s| - |TrimLeft(s)|..]
    ensures LeadingSpace(TrimLeft(s)) == 0
    decreases |s|
  {
    if LeadingSpace(s) > 0 {
      TrimLeftIsSuffix(s[LeadingSpace(s)..]);
    }
  }

  /** Trimmed text stays as it is. */
  lemma TrimmedIsTrimmed(s: Bytes)
    ensures LeadingSpace(TrimSpace(s)) == 0 && TrailingSpace(TrimSpace(s)) == 0
    ensures TrimSpace(TrimSpace(s)) == TrimSpace(s)
  {
    var t := TrimLeft(s);
    TrimLeftIsSuffix(s);
    TrimRightIsPrefix(t);
    var u := TrimRight(t);
    assert LeadingSpace(u) == 0;
  }

  /** White space in front of a text is trimmed away, whatever the text starts with. */
  lemma {:induction false} TrimLeftBlank(b: Bytes, s: Bytes)
    requires Blank(b)
    ensures TrimLeft(b + s) == TrimLeft(s)
    decreases |b|
  {
    if b == [] {
      assert b + s == s;
    } else {
      var n := LeadingSpace(b);
      assert n > 0;
      assert LeadingSpace(b + s) == n;
      assert (b + s)[n..] == b[n..] + s;
      TrimLeftBlank(b[n..], s);
    }
  }

  /** White space after a text is trimmed away, whatever the text ends with. */
  lemma {:induction false} TrimRightBlank(s: Bytes, b: Bytes)
    requires Blank(b)
    ensures TrimRight(s + b) == TrimRight(s)
    decreases |b|
  {
    if b == [] {
      assert s + b == s;
    } else {
      var n := LeadingSpace(b);
      var e, rest := b[..n], b[n..];
      assert s + b == (s + e) + rest;
      TrimRightBlank(s + e, rest);
      OneSpaceAtEnd(s, e);
    }
  }

  lemma OneSpaceAtEnd(s: Bytes, e: Bytes)
    requires e != [] && LeadingSpace(e) == |e|
    ensures TrimRight(s + e) == TrimRight(s)
  {
    var t := s + e;
    assert forall k :: 0 <= k < |e| ==> t[|s| + k] == e[k];
    assert TrailingSpace(t) == |e|;
    assert t[..|t| - |e|] == s;
  }

  /** A byte that may start a character: not the continuation of one. */
  predicate StartsCharacter(s: Bytes)
  {
    s == [] || s[0] < 128 || s[0] >= 192
  }

  lemma {:induction false} TrimLeftThenBlank(s: Bytes, b: Bytes)
    requires Blank(b)
    ensures TrimLeft(s + b) == if TrimLeft(s) == [] then [] else TrimLeft(s) + b
    decreases |s|
  {
    if s == [] {
      assert s + b == b;
    } else {
      assert StartsCharacter(b);
      var n, t := LeadingSpace(s), s + b;
      assert LeadingSpace(t) == n;
      if n > 0 {
        assert t[n..] == s[n..] + b;
        TrimLeftThenBlank(s[n..], b);
      }
    }
  }

  /** Surrounding white space makes no difference to trimmed text. */
  lemma TrimIgnoresBlanks(b: Bytes, s: Bytes, c: Bytes)
    requires Blank(b) && Blank(c)
    ensures TrimSpace(b + s + c) == TrimSpace(s)
  {
    assert b + s + c == b + (s + c);
    TrimLeftBlank(b, s + c);
    TrimLeftThenBlank(s, c);
    if TrimLeft(s) != [] {
      TrimRightBlank(TrimLeft(s), c);
    }
  }
}
