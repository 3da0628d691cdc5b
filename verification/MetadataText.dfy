/** Metadata written as `key=value` strings, and its way from the command line to the chain. */
module MetadataText {
  import opened Bytes
  import opened Abi
  import opened ExtraData

  const EQUALS: byte := 61

  /** The position of the first `c` in `s`, or the length of `s`. */
  function FirstIndex(s: Bytes, c: byte): (i: nat)
    ensures i <= |s|
    ensures forall k :: 0 <= k < i ==> s[k] != c
    ensures i < |s| ==> s[i] == c
  {
    if s == [] || s[0] == c then 0 else 1 + FirstIndex(s[1..], c)
  }

  /** `strings.SplitN(s, "=", 2)` */
  function SplitAtEquals(s: Bytes): (parts: seq<Bytes>)
    ensures |parts| == 2 <==> EQUALS in s
    ensures EQUALS !in s ==> parts == [s]
    ensures |parts| == 2 ==> parts[0] + [EQUALS] + parts[1] == s && EQUALS !in parts[0]
  {
    var i := FirstIndex(s, EQUALS);
    if i == |s| then [s] else [s[..i], s[i + 1..]]
  }

  /** The error carries the first entry without an equals sign. */
  function ParsedEntries(entries: seq<Bytes>): Result<seq<MetadataEntry>, Bytes>
  {
    if entries == [] then Ok([])
    else
      var parts := SplitAtEquals(entries[0]);
      if |parts| != 2 then Err(entries[0])
      else
        var rest :- ParsedEntries(entries[1..]);
        Ok([MetadataEntry(parts[0], parts[1])] + rest)
  }

  function Rendered(m: MetadataEntry): Bytes
  {
    m.key + Ascii("=") + m.value
  }

  lemma EqualsSign()
    ensures Ascii("=") == [EQUALS]
  {
  }

  function RenderedEntries(metadata: seq<MetadataEntry>): (entries: seq<Bytes>)
    ensures |entries| == |metadata|
  {
    seq(|metadata|, i requires 0 <= i < |metadata| => Rendered(metadata[i]))
  }

  lemma {:induction false} ParsedAppend(entries: seq<Bytes>, e: Bytes)
    requires ParsedEntries(entries).Ok?
    ensures var parts := SplitAtEquals(e);
            ParsedEntries(entries + [e]) ==
            if |parts| == 2 then Ok(ParsedEntries(entries).value + [MetadataEntry(parts[0], parts[1])]) else Err(e)
  {
    hide SplitAtEquals;
    var last := SplitAtEquals(e);
    if entries == [] {
      assert entries + [e] == [e] && [e][1..] == [] && ParsedEntries([]) == Ok([]);
      if |last| == 2 {
        var n := MetadataEntry(last[0], last[1]);
        assert [n] + [] == [] + [n];
      }
    } else {
      assert (entries + [e])[0] == entries[0] && (entries + [e])[1..] == entries[1..] + [e];
      ParsedAppend(entries[1..], e);
      var first, rest := SplitAtEquals(entries[0]), ParsedEntries(entries[1..]).value;
      if |last| == 2 {
        var m, n := MetadataEntry(first[0], first[1]), MetadataEntry(last[0], last[1]);
        assert [m] + (rest + [n]) == [m] + rest + [n];
      }
    }
  }

  lemma {:induction false} ParsedPrefixFails(entries: seq<Bytes>, more: seq<Bytes>)
    requires ParsedEntries(entries).Err?
    ensures ParsedEntries(entries + more) == ParsedEntries(entries)
  {
    assert (entries + more)[0] == entries[0] && (entries + more)[1..] == entries[1..] + more;
    if |SplitAtEquals(entries[0])| == 2 {
      ParsedPrefixFails(entries[1..], more);
    }
  }

  /** What reading entry `i` does to the outcome. */
  lemma ParsedStep(entries: seq<Bytes>, i: nat)
    requires i < |entries| && ParsedEntries(entries[..i]).Ok?
    ensures var parts, before := SplitAtEquals(entries[i]), ParsedEntries(entries[..i]).value;
            if |parts| == 2 then
              ParsedEntries(entries[..i + 1]) == Ok(before + [MetadataEntry(parts[0], parts[1])])
            else
              ParsedEntries(entries) == Err(entries[i])
  {
    hide SplitAtEquals, ParsedEntries;
    var upTo, after := entries[..i + 1], entries[i + 1..];
    assert upTo == entries[..i] + [entries[i]] && entries == upTo + after;
    ParsedAppend(entries[..i], entries[i]);
    if |SplitAtEquals(entries[i])| != 2 {
      ParsedPrefixFails(upTo, after);
    }
  }

  method ParseMetadataEntries(entries: seq<Bytes>) returns (r: Result<seq<MetadataEntry>, Bytes>)
    ensures r == ParsedEntries(entries)
  {
    var metadata := [];
    for i := 0 to |entries|
      invariant ParsedEntries(entries[..i]) == Ok(metadata)
    {
      hide SplitAtEquals, ParsedEntries;
      ParsedStep(entries, i);
      var parts := SplitAtEquals(entries[i]);
      if |parts| != 2 {
        return Err(entries[i]);
      }
      metadata := metadata + [MetadataEntry(parts[0], parts[1])];
    }
    assert entries[..|entries|] == entries;
    return Ok(metadata);
  }

  /** Parsing succeeds exactly when every entry has an equals sign, and then rendering restores the entries. */
  lemma {:induction false} ParseThenRender(entries: seq<Bytes>)
    ensures ParsedEntries(entries).Ok? <==> forall i :: 0 <= i < |entries| ==> EQUALS in entries[i]
    ensures ParsedEntries(entries).Ok? ==>
              && RenderedEntries(ParsedEntries(entries).value) == entries
              && forall m :: m in ParsedEntries(entries).value ==> EQUALS !in m.key
  {
    hide SplitAtEquals, Rendered, RenderedEntries;
    if entries == [] {
      assert RenderedEntries([]) == [];
    } else {
      var e, rest := entries[0], ParsedEntries(entries[1..]);
      assert entries == [e] + entries[1..];
      ParseThenRender(entries[1..]);
      if rest.Ok? && EQUALS in e {
        var parts := SplitAtEquals(e);
        var m := MetadataEntry(parts[0], parts[1]);
        SplitRenders(e);
        RenderedCons(m, rest.value);
      }
    }
  }

  /** The entry that is complained of is the first without an equals sign. */
  lemma {:induction false} FirstBadEntry(entries: seq<Bytes>) returns (i: nat)
    requires ParsedEntries(entries).Err?
    ensures i < |entries| && ParsedEntries(entries) == Err(entries[i])
    ensures EQUALS !in entries[i] && forall j :: 0 <= j < i ==> EQUALS in entries[j]
  {
    i := 0;
    if EQUALS in entries[0] {
      var k := FirstBadEntry(entries[1..]);
      i := k + 1;
      assert forall j :: 1 <= j < |entries| ==> entries[j] == entries[1..][j - 1];
    }
  }

  lemma SplitRenders(e: Bytes)
    requires EQUALS in e
    ensures |SplitAtEquals(e)| == 2 && EQUALS !in SplitAtEquals(e)[0]
    ensures Rendered(MetadataEntry(SplitAtEquals(e)[0], SplitAtEquals(e)[1])) == e
  {
    EqualsSign();
  }

  lemma RenderedCons(m: MetadataEntry, rest: seq<MetadataEntry>)
    ensures RenderedEntries([m] + rest) == [Rendered(m)] + RenderedEntries(rest)
  {
  }

  /** Rendered metadata parses to itself exactly when no key has an equals sign; values may have any. */
  lemma {:induction false} RenderThenParse(metadata: seq<MetadataEntry>)
    ensures ParsedEntries(RenderedEntries(metadata)) == Ok(metadata) <==> forall m :: m in metadata ==> EQUALS !in m.key
  {
    hide SplitAtEquals, Rendered, RenderedEntries;
    if metadata == [] {
      assert RenderedEntries([]) == [];
    } else {
      var m, rest := metadata[0], metadata[1..];
      assert metadata == [m] + rest;
      RenderThenParse(rest);
      RenderedCons(m, rest);
      assert ([Rendered(m)] + RenderedEntries(rest))[1..] == RenderedEntries(rest);
      RenderedKey(m);
      var parts := SplitAtEquals(Rendered(m));
      assert parts == [m.key, m.value] <==> MetadataEntry(parts[0], parts[1]) == m;
    }
  }

  lemma RenderedKey(m: MetadataEntry)
    ensures |SplitAtEquals(Rendered(m))| == 2
    ensures SplitAtEquals(Rendered(m)) == [m.key, m.value] <==> EQUALS !in m.key
  {
    EqualsSign();
    var s := Rendered(m);
    assert s[|m.key|] == EQUALS;
    if EQUALS !in m.key {
      var i := FirstIndex(s, EQUALS);
      assert forall k :: 0 <= k < |m.key| ==> s[k] == m.key[k] && m.key[k] in m.key;
      assert i == |m.key|;
      assert s[..i] == m.key && s[i + 1..] == m.value;
    }
  }

  /** Entries given on the command line can be read off the chain again. */
  lemma CommandLineToChain(
    entries: seq<Bytes>, metadata: seq<MetadataEntry>, payer: Address20, id: nat, signature: AuthSignature)
    requires Addressable(CreateDataSetArguments(payer, id, metadata, signature))
    ensures var r := DecodeCreateDataSet(EncodeList(CreateDataSetArguments(payer, id, metadata, signature)));
            && r.Ok? && |r.value.keys| == |r.value.values|
            && (ParsedEntries(entries) == Ok(metadata) ==>
               RenderedEntries(Zip(r.value.keys, r.value.values)) == entries)
  {
    hide DecodeCreateDataSet, CreateDataSetArguments, ParsedEntries;
    ParseThenRender(entries);
    CreateDataSetRoundTrip(payer, id, metadata, signature);
  }
}
