/** Which messages have a hash at all: those that conform to their type, field by field. */
module TypedDataConformance {
  import opened Bytes
  import opened TypedData
  import opened TypedDataBinding

  /** Whether a value is one of a type: the right kind, in range, and with all its elements and fields conforming. */
  ghost predicate Conforms(s: Schema, t: FieldType, v: Datum)
    decreases v, 1
  {
    match t
    case UintField => v.Uint? && 0 <= v.n < UINT256_LIMIT
    case AddressField => v.Account?
    case StringField => v.Str?
    case BytesField => v.Raw?
    case ArrayField(elem) => v.Items? && forall i :: 0 <= i < |v.items| ==> Conforms(s, elem, v.items[i])
    case StructField(name) => name in s && ConformsTo(s, name, v)
  }

  /** Whether a message has exactly the fields of a type, each with a conforming value; unknown types have no fields. */
  ghost predicate ConformsTo(s: Schema, name: string, v: Datum)
    decreases v, 0
  {
    && v.Struct?
    && v.fields.Keys == (set f | f in FieldsOf(s, name) :: f.name)
    && forall f :: f in FieldsOf(s, name) && f.name in v.fields ==> Conforms(s, f.typ, v.fields[f.name])
  }

  lemma {:induction false} FieldConforms(h: Keccak, s: Schema, t: FieldType, v: Datum)
    requires WellFormed(s)
    ensures EncodeField(h, s, t, v).Ok? <==> Conforms(s, t, v)
    decreases v, 2, 0
  {
    hide WellFormed;
    match t
    case ArrayField(elem) =>
      if v.Items? { ItemsConform(h, s, elem, v.items); }
    case StructField(name) =>
      if v.Struct? && name in s { DataConforms(h, s, name, v); }
    case _ =>
  }

  lemma {:induction false} ItemsConform(h: Keccak, s: Schema, elem: FieldType, items: seq<Datum>)
    requires WellFormed(s)
    ensures EncodeItems(h, s, elem, items).Ok? <==> forall i :: 0 <= i < |items| ==> Conforms(s, elem, items[i])
    decreases items, 0, 0
  {
    hide WellFormed, Conforms;
    if items != [] {
      FieldConforms(h, s, elem, items[0]);
      ItemsConform(h, s, elem, items[1..]);
      assert forall i :: 1 <= i < |items| ==> items[i] == items[1..][i - 1];
    }
  }

  lemma {:induction false} FieldsConform(h: Keccak, s: Schema, fields: seq<Field>, v: Datum)
    requires WellFormed(s) && v.Struct?
    ensures EncodeFields(h, s, fields, v).Ok? <==>
            forall f :: f in fields ==> f.name in v.fields && Conforms(s, f.typ, v.fields[f.name])
    decreases v, 0, |fields|
  {
    hide WellFormed, Conforms;
    if fields != [] {
      var f, rest := fields[0], fields[1..];
      assert fields == [f] + rest;
      if f.name in v.fields {
        FieldConforms(h, s, f.typ, v.fields[f.name]);
        FieldsConform(h, s, rest, v);
      }
    }
  }

  lemma {:induction false} DataConforms(h: Keccak, s: Schema, name: string, v: Datum)
    requires WellFormed(s) && v.Struct?
    ensures EncodeData(h, s, name, v).Ok? <==> ConformsTo(s, name, v)
    decreases v, 1, 0
  {
    var fields := FieldsOf(s, name);
    assert DistinctNames(fields);
    hide WellFormed, Conforms;
    FieldsConform(h, s, fields, v);
    NamesAsSet(fields);
    NameCount(fields);
    if |v.fields| <= |fields| && forall f :: f in fields ==> f.name in v.fields {
      KeysAreNames(fields, v.fields);
    }
    assert |v.fields| == |v.fields.Keys|;
  }

  lemma NamesAsSet(fields: seq<Field>)
    ensures (set f | f in fields :: f.name) == (set i | 0 <= i < |fields| :: fields[i].name)
  {
    var names := set i | 0 <= i < |fields| :: fields[i].name;
    forall f | f in fields ensures f.name in names {
      var i :| 0 <= i < |fields| && fields[i] == f;
    }
  }

  /** A domain with all the parts that the schema asks for, and no salt. */
  predicate CompleteDomain(d: Domain)
  {
    && d.name != [] && d.version != [] && d.salt == []
    && d.chainId.Some? && 0 <= d.chainId.value < UINT256_LIMIT && d.verifyingContract.Some?
  }

  const DOMAIN_NAMES := {"name", "version", "chainId", "verifyingContract"}

  lemma DomainNames(s: Schema)
    requires HasDomain(s)
    ensures (set f | f in FieldsOf(s, DOMAIN) :: f.name) == DOMAIN_NAMES
  {
    var fields := s[DOMAIN];
    NamesAsSet(fields);
    assert (set i | 0 <= i < |fields| :: fields[i].name) ==
           {fields[0].name, fields[1].name, fields[2].name, fields[3].name};
  }

  /** The keys of a domain's map. */
  lemma DomainKeys(d: Domain)
    ensures DomainMap(d).Struct?
    ensures DomainMap(d).fields.Keys <= DOMAIN_NAMES + {"salt"}
  {
  }

  /** Each field of the domain's type conforms where it is set, but for a chain id out of range. */
  lemma DomainFieldsConform(s: Schema, d: Domain)
    requires HasDomain(s)
    ensures (forall f :: f in FieldsOf(s, DOMAIN) && f.name in DomainMap(d).fields ==>
               Conforms(s, f.typ, DomainMap(d).fields[f.name])) <==>
            (d.chainId.Some? ==> 0 <= d.chainId.value < UINT256_LIMIT)
  {
    DomainMapShows(d);
    hide DomainMap;
    var fields := s[DOMAIN];
    assert fields[2] in fields && fields[2].name == "chainId" && fields[2].typ == UintField;
  }

  lemma DomainConforms(s: Schema, d: Domain)
    requires HasDomain(s)
    ensures ConformsTo(s, DOMAIN, DomainMap(d)) <==> CompleteDomain(d)
  {
    hide DomainMap, Conforms, HasDomain, FieldsOf;
    DomainMapShows(d);
    DomainNames(s);
    DomainKeys(d);
    DomainFieldsConform(s, d);
    SaltIsNoName();
    var keys := DomainMap(d).fields.Keys;
    assert keys == DOMAIN_NAMES <==>
           "name" in keys && "version" in keys && "chainId" in keys && "verifyingContract" in keys && "salt" !in keys;
  }

  lemma SaltIsNoName()
    ensures "salt" !in DOMAIN_NAMES
  {
  }

  /** A digest exists exactly for a complete domain and a message that conforms to its primary type. */
  lemma DigestExists(h: Keccak, d: Domain, primary: string, message: Datum)
    ensures GetMessageHash(h, d, primary, message).Ok? <==>
            CompleteDomain(d) && ConformsTo(EIP712Types(), primary, message)
  {
    hide EIP712Types, DomainMap, EncodeData, ConformsTo, CompleteDomain, WellFormed, HasDomain;
    var s := EIP712Types();
    TableIsWellFormed();
    TableHasDomain();
    DomainConforms(s, d);
    StructConforms(h, s, DOMAIN, DomainMap(d));
    StructConforms(h, s, primary, message);
  }

  lemma StructConforms(h: Keccak, s: Schema, name: string, v: Datum)
    requires WellFormed(s)
    ensures HashStruct(h, s, name, v).Ok? <==> ConformsTo(s, name, v)
  {
    hide WellFormed, EncodeData;
    if v.Struct? {
      DataConforms(h, s, name, v);
    }
  }

  /** The order of names is lexicographic: the first difference decides, or the shorter name comes first. */
  lemma {:induction false} NamesAreLexicographic(a: string, b: string)
    ensures NameLe(a, b) <==>
            exists k :: 0 <= k <= |a| && k <= |b| && a[..k] == b[..k] && (k == |a| || (k < |b| && a[k] < b[k]))
  {
    if a == [] {
      assert a[..0] == b[..0];
    } else if b == [] {
    } else if a[0] == b[0] {
      NamesAreLexicographic(a[1..], b[1..]);
      if NameLe(a, b) {
        var j :| 0 <= j <= |a[1..]| && j <= |b[1..]| && a[1..][..j] == b[1..][..j]
          && (j == |a[1..]| || (j < |b[1..]| && a[1..][j] < b[1..][j]));
        assert a[..j + 1] == [a[0]] + a[1..][..j] && b[..j + 1] == [b[0]] + b[1..][..j];
        assert j + 1 == |a| || (j + 1 < |b| && a[j + 1] < b[j + 1]);
      }
      if k: nat :| k <= |a| && k <= |b| && a[..k] == b[..k] && (k == |a| || (k < |b| && a[k] < b[k])) {
        assert k > 0;
        assert a[1..][..k - 1] == a[..k][1..] && b[1..][..k - 1] == b[..k][1..];
      }
    } else {
      assert a[..0] == b[..0];
      if k: nat :| k <= |a| && k <= |b| && a[..k] == b[..k] && (k == |a| || (k < |b| && a[k] < b[k])) {
        if k > 0 { assert a[..k][0] == b[..k][0]; }
      }
    }
  }
}
