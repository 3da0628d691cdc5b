/**
 A digest binds its message: two signed inputs with the same digest are the same, or else among the
 byte strings hashed for them there are two different ones with the same hash.
 */
module TypedDataBinding {
  import opened Bytes
  import opened TypedData

  //
  // The byte strings that are hashed
  //

  ghost function HashedInField(h: Keccak, s: Schema, t: FieldType, v: Datum): set<Bytes>
    decreases v, 2, 0
  {
    match v
    case Uint(_) => {}
    case Account(_) => {}
    case Str(b) => {b}
    case Raw(b) => {b}
    case Items(items) =>
      var elem := if t.ArrayField? then t.elem else t;
      Encoded(EncodeItems(h, s, elem, items)) + HashedInItems(h, s, elem, items)
    case Struct(_) =>
      var name := BaseName(t);
      Encoded(EncodeData(h, s, name, v)) + HashedInData(h, s, name, v)
  }

  ghost function HashedInItems(h: Keccak, s: Schema, elem: FieldType, items: seq<Datum>): set<Bytes>
    decreases items, 0, 0
  {
    if items == [] then {} else HashedInField(h, s, elem, items[0]) + HashedInItems(h, s, elem, items[1..])
  }

  /** What is hashed on the way to `encodeData`: the type text and what the fields hash. */
  ghost function HashedInData(h: Keccak, s: Schema, name: string, v: Datum): set<Bytes>
    requires v.Struct?
    decreases v, 1, 0
  {
    {TextBytes(EncodeType(s, name))} + HashedInFields(h, s, FieldsOf(s, name), v)
  }

  ghost function HashedInFields(h: Keccak, s: Schema, fields: seq<Field>, v: Datum): set<Bytes>
    requires v.Struct?
    decreases v, 0, |fields|
  {
    if fields == [] then {}
    else
      (if fields[0].name in v.fields then HashedInField(h, s, fields[0].typ, v.fields[fields[0].name]) else {})
      + HashedInFields(h, s, fields[1..], v)
  }

  ghost function Encoded(r: Result<Bytes, TypedDataError>): set<Bytes>
  {
    if r.Ok? then {r.value} else {}
  }

  ghost function HashedInStruct(h: Keccak, s: Schema, name: string, v: Datum): set<Bytes>
  {
    if v.Struct? then Encoded(EncodeData(h, s, name, v)) + HashedInData(h, s, name, v) else {}
  }

  /** Everything `GetMessageHash` hashes. */
  ghost function HashedInDigest(h: Keccak, domain: Domain, primary: string, message: Datum): set<Bytes>
  {
    var separator := HashStruct(h, EIP712Types(), DOMAIN, DomainMap(domain));
    var messageHash := HashStruct(h, EIP712Types(), primary, message);
    (if separator.Ok? && messageHash.Ok? then {RawData(separator.value, messageHash.value)} else {})
    + HashedInStruct(h, EIP712Types(), DOMAIN, DomainMap(domain))
    + HashedInStruct(h, EIP712Types(), primary, message)
  }

  /** No string of `a` and different string of `b` have the same hash. */
  ghost predicate NoCollision(h: Keccak, a: set<Bytes>, b: set<Bytes>)
  {
    forall x, y :: x in a && y in b && h(x) == h(y) ==> x == y
  }

  lemma NoCollisionWithin(h: Keccak, a: set<Bytes>, b: set<Bytes>, a': set<Bytes>, b': set<Bytes>)
    requires NoCollision(h, a, b) && a' <= a && b' <= b
    ensures NoCollision(h, a', b')
  {
  }

  //
  // Well-formed schemas
  //

  const PAREN: char := '('

  const BRACKET: char := '['

  ghost predicate DistinctNames(fields: seq<Field>)
  {
    forall i, j :: 0 <= i < j < |fields| ==> fields[i].name != fields[j].name
  }

  predicate PlainName(name: string)
  {
    forall i :: 0 <= i < |name| ==> name[i] < 128 as char && name[i] != PAREN && name[i] != BRACKET
  }

  /** A name as the caller may pass it: any bytes. */
  type Name = n: string | forall i :: 0 <= i < |n| ==> n[i] < 256 as char

  /** Every type has a field, its fields have different names, and its own name is plain text. */
  ghost predicate WellFormed(s: Schema)
  {
    forall n :: n in s ==> PlainName(n) && s[n] != [] && DistinctNames(s[n])
  }

  lemma TableIsWellFormed()
    ensures WellFormed(EIP712Types())
  {
    forall n | n in EIP712Types() ensures PlainName(n) && EIP712Types()[n] != [] && DistinctNames(EIP712Types()[n]) {
      TableFields(n);
      TableNames(n);
    }
  }

  lemma TableNames(n: string)
    requires n in EIP712Types()
    ensures PlainName(n)
  {
    hide PlainName;
    PlainStructNames();
    PlainOperationNames();
  }

  lemma PlainStructNames()
    ensures PlainName("EIP712Domain") && PlainName("MetadataEntry") && PlainName("Cid") && PlainName("PieceMetadata")
  {
  }

  lemma PlainOperationNames()
    ensures PlainName("CreateDataSet") && PlainName("AddPieces")
    ensures PlainName("SchedulePieceRemovals") && PlainName("DeleteDataSet")
  {
  }

  lemma TableFields(n: string)
    requires n in EIP712Types()
    ensures EIP712Types()[n] != [] && DistinctNames(EIP712Types()[n])
  {
    hide PlainName;
  }

  //
  // Binding below the digest
  //

  lemma FirstWords(a: Bytes, b: Bytes, x: Bytes, y: Bytes)
    requires |a| == |b| && a + x == b + y
    ensures a == b && x == y
  {
    assert a == (a + x)[..|a|] && x == (a + x)[|a|..];
    assert b == (b + y)[..|b|] && y == (b + y)[|b|..];
  }

  lemma {:induction false} ItemsLength(h: Keccak, s: Schema, elem: FieldType, items: seq<Datum>)
    ensures EncodeItems(h, s, elem, items).Ok? ==> |EncodeItems(h, s, elem, items).value| == 32 * |items|
  {
    if items != [] {
      ItemsLength(h, s, elem, items[1..]);
    }
  }

  lemma {:induction false} FieldsLength(h: Keccak, s: Schema, fields: seq<Field>, v: Datum)
    requires v.Struct?
    ensures EncodeFields(h, s, fields, v).Ok? ==>
              && |EncodeFields(h, s, fields, v).value| == 32 * |fields|
              && forall i :: 0 <= i < |fields| ==> fields[i].name in v.fields
    decreases fields
  {
    if fields != [] {
      FieldsLength(h, s, fields[1..], v);
    }
  }

  lemma {:induction false} FieldBinding(h: Keccak, s: Schema, t: FieldType, v: Datum, w: Datum)
    requires WellFormed(s)
    requires EncodeField(h, s, t, v).Ok? && EncodeField(h, s, t, v) == EncodeField(h, s, t, w)
    requires NoCollision(h, HashedInField(h, s, t, v), HashedInField(h, s, t, w))
    ensures v == w
    decreases v, 2, 0
  {
    match t
    case UintField => WordInjective(v.n, w.n);
    case AddressField => FirstWords(Zeros(12), Zeros(12), v.a, w.a);
    case StringField =>
    case BytesField =>
    case ArrayField(elem) =>
      var x, y := EncodeItems(h, s, elem, v.items).value, EncodeItems(h, s, elem, w.items).value;
      assert x == y;
      ItemsLength(h, s, elem, v.items);
      ItemsLength(h, s, elem, w.items);
      ItemsBinding(h, s, elem, v.items, w.items);
    case StructField(name) =>
      var x, y := EncodeData(h, s, name, v).value, EncodeData(h, s, name, w).value;
      assert x == y;
      DataBinding(h, s, name, v, w);
  }

  lemma {:induction false} ItemsBinding(h: Keccak, s: Schema, elem: FieldType, vs: seq<Datum>, ws: seq<Datum>)
    requires WellFormed(s) && |vs| == |ws|
    requires EncodeItems(h, s, elem, vs).Ok? && EncodeItems(h, s, elem, vs) == EncodeItems(h, s, elem, ws)
    requires NoCollision(h, HashedInItems(h, s, elem, vs), HashedInItems(h, s, elem, ws))
    ensures vs == ws
    decreases vs, 0, 0
  {
    if vs != [] {
      var a, b := EncodeField(h, s, elem, vs[0]), EncodeField(h, s, elem, ws[0]);
      FirstWords(a.value, b.value, EncodeItems(h, s, elem, vs[1..]).value, EncodeItems(h, s, elem, ws[1..]).value);
      FieldBinding(h, s, elem, vs[0], ws[0]);
      ItemsBinding(h, s, elem, vs[1..], ws[1..]);
    }
  }

  lemma {:induction false} FieldsBinding(h: Keccak, s: Schema, fields: seq<Field>, v: Datum, w: Datum)
    requires WellFormed(s) && v.Struct? && w.Struct?
    requires EncodeFields(h, s, fields, v).Ok? && EncodeFields(h, s, fields, v) == EncodeFields(h, s, fields, w)
    requires NoCollision(h, HashedInFields(h, s, fields, v), HashedInFields(h, s, fields, w))
    ensures forall i :: 0 <= i < |fields| ==>
      fields[i].name in v.fields && fields[i].name in w.fields && v.fields[fields[i].name] == w.fields[fields[i].name]
    decreases v, 0, |fields|
  {
    if fields != [] {
      var f, n := fields[0], fields[0].name;
      var a, b := EncodeField(h, s, f.typ, v.fields[n]), EncodeField(h, s, f.typ, w.fields[n]);
      FirstWords(a.value, b.value, EncodeFields(h, s, fields[1..], v).value, EncodeFields(h, s, fields[1..], w).value);
      FieldBinding(h, s, f.typ, v.fields[n], w.fields[n]);
      FieldsBinding(h, s, fields[1..], v, w);
    }
  }

  lemma {:induction false} DataBinding(h: Keccak, s: Schema, name: string, v: Datum, w: Datum)
    requires WellFormed(s) && v.Struct? && w.Struct?
    requires EncodeData(h, s, name, v).Ok? && EncodeData(h, s, name, v) == EncodeData(h, s, name, w)
    requires NoCollision(h, HashedInData(h, s, name, v), HashedInData(h, s, name, w))
    ensures v == w
    decreases v, 1, 0
  {
    hide EncodeFields, EncodeType, TextBytes, NoCollision;
    var fields := FieldsOf(s, name);
    var typeHash := h(TextBytes(EncodeType(s, name)));
    FirstWords(typeHash, typeHash, EncodeFields(h, s, fields, v).value, EncodeFields(h, s, fields, w).value);
    NoCollisionWithin(h, HashedInData(h, s, name, v), HashedInData(h, s, name, w),
                      HashedInFields(h, s, fields, v), HashedInFields(h, s, fields, w));
    FieldsBinding(h, s, fields, v, w);
    KeysAreNames(fields, v.fields);
    KeysAreNames(fields, w.fields);
  }

  /** A message with as many entries as the type has fields, and all the fields, has nothing else. */
  lemma KeysAreNames(fields: seq<Field>, m: map<string, Datum>)
    requires DistinctNames(fields) && |m| <= |fields|
    requires forall i :: 0 <= i < |fields| ==> fields[i].name in m
    ensures m.Keys == set i | 0 <= i < |fields| :: fields[i].name
  {
    NameCount(fields);
    var names := set i | 0 <= i < |fields| :: fields[i].name;
    assert |m.Keys - names| == |m.Keys| - |names|;
  }

  lemma {:induction false} NameCount(fields: seq<Field>)
    requires DistinctNames(fields)
    ensures |set i | 0 <= i < |fields| :: fields[i].name| == |fields|
  {
    if fields != [] {
      var last := |fields| - 1;
      NameCount(fields[..last]);
      var names := set i | 0 <= i < last :: fields[..last][i].name;
      assert (set i | 0 <= i < |fields| :: fields[i].name) == names + {fields[last].name};
    }
  }

  //
  // Binding of the type and of the whole digest
  //

  lemma {:induction false} BaseIsPrefix(name: string)
    ensures var base := BaseOf(name);
            && name[..|base|] == base && BRACKET !in base
            && (|base| < |name| ==> name[|base|] == BRACKET)
            && (BRACKET !in name ==> base == name)
  {
    if name != "" && name[0] != BRACKET {
      BaseIsPrefix(name[1..]);
    }
  }

  lemma PlainIsBase(s: Schema, name: string)
    requires WellFormed(s) && name in s
    ensures BaseOf(name) == name
  {
    BaseIsPrefix(name);
  }

  /** The type text is the name, its fields if it is a type of the schema, and the texts of the types referred to. */
  lemma TextParts(s: Schema, name: string)
    requires WellFormed(s) && BaseOf(name) in s
    ensures EncodeType(s, name) ==
            (if name in s then name + ("(" + FieldsText(s[name])) + ")" else name + ")")
            + StructTexts(s, Referred(s, BaseOf(name)))
  {
    var order := TypeOrder(s, name);
    assert order[0] == name && order[1..] == Referred(s, BaseOf(name));
  }

  lemma UnknownType(s: Schema, name: string)
    requires BaseOf(name) !in s
    ensures TextBytes(EncodeType(s, name)) == []
  {
  }

  /** The base of the name in a type text ends at the first parenthesis or bracket, which tells whether it is all. */
  lemma BaseInText(s: Schema, name: string)
    requires WellFormed(s) && BaseOf(name) in s
    ensures var text, n := EncodeType(s, name), |BaseOf(name)|;
            && n < |text| && |name| < |text| && text[..|name|] == name && text[..n] == BaseOf(name)
            && text[n] == (if name in s then PAREN else BRACKET)
            && PlainName(BaseOf(name)) && (name in s <==> name == BaseOf(name))
  {
    hide FieldsText, StructTexts, Referred, EncodeType;
    TextParts(s, name);
    BaseIsPrefix(name);
    var text, base := EncodeType(s, name), BaseOf(name);
    assert text[..|name|] == name;
    assert text[..|base|] == name[..|base|];
    if name in s {
      PlainIsBase(s, name);
      assert text[|name|] == PAREN;
    } else {
      assert text[|base|] == name[|base|];
    }
  }

  lemma BytesOfText(t: string, i: nat)
    requires i < |t| && t[i] < 256 as char
    ensures TextBytes(t)[i] == t[i] as int
  {
  }

  /** One plain text that stops at a mark is not a proper prefix of another. */
  lemma SameBase(t: string, u: string, m: nat, n: nat)
    requires TextBytes(t) == TextBytes(u) && m < |t| && n < |u|
    requires PlainName(t[..m]) && PlainName(u[..n])
    requires (t[m] == PAREN || t[m] == BRACKET) && (u[n] == PAREN || u[n] == BRACKET)
    ensures m == n && t[..m] == u[..n] && t[m] == u[n]
  {
    assert |t| == |TextBytes(t)| == |TextBytes(u)| == |u|;
    hide TextBytes;
    assert forall i :: 0 <= i < m ==> t[..m][i] == t[i];
    assert forall i :: 0 <= i < n ==> u[..n][i] == u[i];
    var k := if m < n then m else n;
    forall i | 0 <= i <= k ensures t[i] == u[i] {
      BytesOfText(t, i);
      BytesOfText(u, i);
    }
  }

  lemma TypeTextBinding(s: Schema, p: Name, q: Name)
    requires WellFormed(s) && BaseOf(p) in s && BaseOf(q) in s
    requires TextBytes(EncodeType(s, p)) == TextBytes(EncodeType(s, q))
    ensures p == q
  {
    hide EncodeType, TextBytes, BaseOf, WellFormed, PlainName;
    BaseInText(s, p);
    BaseInText(s, q);
    var t, u := EncodeType(s, p), EncodeType(s, q);
    SameBase(t, u, |BaseOf(p)|, |BaseOf(q)|);
    assert p in s <==> q in s;
    if p !in s {
      BracketTextBinding(s, p, q);
    }
  }

  /** Two bracketed names with one base and one text. */
  lemma BracketTextBinding(s: Schema, p: Name, q: Name)
    requires WellFormed(s) && BaseOf(p) in s && BaseOf(p) == BaseOf(q) && p !in s && q !in s
    requires TextBytes(EncodeType(s, p)) == TextBytes(EncodeType(s, q))
    ensures p == q
  {
    hide EncodeType, BaseOf, WellFormed, StructTexts, Referred;
    TextParts(s, p);
    TextParts(s, q);
    var t, u := EncodeType(s, p), EncodeType(s, q);
    assert |t| == |TextBytes(t)| == |TextBytes(u)| == |u|;
    assert |p| == |q|;
    forall i | 0 <= i < |p| ensures p[i] == q[i] {
      assert t[i] == p[i] && u[i] == q[i];
      BytesOfText(t, i);
      BytesOfText(u, i);
    }
  }

  /** Types outside the schema, even without their brackets, have no text and no fields, so they all hash alike. */
  ghost predicate SameMessage(s: Schema, p: string, v: Datum, q: string, w: Datum)
  {
    v == w && (p == q || (BaseOf(p) !in s && BaseOf(q) !in s))
  }

  /** For every schema, equal struct hashes come from the same type and message. */
  lemma StructBinding(h: Keccak, s: Schema, p: Name, v: Datum, q: Name, w: Datum)
    requires WellFormed(s)
    requires HashStruct(h, s, p, v).Ok? && HashStruct(h, s, p, v) == HashStruct(h, s, q, w)
    requires NoCollision(h, HashedInStruct(h, s, p, v), HashedInStruct(h, s, q, w))
    ensures SameMessage(s, p, v, q, w)
  {
    hide WellFormed, EncodeType, BaseOf;
    var x, y := EncodeData(h, s, p, v).value, EncodeData(h, s, q, w).value;
    assert x == y;
    var a, b := TextBytes(EncodeType(s, p)), TextBytes(EncodeType(s, q));
    assert a in HashedInData(h, s, p, v) && b in HashedInData(h, s, q, w);
    FirstWords(h(a), h(b), EncodeFields(h, s, FieldsOf(s, p), v).value, EncodeFields(h, s, FieldsOf(s, q), w).value);
    assert a == b;
    TextIsEmpty(s, p);
    TextIsEmpty(s, q);
    if BaseOf(p) in s {
      TypeTextBinding(s, p, q);
      DataBinding(h, s, p, v, w);
    } else {
      assert |v.fields| == 0 == |w.fields|;
      assert v.fields == map[] == w.fields;
    }
  }

  /** Only the types that the schema does not know have an empty text, and they are without fields. */
  lemma TextIsEmpty(s: Schema, name: string)
    requires WellFormed(s)
    ensures TextBytes(EncodeType(s, name)) == [] <==> BaseOf(name) !in s
    ensures BaseOf(name) !in s ==> name !in s
  {
    if BaseOf(name) in s {
      BaseInText(s, name);
    } else {
      UnknownType(s, name);
      if name in s {
        PlainIsBase(s, name);
      }
    }
  }

  ghost predicate HasDomain(s: Schema)
  {
    && DOMAIN in s
    && s[DOMAIN] ==
       [Field("name", StringField), Field("version", StringField), Field("chainId", UintField),
           Field("verifyingContract", AddressField)]
  }

  lemma TableHasDomain()
    ensures HasDomain(EIP712Types())
  {
  }

  /** A domain's map shows which of its parts are set, and what they are. */
  lemma DomainMapShows(d: Domain)
    ensures var m := DomainMap(d).fields;
            && ("name" in m <==> d.name != []) && ("version" in m <==> d.version != [])
            && ("chainId" in m <==> d.chainId.Some?) && ("verifyingContract" in m <==> d.verifyingContract.Some?)
            && ("salt" in m <==> d.salt != [])
            && (d.name != [] ==> m["name"] == Str(d.name)) && (d.version != [] ==> m["version"] == Str(d.version))
            && (d.chainId.Some? ==> m["chainId"] == Uint(d.chainId.value))
            && (d.verifyingContract.Some? ==> m["verifyingContract"] == Account(d.verifyingContract.value))
  {
  }

  /** A domain that hashes has all its parts and no salt. */
  lemma DomainComplete(h: Keccak, s: Schema, d: Domain)
    requires HasDomain(s)
    ensures HashStruct(h, s, DOMAIN, DomainMap(d)).Ok? ==>
              d.name != [] && d.version != [] && d.chainId.Some? && d.verifyingContract.Some? && d.salt == []
  {
    hide DomainMap, EncodeFields, EncodeType;
    if HashStruct(h, s, DOMAIN, DomainMap(d)).Ok? {
      DomainHasParts(h, s, d);
    }
  }

  lemma DomainHasParts(h: Keccak, s: Schema, d: Domain)
    requires HasDomain(s) && HashStruct(h, s, DOMAIN, DomainMap(d)).Ok?
    ensures d.name != [] && d.version != [] && d.chainId.Some? && d.verifyingContract.Some? && d.salt == []
  {
    hide DomainMap, EncodeFields, EncodeType;
    DomainMapShows(d);
    var fields, m := s[DOMAIN], DomainMap(d);
    FieldsLength(h, s, fields, m);
    assert fields[0].name in m.fields && fields[1].name in m.fields && fields[2].name in m.fields
        && fields[3].name in m.fields;
    KeysAreNames(fields, m.fields);
    assert "salt" !in m.fields.Keys;
  }

  /**
   Equal digests come from equal inputs, when no string hashed for one collides with one hashed for the
   other; the only other case is two primary types that the table does not know, even without their brackets.
   */
  lemma DigestBinding(h: Keccak, d: Domain, p: Name, v: Datum, d': Domain, q: Name, w: Datum)
    ensures GetMessageHash(h, d, p, v).Ok? && GetMessageHash(h, d', q, w).Ok?
            && NoCollision(h, HashedInDigest(h, d, p, v), HashedInDigest(h, d', q, w)) ==>
              (GetMessageHash(h, d, p, v) == GetMessageHash(h, d', q, w) <==>
               d == d' && SameMessage(EIP712Types(), p, v, q, w))
  {
    hide EIP712Types, DomainMap, HashStruct, WellFormed, HasDomain, NoCollision;
    var s := EIP712Types();
    if GetMessageHash(h, d, p, v).Ok? && GetMessageHash(h, d', q, w).Ok? {
      if NoCollision(h, HashedInDigest(h, d, p, v), HashedInDigest(h, d', q, w))
          && GetMessageHash(h, d, p, v) == GetMessageHash(h, d', q, w) {
        EqualDigests(h, d, p, v, d', q, w);
      }
      if d == d' && SameMessage(s, p, v, q, w) && p != q {
        UnknownTypesAlike(h, p, q, v);
      }
    }
  }

  lemma EqualDigests(h: Keccak, d: Domain, p: Name, v: Datum, d': Domain, q: Name, w: Datum)
    requires GetMessageHash(h, d, p, v).Ok? && GetMessageHash(h, d, p, v) == GetMessageHash(h, d', q, w)
    requires NoCollision(h, HashedInDigest(h, d, p, v), HashedInDigest(h, d', q, w))
    ensures d == d' && SameMessage(EIP712Types(), p, v, q, w)
  {
    hide EIP712Types, DomainMap, HashStruct, HashedInStruct, WellFormed, HasDomain, NoCollision, SameMessage;
    var s := EIP712Types();
    TableIsWellFormed();
    TableHasDomain();
    var a, b := HashStruct(h, s, DOMAIN, DomainMap(d)).value, HashStruct(h, s, p, v).value;
    var a', b' := HashStruct(h, s, DOMAIN, DomainMap(d')).value, HashStruct(h, s, q, w).value;
    var hashed, hashed' := HashedInDigest(h, d, p, v), HashedInDigest(h, d', q, w);
    RawDataBinding(h, a, b, a', b', hashed, hashed');
    NoCollisionWithin(h, hashed, hashed', HashedInStruct(h, s, p, v), HashedInStruct(h, s, q, w));
    StructBinding(h, s, p, v, q, w);
    NoCollisionWithin(h, hashed, hashed', HashedInStruct(h, s, DOMAIN, DomainMap(d)),
        HashedInStruct(h, s, DOMAIN, DomainMap(d')));
    DomainBinding(h, s, d, d');
  }

  lemma RawDataBinding(h: Keccak, a: Word32, b: Word32, a': Word32, b': Word32, x: set<Bytes>, y: set<Bytes>)
    requires RawData(a, b) in x && RawData(a', b') in y && NoCollision(h, x, y)
    requires h(RawData(a, b)) == h(RawData(a', b'))
    ensures a == a' && b == b'
  {
    assert RawData(a, b) == RawData(a', b');
    FirstWords([0x19, 0x01] + a, [0x19, 0x01] + a', b, b');
    FirstWords([0x19, 0x01], [0x19, 0x01], a, a');
  }

  /** Equal domain separators come from equal domains. */
  lemma DomainBinding(h: Keccak, s: Schema, d: Domain, d': Domain)
    requires WellFormed(s) && HasDomain(s)
    requires HashStruct(h, s, DOMAIN, DomainMap(d)).Ok?
    requires HashStruct(h, s, DOMAIN, DomainMap(d)) == HashStruct(h, s, DOMAIN, DomainMap(d'))
    requires NoCollision(h, HashedInStruct(h, s, DOMAIN, DomainMap(d)), HashedInStruct(h, s, DOMAIN, DomainMap(d')))
    ensures d == d'
  {
    hide DomainMap, HashStruct, HashedInStruct, WellFormed, HasDomain, NoCollision;
    StructBinding(h, s, DOMAIN, DomainMap(d), DOMAIN, DomainMap(d'));
    SameDomain(h, s, d, d');
  }

  lemma SameDomain(h: Keccak, s: Schema, d: Domain, d': Domain)
    requires HasDomain(s) && HashStruct(h, s, DOMAIN, DomainMap(d)).Ok? && DomainMap(d) == DomainMap(d')
    ensures d == d'
  {
    hide DomainMap, HashStruct, HasDomain;
    DomainComplete(h, s, d);
    DomainComplete(h, s, d');
    DomainMapShows(d);
    DomainMapShows(d');
  }

  lemma UnknownTypesAlike(h: Keccak, p: string, q: string, v: Datum)
    requires BaseOf(p) !in EIP712Types() && BaseOf(q) !in EIP712Types()
    ensures HashStruct(h, EIP712Types(), p, v) == HashStruct(h, EIP712Types(), q, v)
  {
    hide EIP712Types, BaseOf, EncodeType, WellFormed;
    TableIsWellFormed();
    TextIsEmpty(EIP712Types(), p);
    TextIsEmpty(EIP712Types(), q);
  }

  /** The contrapositive: equal digests of different inputs hand over a collision among what was hashed. */
  lemma DigestCollision(h: Keccak, d: Domain, p: Name, v: Datum, d': Domain, q: Name, w: Datum)
    returns (x: Bytes, y: Bytes)
    ensures GetMessageHash(h, d, p, v).Ok? && GetMessageHash(h, d, p, v) == GetMessageHash(h, d', q, w)
            && (d != d' || !SameMessage(EIP712Types(), p, v, q, w)) ==>
              x in HashedInDigest(h, d, p, v) && y in HashedInDigest(h, d', q, w) && x != y && h(x) == h(y)
  {
    hide GetMessageHash, HashedInDigest, EIP712Types, SameMessage;
    DigestBinding(h, d, p, v, d', q, w);
    x, y := [], [];
    if !NoCollision(h, HashedInDigest(h, d, p, v), HashedInDigest(h, d', q, w)) {
      x, y :| x in HashedInDigest(h, d, p, v) && y in HashedInDigest(h, d', q, w) && h(x) == h(y) && x != y;
    }
  }
}
