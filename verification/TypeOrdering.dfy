/**
 Which struct types `encodeType` lists: the primary type first, then every other type it refers to,
 directly or not, once each and in ascending order of name, and no others.
 */
module TypeOrdering {
  import opened Bytes
  import opened TypedData

  ghost predicate NoRepeats(names: seq<string>)
  {
    forall i, j :: 0 <= i < j < |names| ==> names[i] != names[j]
  }

  /** Every struct type that a field refers to is among `names`. */
  ghost predicate FieldsWithin(s: Schema, fields: seq<Field>, names: set<string>)
  {
    forall f :: f in fields && BaseName(f.typ) in s ==> BaseName(f.typ) in names
  }

  ghost predicate Closed(s: Schema, names: set<string>)
  {
    forall n :: n in names && n in s ==> FieldsWithin(s, s[n], names)
  }

  lemma WithinMore(s: Schema, fields: seq<Field>, a: set<string>, b: set<string>)
    requires FieldsWithin(s, fields, a) && a <= b
    ensures FieldsWithin(s, fields, b)
  {
  }

  /** What the search adds is in the table, is new, and has all it refers to in the result. */
  ghost predicate Completed(s: Schema, found: seq<string>, r: seq<string>)
  {
    && found <= r
    && (NoRepeats(found) ==> NoRepeats(r))
    && forall n :: n in r && n !in found ==> n in s && FieldsWithin(s, s[n], Elements(r))
  }

  lemma CompletedTwice(s: Schema, a: seq<string>, b: seq<string>, c: seq<string>)
    requires Completed(s, a, b) && Completed(s, b, c)
    ensures Completed(s, a, c)
  {
    assert forall n :: n in b ==> n in c;
    forall n | n in c && n !in a ensures n in s && FieldsWithin(s, s[n], Elements(c)) {
      if n in b { WithinMore(s, s[n], Elements(b), Elements(c)); }
    }
  }

  lemma {:induction false} DependenciesComplete(s: Schema, t: string, found: seq<string>)
    ensures Completed(s, found, Dependencies(s, t, found))
    ensures t in s ==> t in Dependencies(s, t, found)
    decreases s.Keys - Elements(found), 1, 0
  {
    if t !in found && t in s {
      var next := found + [t];
      assert t in s.Keys - Elements(found) && t !in s.Keys - Elements(next);
      FieldDependenciesComplete(s, s[t], next);
      var r := Dependencies(s, t, found);
      assert r[|found|] == t;
      forall n | n in r && n !in found ensures n in s && FieldsWithin(s, s[n], Elements(r)) {}
    }
  }

  lemma {:induction false} FieldDependenciesComplete(s: Schema, fields: seq<Field>, found: seq<string>)
    ensures Completed(s, found, FieldDependencies(s, fields, found))
    ensures FieldsWithin(s, fields, Elements(FieldDependencies(s, fields, found)))
    decreases s.Keys - Elements(found), 2, |fields|
  {
    if fields != [] {
      var next := Dependencies(s, BaseName(fields[0].typ), found);
      DependenciesComplete(s, BaseName(fields[0].typ), found);
      assert forall n :: n in found ==> n in next;
      assert s.Keys - Elements(next) <= s.Keys - Elements(found);
      FieldDependenciesComplete(s, fields[1..], next);
      var r := FieldDependencies(s, fields, found);
      CompletedTwice(s, found, next, r);
      assert forall n :: n in next ==> n in r;
      assert forall f :: f in fields ==> f == fields[0] || f in fields[1..];
    }
  }

  lemma {:induction false} DependenciesNeeded(s: Schema, t: string, found: seq<string>, closed: set<string>)
    requires Closed(s, closed) && Elements(found) <= closed && t in closed
    ensures Elements(Dependencies(s, t, found)) <= closed
    decreases s.Keys - Elements(found), 1, 0
  {
    if t !in found && t in s {
      var next := found + [t];
      assert t in s.Keys - Elements(found) && t !in s.Keys - Elements(next);
      FieldDependenciesNeeded(s, s[t], next, closed);
    }
  }

  lemma {:induction false} FieldDependenciesNeeded(s: Schema, fields: seq<Field>, found: seq<string>,
      closed: set<string>)
    requires Closed(s, closed) && Elements(found) <= closed && FieldsWithin(s, fields, closed)
    ensures Elements(FieldDependencies(s, fields, found)) <= closed
    decreases s.Keys - Elements(found), 2, |fields|
  {
    if fields != [] {
      var base := BaseName(fields[0].typ);
      var next := Dependencies(s, base, found);
      assert forall n :: n in found ==> n in next;
      assert s.Keys - Elements(next) <= s.Keys - Elements(found);
      if base in s {
        DependenciesNeeded(s, base, found, closed);
      }
      assert FieldsWithin(s, fields[1..], closed);
      FieldDependenciesNeeded(s, fields[1..], next, closed);
    }
  }

  //
  // Sorting
  //

  ghost predicate Ascending(names: seq<string>)
  {
    forall i :: 0 <= i < |names| - 1 ==> NameLe(names[i], names[i + 1])
  }

  lemma {:induction false} NameLeTotal(a: string, b: string)
    ensures NameLe(a, b) || NameLe(b, a)
  {
    if a != [] && b != [] && a[0] == b[0] {
      NameLeTotal(a[1..], b[1..]);
    }
  }

  lemma {:induction false} InsertSorts(x: string, names: seq<string>)
    requires Ascending(names)
    ensures Ascending(Insert(x, names)) && multiset(Insert(x, names)) == multiset(names) + multiset{x}
    ensures Insert(x, names)[0] == x || (names != [] && Insert(x, names)[0] == names[0])
  {
    hide NameLe;
    if names != [] && !NameLe(x, names[0]) {
      InsertSorts(x, names[1..]);
      NameLeTotal(x, names[0]);
      assert names == [names[0]] + names[1..];
    }
  }

  lemma {:induction false} SortSorts(names: seq<string>)
    ensures Ascending(Sort(names)) && multiset(Sort(names)) == multiset(names)
  {
    hide Insert;
    if names != [] {
      SortSorts(names[1..]);
      InsertSorts(names[0], Sort(names[1..]));
      assert names == [names[0]] + names[1..];
    }
  }

  lemma {:induction false} CountOfNoRepeats(names: seq<string>)
    requires NoRepeats(names)
    ensures forall n :: multiset(names)[n] <= 1
  {
    if names != [] {
      var first, rest := names[0], names[1..];
      assert names == [first] + rest;
      CountOfNoRepeats(rest);
      assert first !in rest && first !in multiset(rest);
    }
  }

  lemma {:induction false} NoRepeatsOfCount(names: seq<string>)
    requires forall n :: multiset(names)[n] <= 1
    ensures NoRepeats(names)
  {
    if names != [] {
      var first, rest := names[0], names[1..];
      assert names == [first] + rest;
      forall n ensures multiset(rest)[n] <= 1 {
        assert multiset(names)[n] <= 1;
      }
      assert multiset(names)[first] <= 1;
      assert first !in multiset(rest);
      NoRepeatsOfCount(rest);
    }
  }

  /**
   The type order is the primary type and then, ascending and without repeats, the rest of the types of the
   smallest set that contains the primary type, without its brackets, and everything its members refer to.
   */
  lemma TypeOrderExact(s: Schema, primary: string)
    requires BaseOf(primary) in s
    ensures var order, base := TypeOrder(s, primary), BaseOf(primary);
            && order != [] && order[0] == primary
            && Ascending(order[1..])
            && var types := [base] + order[1..];
               && NoRepeats(types)
               && (forall n :: n in types ==> n in s)
               && Closed(s, Elements(types))
               && forall closed: set<string> :: Closed(s, closed) && base in closed ==> Elements(types) <= closed
  {
    hide Closed, Ascending, NoRepeats, BaseOf;
    var base := BaseOf(primary);
    var order := TypeOrder(s, primary);
    assert order == [primary] + Referred(s, base) && order[1..] == Referred(s, base);
    ReferredExact(s, base);
  }

  lemma ReferredExact(s: Schema, base: string)
    requires base in s
    ensures var others := Referred(s, base);
            var types := [base] + others;
            && Ascending(others) && NoRepeats(types)
            && (forall n :: n in types ==> n in s)
            && Closed(s, Elements(types))
            && forall closed: set<string> :: Closed(s, closed) && base in closed ==> Elements(types) <= closed
  {
    var deps, others := Dependencies(s, base, []), Referred(s, base);
    var types := [base] + others;
    DependenciesComplete(s, base, []);
    SortSorts(deps[1..]);
    CountOfNoRepeats(deps);
    hide Ascending, NoRepeats, Referred, Sort, Dependencies;
    SameMultiset(base, deps, types);
    NoRepeatsOfCount(types);
    assert Closed(s, Elements(types));
    forall closed: set<string> | Closed(s, closed) && base in closed ensures Elements(types) <= closed {
      DependenciesNeeded(s, base, [], closed);
    }
  }

  lemma SameMultiset(base: string, deps: seq<string>, types: seq<string>)
    requires deps != [] && deps[0] == base && types != [] && types[0] == base
    requires multiset(types[1..]) == multiset(deps[1..])
    ensures multiset(types) == multiset(deps) && Elements(types) == Elements(deps)
    ensures forall n :: n in types <==> n in deps
  {
    assert deps == [base] + deps[1..] && types == [base] + types[1..];
    assert multiset(types) == multiset(deps);
    assert forall n :: n in types <==> n in multiset(types);
    assert forall n :: n in deps <==> n in multiset(deps);
  }
}
