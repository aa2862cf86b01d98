/** The canonical serializer ignores the order of object keys and nothing else. */
module ConfigHashLaws {
  import opened ConfigHash

  type Field = Pair<Json>

  lemma {:induction false} LessIsTotal(a: string, b: string)
    ensures Less(a, b) || Less(b, a) || a == b
    ensures !(Less(a, b) && Less(b, a))
    ensures !Less(a, a)
  {
    if a != "" && b != "" && a[0] == b[0] {
      LessIsTotal(a[1..], b[1..]);
      assert a == [a[0]] + a[1..] && b == [b[0]] + b[1..];
    }
    LessIsIrreflexive(a);
  }

  lemma {:induction false} LessIsIrreflexive(a: string)
    ensures !Less(a, a)
  {
    if a != "" {
      LessIsIrreflexive(a[1..]);
    }
  }

  lemma {:induction false} LessIsTransitive(a: string, b: string, c: string)
    requires Less(a, b) && Less(b, c)
    ensures Less(a, c)
  {
    if a != "" && a[0] == b[0] == c[0] {
      LessIsTransitive(a[1..], b[1..], c[1..]);
    }
  }

  ghost predicate Ascending(s: seq<Field>) {
    forall i, j :: 0 <= i < j < |s| ==> Less(s[i].key, s[j].key)
  }

  ghost predicate DistinctKeys(s: seq<Field>) {
    forall i, j :: 0 <= i < j < |s| ==> s[i].key != s[j].key
  }

  lemma {:induction false} InsertMembers(p: Field, s: seq<Field>)
    ensures forall q :: q in Insert(p, s) <==> q == p || q in s
  {
    if s != [] && Less(s[0].key, p.key) {
      InsertMembers(p, s[1..]);
    }
  }

  lemma HeadBelowTail(s: seq<Field>)
    requires Ascending(s) && s != []
    ensures forall q :: q in s[1..] ==> Less(s[0].key, q.key)
  {
    hide Less;
    forall q | q in s[1..]
      ensures Less(s[0].key, q.key)
    {
      var k :| 0 <= k < |s[1..]| && s[1..][k] == q;
      assert s[k + 1] == q;
    }
  }

  lemma PrependAscending(p: Field, s: seq<Field>)
    requires Ascending(s) && forall q :: q in s ==> Less(p.key, q.key)
    ensures Ascending([p] + s)
  {
    hide Less;
    assert forall j :: 0 <= j < |s| ==> s[j] in s;
  }

  lemma {:induction false} InsertAscending(p: Field, s: seq<Field>)
    requires Ascending(s) && forall q :: q in s ==> q.key != p.key
    ensures Ascending(Insert(p, s))
  {
    hide Less;
    if s != [] {
      HeadBelowTail(s);
      assert s[0] in s;
      if Less(s[0].key, p.key) {
        InsertAscending(p, s[1..]);
        InsertMembers(p, s[1..]);
        PrependAscending(s[0], Insert(p, s[1..]));
      } else {
        LessIsTotal(s[0].key, p.key);
        forall q | q in s
          ensures Less(p.key, q.key)
        {
          if q != s[0] {
            assert q in s[1..];
            LessIsTransitive(p.key, s[0].key, q.key);
          }
        }
        PrependAscending(p, s);
      }
    }
  }

  lemma {:induction false} SortMembers(s: seq<Field>)
    ensures forall q :: q in SortByKey(s) <==> q in s
  {
    if s != [] {
      SortMembers(s[1..]);
      InsertMembers(s[0], SortByKey(s[1..]));
    }
  }

  lemma {:induction false} SortAscending(s: seq<Field>)
    requires DistinctKeys(s)
    ensures Ascending(SortByKey(s))
  {
    hide Less;
    if s != [] {
      SortAscending(s[1..]);
      SortMembers(s[1..]);
      forall q | q in SortByKey(s[1..])
        ensures q.key != s[0].key
      {
        var k :| 0 <= k < |s[1..]| && s[1..][k] == q;
        assert s[k + 1] == q;
      }
      InsertAscending(s[0], SortByKey(s[1..]));
    }
  }

  /** A list in strictly ascending key order is determined by its members. */
  lemma {:induction false} AscendingIsUnique(s: seq<Field>, t: seq<Field>)
    requires Ascending(s) && Ascending(t)
    requires (forall i :: 0 <= i < |s| ==> s[i] in t) && (forall k :: 0 <= k < |t| ==> t[k] in s)
    ensures s == t
  {
    hide Less, Ascending;
    assert (t != [] ==> t[0] in s) && (s != [] ==> s[0] in t);
    if s != [] && t != [] {
      SameHead(s, t);
      TailMembers(s, t);
      TailMembers(t, s);
      TailAscending(s);
      TailAscending(t);
      AscendingIsUnique(s[1..], t[1..]);
      assert s == [s[0]] + s[1..] && t == [t[0]] + t[1..];
    }
  }

  lemma TailAscending(s: seq<Field>)
    requires Ascending(s) && s != []
    ensures Ascending(s[1..])
  {
  }

  lemma SameHead(s: seq<Field>, t: seq<Field>)
    requires Ascending(s) && Ascending(t) && s != [] && t != []
    requires s[0] in t && t[0] in s
    ensures s[0] == t[0]
  {
    hide Less;
    var k :| 0 <= k < |t| && t[k] == s[0];
    var m :| 0 <= m < |s| && s[m] == t[0];
    LessIsTotal(s[0].key, t[0].key);
  }

  lemma TailMembers(s: seq<Field>, t: seq<Field>)
    requires Ascending(s) && s != [] && t != [] && s[0] == t[0]
    requires forall i :: 0 <= i < |s| ==> s[i] in t
    ensures forall i :: 0 <= i < |s[1..]| ==> s[1..][i] in t[1..]
  {
    hide Less;
    forall i | 0 <= i < |s[1..]|
      ensures s[1..][i] in t[1..]
    {
      var q := s[i + 1];
      LessIsTotal(s[0].key, q.key);
      var k :| 0 <= k < |t| && t[k] == q;
      assert t[1..][k - 1] == q;
    }
  }

  // ---------------------------------------------------------------------------------------------
  // Equality up to key order
  // ---------------------------------------------------------------------------------------------

  /** Every object has distinct keys, as JavaScript objects do. */
  ghost predicate WellFormed(j: Json)
    decreases j
  {
    match j
    case Leaf(_) => true
    case Arr(items) => forall i :: 0 <= i < |items| ==> WellFormed(items[i])
    case Obj(fields) => DistinctKeys(fields) && forall i :: 0 <= i < |fields| ==> WellFormed(fields[i].value)
  }

  /** The same tree, when properties are looked up by key instead of listed in order. */
  ghost predicate Same(a: Json, b: Json)
    decreases a, 1
  {
    match a
    case Leaf(_) => a == b
    case Arr(items) =>
      b.Arr? && |items| == |b.items| && forall i :: 0 <= i < |items| ==> Same(items[i], b.items[i])
    case Obj(fields) =>
      && b.Obj?
      && (forall i :: 0 <= i < |fields| ==> SameField(fields[i], b.fields))
      && (forall k :: 0 <= k < |b.fields| ==> HasKey(fields, b.fields[k].key))
  }

  ghost predicate SameField(f: Field, fields: seq<Field>)
    decreases f, 0
  {
    exists k :: 0 <= k < |fields| && fields[k].key == f.key && Same(f.value, fields[k].value)
  }

  ghost predicate HasKey(fields: seq<Field>, key: string) {
    exists i :: 0 <= i < |fields| && fields[i].key == key
  }

  /** Some property has the key of `f` and a value with the same canonical form. */
  ghost predicate CanonField(f: Field, fields: seq<Field>) {
    exists k :: 0 <= k < |fields| && fields[k].key == f.key && Canon(fields[k].value) == Canon(f.value)
  }

  lemma {:induction false} SameIfCanonEqual(a: Json, b: Json)
    requires Canon(a) == Canon(b)
    ensures Same(a, b)
    decreases a, 1
  {
    match a
    case Leaf(_) =>
    case Arr(items) => SameItems(items, b.items);
    case Obj(fields) => SameFields(fields, b.fields);
  }

  lemma {:induction false} SameItems(xs: seq<Json>, ys: seq<Json>)
    requires CanonItems(xs) == CanonItems(ys)
    ensures Same(Arr(xs), Arr(ys))
    decreases xs, 0
  {
    hide Canon;
    assert |xs| == |CanonItems(xs)| == |ys|;
    forall i | 0 <= i < |xs|
      ensures Same(xs[i], ys[i])
    {
      assert CanonItems(xs)[i] == CanonItems(ys)[i];
      SameIfCanonEqual(xs[i], ys[i]);
    }
  }

  lemma {:induction false} SameFields(xs: seq<Field>, ys: seq<Field>)
    requires SortByKey(CanonFields(xs)) == SortByKey(CanonFields(ys))
    ensures Same(Obj(xs), Obj(ys))
    decreases xs, 0
  {
    hide Canon, SortByKey, CanonFields;
    forall i | 0 <= i < |xs|
      ensures SameField(xs[i], ys)
    {
      var k := Counterpart(xs, ys, i);
      SameIfCanonEqual(xs[i].value, ys[k].value);
    }
    forall k | 0 <= k < |ys|
      ensures HasKey(xs, ys[k].key)
    {
      var i := Counterpart(ys, xs, k);
    }
  }

  lemma Counterpart(xs: seq<Field>, ys: seq<Field>, i: nat) returns (k: nat)
    requires SortByKey(CanonFields(xs)) == SortByKey(CanonFields(ys)) && i < |xs|
    ensures k < |ys| && ys[k].key == xs[i].key && Canon(ys[k].value) == Canon(xs[i].value)
  {
    hide Canon, SortByKey;
    SortMembers(CanonFields(xs));
    SortMembers(CanonFields(ys));
    var p := CanonFields(xs)[i];
    assert p in CanonFields(xs);
    assert p in SortByKey(CanonFields(ys));
    k :| 0 <= k < |ys| && CanonFields(ys)[k] == p;
  }

  lemma {:induction false} CanonEqualIfSame(a: Json, b: Json)
    requires WellFormed(a) && WellFormed(b) && Same(a, b)
    ensures Canon(a) == Canon(b)
    decreases a
  {
    match a
    case Leaf(_) =>
    case Arr(items) =>
      forall i | 0 <= i < |items|
        ensures Canon(items[i]) == Canon(b.items[i])
      {
        CanonEqualIfSame(items[i], b.items[i]);
      }
      assert CanonItems(items) == CanonItems(b.items);
    case Obj(fields) =>
      hide SortByKey, DistinctKeys;
      forall i | 0 <= i < |fields|
        ensures CanonField(fields[i], b.fields)
      {
        assert SameField(fields[i], b.fields);
        var k :| 0 <= k < |b.fields| && b.fields[k].key == fields[i].key && Same(fields[i].value, b.fields[k].value);
        CanonEqualIfSame(fields[i].value, b.fields[k].value);
      }
      CanonFieldsMatch(fields, b.fields);
  }

  lemma CanonFieldsMatch(xs: seq<Field>, ys: seq<Field>)
    requires DistinctKeys(xs) && DistinctKeys(ys)
    requires forall i :: 0 <= i < |xs| ==> CanonField(xs[i], ys)
    requires forall k :: 0 <= k < |ys| ==> HasKey(xs, ys[k].key)
    ensures SortByKey(CanonFields(xs)) == SortByKey(CanonFields(ys))
  {
    hide Canon, SortByKey, CanonField, HasKey;
    var cx, cy := CanonFields(xs), CanonFields(ys);
    forall i | 0 <= i < |xs|
      ensures cx[i] in cy
    {
      CanonFieldMember(xs, ys, i);
    }
    forall m | 0 <= m < |ys|
      ensures cy[m] in cx
    {
      CanonFieldBack(xs, ys, m);
    }
    SortedByMembers(cx, cy);
  }

  lemma CanonFieldMember(xs: seq<Field>, ys: seq<Field>, i: nat)
    requires i < |xs| && CanonField(xs[i], ys)
    ensures CanonFields(xs)[i] in CanonFields(ys)
  {
    hide Canon;
    var k :| 0 <= k < |ys| && ys[k].key == xs[i].key && Canon(ys[k].value) == Canon(xs[i].value);
    assert CanonFields(ys)[k] == CanonFields(xs)[i];
  }

  lemma CanonFieldBack(xs: seq<Field>, ys: seq<Field>, m: nat)
    requires DistinctKeys(ys) && m < |ys| && HasKey(xs, ys[m].key)
    requires forall i :: 0 <= i < |xs| ==> CanonField(xs[i], ys)
    ensures CanonFields(ys)[m] in CanonFields(xs)
  {
    hide Canon;
    var i :| 0 <= i < |xs| && xs[i].key == ys[m].key;
    assert CanonField(xs[i], ys);
    var k :| 0 <= k < |ys| && ys[k].key == xs[i].key && Canon(ys[k].value) == Canon(xs[i].value);
    assert k == m && CanonFields(xs)[i] == CanonFields(ys)[m];
  }

  lemma SortedByMembers(xs: seq<Field>, ys: seq<Field>)
    requires DistinctKeys(xs) && DistinctKeys(ys)
    requires (forall i :: 0 <= i < |xs| ==> xs[i] in ys) && (forall k :: 0 <= k < |ys| ==> ys[k] in xs)
    ensures SortByKey(xs) == SortByKey(ys)
  {
    hide SortByKey, DistinctKeys, Ascending;
    SortAscending(xs);
    SortAscending(ys);
    MembersCarryOver(xs, ys);
    MembersCarryOver(ys, xs);
    AscendingIsUnique(SortByKey(xs), SortByKey(ys));
  }

  lemma MembersCarryOver(xs: seq<Field>, ys: seq<Field>)
    requires forall i :: 0 <= i < |xs| ==> xs[i] in ys
    ensures forall i :: 0 <= i < |SortByKey(xs)| ==> SortByKey(xs)[i] in SortByKey(ys)
  {
    hide SortByKey;
    SortMembers(xs);
    SortMembers(ys);
    forall i | 0 <= i < |SortByKey(xs)|
      ensures SortByKey(xs)[i] in SortByKey(ys)
    {
      var q := SortByKey(xs)[i];
      assert q in SortByKey(xs);
      assert q in xs;
    }
  }

  /** Canonical serialization: two trees print the same tokens exactly when they are the same tree up to
      the order of object keys. */
  lemma SerializeIffSame(a: Json, b: Json)
    requires WellFormed(a) && WellFormed(b)
    ensures Serialize(a) == Serialize(b) <==> Same(a, b)
  {
    hide Serialize, Canon, Same, WellFormed;
    SerializeIffCanon(a, b);
    if Canon(a) == Canon(b) {
      SameIfCanonEqual(a, b);
    }
    if Same(a, b) {
      CanonEqualIfSame(a, b);
    }
  }
}
