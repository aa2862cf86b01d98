/** The order in which the serializer lists keys, and what it prints for one value. */
module HashMeaning {
  import opened ConfigHash

  /** One string comes before another when it is a proper start of it, or when at the first place where they differ
      it has the smaller character. */
  ghost predicate Before(a: string, b: string) {
    || a < b
    || exists k :: 0 <= k < |a| && k < |b| && a[..k] == b[..k] && a[k] < b[k]
  }

  lemma {:induction false} LessMeaning(a: string, b: string)
    ensures Less(a, b) <==> Before(a, b)
  {
    if a == "" || b == "" {
    } else if a[0] != b[0] {
      if a[0] < b[0] {
        assert a[..0] == b[..0];
      }
      if k :| 0 <= k < |a| && k < |b| && a[..k] == b[..k] && a[k] < b[k] {
        assert k > 0 ==> a[..k][0] == b[..k][0];
      }
    } else {
      LessMeaning(a[1..], b[1..]);
      SameFirst(a, b);
    }
  }

  lemma SameFirst(a: string, b: string)
    requires a != "" && b != "" && a[0] == b[0]
    ensures Before(a, b) <==> Before(a[1..], b[1..])
  {
    if k :| 0 <= k < |a| && k < |b| && a[..k] == b[..k] && a[k] < b[k] {
      assert k > 0;
      assert a[1..][..k - 1] == a[..k][1..] && b[1..][..k - 1] == b[..k][1..];
      assert a[1..][k - 1] < b[1..][k - 1];
    }
    if k :| 0 <= k < |a[1..]| && k < |b[1..]| && a[1..][..k] == b[1..][..k] && a[1..][k] < b[1..][k] {
      assert a[..k + 1] == [a[0]] + a[1..][..k] && b[..k + 1] == [b[0]] + b[1..][..k];
      assert a[k + 1] < b[k + 1];
    }
  }

  const EXAMPLE := Obj([Pair("b", Arr([Leaf("1"), Leaf("2")])), Pair("a", Obj([]))])

  /** An object with keys b and a, the one a list of two numbers and the other empty: the keys change places, and
      everything else keeps its order. */
  lemma SerializeExample()
    ensures Serialize(EXAMPLE)
            == [LBrace, Atom("a"), Colon, LBrace, RBrace, Comma,
                Atom("b"), Colon, LBracket, Atom("1"), Comma, Atom("2"), RBracket, RBrace]
  {
    var list, empty := Arr([Leaf("1"), Leaf("2")]), Obj([]);
    var b, a := Pair("b", Serialize(list)), Pair("a", Serialize(empty));
    ListTokens();
    EmptyTokens();
    TwoFields(Pair("b", list), Pair("a", empty));
    Sorted(b, a);
    TwoJoined(a, b);
    hide SerializeFields, SortByKey, FieldParts, CommaJoin;
    assert Serialize(EXAMPLE) == [LBrace] + (FieldTokens(a) + [Comma] + FieldTokens(b)) + [RBrace];
  }

  lemma EmptyTokens()
    ensures Serialize(Obj([])) == [LBrace, RBrace]
  {
    assert SerializeFields([]) == [] && FieldParts([]) == [];
  }

  lemma TwoFields(x: Pair<Json>, y: Pair<Json>)
    ensures SerializeFields([x, y]) == [Pair(x.key, Serialize(x.value)), Pair(y.key, Serialize(y.value))]
  {
    hide Serialize;
    assert [x, y][1..] == [y] && [y][1..] == [];
    assert SerializeFields([y]) == [Pair(y.key, Serialize(y.value))];
  }

  lemma TwoJoined(a: Pair<seq<Token>>, b: Pair<seq<Token>>)
    ensures CommaJoin(FieldParts([a, b])) == FieldTokens(a) + [Comma] + FieldTokens(b)
  {
    hide FieldTokens;
    assert FieldParts([a, b]) == [FieldTokens(a), FieldTokens(b)];
    assert [FieldTokens(a), FieldTokens(b)][1..] == [FieldTokens(b)];
  }

  lemma Sorted(b: Pair<seq<Token>>, a: Pair<seq<Token>>)
    requires b.key == "b" && a.key == "a"
    ensures SortByKey([b, a]) == [a, b]
  {
    assert [b, a][1..] == [a] && [a][1..] == [];
    assert Less("a", "b") && !Less("b", "a");
    assert SortByKey([a]) == [a];
    assert Insert(b, []) == [b];
  }

  lemma ListTokens()
    ensures Serialize(Arr([Leaf("1"), Leaf("2")])) == [LBracket, Atom("1"), Comma, Atom("2"), RBracket]
  {
    var items := [Leaf("1"), Leaf("2")];
    assert items[1..] == [Leaf("2")] && items[1..][1..] == [];
    assert SerializeItems(items[1..]) == [[Atom("2")]];
    assert SerializeItems(items) == [[Atom("1")], [Atom("2")]];
    assert [[Atom("1")], [Atom("2")]][1..] == [[Atom("2")]];
    assert CommaJoin([[Atom("1")], [Atom("2")]]) == [Atom("1")] + [Comma] + [Atom("2")];
  }
}
