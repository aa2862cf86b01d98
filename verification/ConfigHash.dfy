/** The canonical serializer of src/config/configHash.js. A leaf is named by its JSON text and a key by its
    string, and the printed text is the stream of its tokens. */
module ConfigHash {

  datatype Pair<+X> = Pair(key: string, value: X)

  /** An object lists its properties in insertion order. */
  datatype Json = Leaf(text: string) | Arr(items: seq<Json>) | Obj(fields: seq<Pair<Json>>)

  datatype Token = Atom(text: string) | LBracket | RBracket | LBrace | RBrace | Comma | Colon

  predicate Less(a: string, b: string) {
    b != "" && (a == "" || a[0] < b[0] || (a[0] == b[0] && Less(a[1..], b[1..])))
  }

  function Insert<X>(p: Pair<X>, s: seq<Pair<X>>): seq<Pair<X>> {
    if s == [] || !Less(s[0].key, p.key) then [p] + s else [s[0]] + Insert(p, s[1..])
  }

  /** `Object.keys(value).sort()`, carrying the values along. */
  function SortByKey<X>(s: seq<Pair<X>>): seq<Pair<X>> {
    if s == [] then [] else Insert(s[0], SortByKey(s[1..]))
  }

  function CommaJoin(parts: seq<seq<Token>>): seq<Token> {
    if parts == [] then []
    else if |parts| == 1 then parts[0]
    else parts[0] + [Comma] + CommaJoin(parts[1..])
  }

  function FieldTokens(p: Pair<seq<Token>>): seq<Token> { [Atom(p.key), Colon] + p.value }

  function FieldParts(ps: seq<Pair<seq<Token>>>): seq<seq<Token>> {
    seq(|ps|, i requires 0 <= i < |ps| => FieldTokens(ps[i]))
  }

  /** `stableSerialize`. */
  function Serialize(j: Json): seq<Token>
    decreases j, 1
  {
    match j
    case Leaf(text) => [Atom(text)]
    case Arr(items) => [LBracket] + CommaJoin(SerializeItems(items)) + [RBracket]
    case Obj(fields) => [LBrace] + CommaJoin(FieldParts(SortByKey(SerializeFields(fields)))) + [RBrace]
  }

  function SerializeItems(items: seq<Json>): seq<seq<Token>>
    decreases items, 0
  {
    if items == [] then [] else [Serialize(items[0])] + SerializeItems(items[1..])
  }

  function SerializeFields(fields: seq<Pair<Json>>): seq<Pair<seq<Token>>>
    decreases fields, 0
  {
    if fields == [] then []
    else [Pair(fields[0].key, Serialize(fields[0].value))] + SerializeFields(fields[1..])
  }

  // ---------------------------------------------------------------------------------------------
  // The canonical tree, and printing a tree in the order it lists its properties
  // ---------------------------------------------------------------------------------------------

  function Canon(j: Json): Json
    decreases j, 1
  {
    match j
    case Leaf(_) => j
    case Arr(items) => Arr(CanonItems(items))
    case Obj(fields) => Obj(SortByKey(CanonFields(fields)))
  }

  function CanonItems(items: seq<Json>): (r: seq<Json>)
    ensures |r| == |items|
    ensures forall i :: 0 <= i < |items| ==> r[i] == Canon(items[i])
    decreases items, 0
  {
    if items == [] then [] else [Canon(items[0])] + CanonItems(items[1..])
  }

  function CanonFields(fields: seq<Pair<Json>>): (r: seq<Pair<Json>>)
    ensures |r| == |fields|
    ensures forall i :: 0 <= i < |fields| ==> r[i] == Pair(fields[i].key, Canon(fields[i].value))
    decreases fields, 0
  {
    if fields == [] then [] else [Pair(fields[0].key, Canon(fields[0].value))] + CanonFields(fields[1..])
  }

  function Print(j: Json): seq<Token>
    decreases j, 1
  {
    match j
    case Leaf(text) => [Atom(text)]
    case Arr(items) => [LBracket] + CommaJoin(PrintItems(items)) + [RBracket]
    case Obj(fields) => [LBrace] + CommaJoin(FieldParts(PrintFields(fields))) + [RBrace]
  }

  function PrintItems(items: seq<Json>): seq<seq<Token>>
    decreases items, 0
  {
    if items == [] then [] else [Print(items[0])] + PrintItems(items[1..])
  }

  function PrintFields(fields: seq<Pair<Json>>): seq<Pair<seq<Token>>>
    decreases fields, 0
  {
    if fields == [] then [] else [Pair(fields[0].key, Print(fields[0].value))] + PrintFields(fields[1..])
  }

  lemma {:induction false} PrintInsert(p: Pair<Json>, s: seq<Pair<Json>>)
    ensures PrintFields(Insert(p, s)) == Insert(Pair(p.key, Print(p.value)), PrintFields(s))
  {
    if s == [] || !Less(s[0].key, p.key) {
      assert ([p] + s)[1..] == s;
    } else {
      PrintInsert(p, s[1..]);
      assert ([s[0]] + Insert(p, s[1..]))[1..] == Insert(p, s[1..]);
      var rest := PrintFields(s[1..]);
      assert ([Pair(s[0].key, Print(s[0].value))] + rest)[1..] == rest;
    }
  }

  lemma {:induction false} PrintSort(s: seq<Pair<Json>>)
    ensures PrintFields(SortByKey(s)) == SortByKey(PrintFields(s))
  {
    if s != [] {
      PrintSort(s[1..]);
      PrintInsert(s[0], SortByKey(s[1..]));
      var rest := PrintFields(s[1..]);
      assert ([Pair(s[0].key, Print(s[0].value))] + rest)[1..] == rest;
    }
  }

  /** The serializer prints the canonical tree. */
  lemma {:induction false} SerializePrintsCanon(j: Json)
    ensures Serialize(j) == Print(Canon(j))
    decreases j, 1
  {
    match j
    case Leaf(_) =>
    case Arr(items) => SerializeItemsPrintsCanon(items);
    case Obj(fields) =>
      SerializeFieldsPrintsCanon(fields);
      PrintSort(CanonFields(fields));
  }

  lemma {:induction false} SerializeItemsPrintsCanon(items: seq<Json>)
    ensures SerializeItems(items) == PrintItems(CanonItems(items))
    decreases items, 0
  {
    if items != [] {
      SerializePrintsCanon(items[0]);
      SerializeItemsPrintsCanon(items[1..]);
    }
  }

  lemma {:induction false} SerializeFieldsPrintsCanon(fields: seq<Pair<Json>>)
    ensures SerializeFields(fields) == PrintFields(CanonFields(fields))
    decreases fields, 0
  {
    if fields != [] {
      SerializePrintsCanon(fields[0].value);
      SerializeFieldsPrintsCanon(fields[1..]);
    }
  }

  // ---------------------------------------------------------------------------------------------
  // A parser that recovers the printed tree
  // ---------------------------------------------------------------------------------------------

  datatype Parsed<+X> = Fail | Ok(value: X, rest: seq<Token>)

  function ParseValue(ts: seq<Token>): (r: Parsed<Json>)
    ensures r.Ok? ==> |r.rest| < |ts|
    decreases |ts|, 0
  {
    if ts == [] then Fail
    else match ts[0]
    case Atom(text) => Ok(Leaf(text), ts[1..])
    case LBracket =>
      if |ts| > 1 && ts[1].RBracket? then Ok(Arr([]), ts[2..])
      else
        var r := ParseItems(ts[1..]);
        if r.Ok? then Ok(Arr(r.value), r.rest) else Fail
    case LBrace =>
      if |ts| > 1 && ts[1].RBrace? then Ok(Obj([]), ts[2..])
      else
        var r := ParseFields(ts[1..]);
        if r.Ok? then Ok(Obj(r.value), r.rest) else Fail
    case _ => Fail
  }

  /** One or more items up to and including the closing bracket. */
  function ParseItems(ts: seq<Token>): (r: Parsed<seq<Json>>)
    ensures r.Ok? ==> |r.rest| < |ts|
    decreases |ts|, 1
  {
    var first := ParseValue(ts);
    if first.Fail? || first.rest == [] then Fail
    else match first.rest[0]
    case RBracket => Ok([first.value], first.rest[1..])
    case Comma =>
      var more := ParseItems(first.rest[1..]);
      if more.Ok? then Ok([first.value] + more.value, more.rest) else Fail
    case _ => Fail
  }

  /** One or more properties up to and including the closing brace. */
  function ParseFields(ts: seq<Token>): (r: Parsed<seq<Pair<Json>>>)
    ensures r.Ok? ==> |r.rest| < |ts|
    decreases |ts|, 1
  {
    if |ts| < 2 || !ts[0].Atom? || !ts[1].Colon? then Fail
    else
      var first := ParseValue(ts[2..]);
      if first.Fail? || first.rest == [] then Fail
      else match first.rest[0]
      case RBrace => Ok([Pair(ts[0].text, first.value)], first.rest[1..])
      case Comma =>
        var more := ParseFields(first.rest[1..]);
        if more.Ok? then Ok([Pair(ts[0].text, first.value)] + more.value, more.rest) else Fail
      case _ => Fail
  }

  lemma PrintStarts(j: Json)
    ensures Print(j) != [] && (Print(j)[0].Atom? || Print(j)[0].LBracket? || Print(j)[0].LBrace?)
  {
  }

  /** Parsing what was printed gives the tree back and leaves what follows untouched. */
  lemma {:induction false} ParsePrint(j: Json, rest: seq<Token>)
    ensures ParseValue(Print(j) + rest) == Ok(j, rest)
    decreases j, 1
  {
    match j
    case Leaf(_) => assert (Print(j) + rest)[1..] == rest;
    case Arr(items) => ParsePrintArr(items, rest);
    case Obj(fields) => ParsePrintObj(fields, rest);
  }

  lemma {:induction false} ParsePrintArr(items: seq<Json>, rest: seq<Token>)
    ensures ParseValue(Print(Arr(items)) + rest) == Ok(Arr(items), rest)
    decreases items, 1
  {
    hide ParseItems, PrintItems;
    var ts := Print(Arr(items)) + rest;
    if items == [] {
      assert PrintItems(items) == [] by {
        NothingPrinted();
      }
      assert ts[2..] == rest;
    } else {
      ParsePrintItems(items, rest);
      ItemsStart(items);
      assert ts[1..] == CommaJoin(PrintItems(items)) + [RBracket] + rest;
    }
  }

  lemma {:induction false} ParsePrintObj(fields: seq<Pair<Json>>, rest: seq<Token>)
    ensures ParseValue(Print(Obj(fields)) + rest) == Ok(Obj(fields), rest)
    decreases fields, 1
  {
    hide ParseFields, PrintFields, FieldParts;
    var ts := Print(Obj(fields)) + rest;
    if fields == [] {
      NothingPrinted();
      assert ts[2..] == rest;
    } else {
      ParsePrintFields(fields, rest);
      FieldsStart(fields);
      assert ts[1..] == CommaJoin(FieldParts(PrintFields(fields))) + [RBrace] + rest;
    }
  }

  lemma NothingPrinted()
    ensures PrintItems([]) == [] && FieldParts(PrintFields([])) == []
  {
  }

  lemma ItemsStart(items: seq<Json>)
    requires items != []
    ensures var ts := CommaJoin(PrintItems(items)); ts != [] && !ts[0].RBracket?
  {
    PrintStarts(items[0]);
  }

  lemma FieldsStart(fields: seq<Pair<Json>>)
    requires fields != []
    ensures var ts := CommaJoin(FieldParts(PrintFields(fields)));
            |ts| >= 2 && ts[0] == Atom(fields[0].key) && ts[1].Colon?
  {
    var parts := FieldParts(PrintFields(fields));
    assert parts[0] == FieldTokens(Pair(fields[0].key, Print(fields[0].value)));
  }

  lemma {:induction false} ParsePrintItems(items: seq<Json>, rest: seq<Token>)
    requires items != []
    ensures ParseItems(CommaJoin(PrintItems(items)) + [RBracket] + rest) == Ok(items, rest)
    decreases items, 0
  {
    hide Print, ParseValue;
    var parts := PrintItems(items);
    var ts := CommaJoin(parts) + [RBracket] + rest;
    if |items| == 1 {
      var tail := [RBracket] + rest;
      assert ts == Print(items[0]) + tail;
      ParsePrint(items[0], tail);
      assert tail[1..] == rest && items == [items[0]];
    } else {
      assert parts[1..] == PrintItems(items[1..]);
      var more := CommaJoin(parts[1..]) + [RBracket] + rest;
      var tail := [Comma] + more;
      assert ts == Print(items[0]) + tail;
      ParsePrint(items[0], tail);
      assert tail[1..] == more;
      ParsePrintItems(items[1..], rest);
      assert items == [items[0]] + items[1..];
    }
  }

  lemma {:induction false} ParsePrintFields(fields: seq<Pair<Json>>, rest: seq<Token>)
    requires fields != []
    ensures ParseFields(CommaJoin(FieldParts(PrintFields(fields))) + [RBrace] + rest) == Ok(fields, rest)
    decreases fields, 0
  {
    hide Print, ParseValue;
    var printed := PrintFields(fields);
    var parts := FieldParts(printed);
    var ts := CommaJoin(parts) + [RBrace] + rest;
    var key, value := fields[0].key, fields[0].value;
    assert parts[0] == [Atom(key), Colon] + Print(value);
    assert printed[1..] == PrintFields(fields[1..]);
    if |fields| == 1 {
      assert |parts| == 1;
      var tail := [RBrace] + rest;
      FieldTail(key, value, tail, ts);
      assert tail[1..] == rest && fields == [fields[0]];
    } else {
      assert parts[1..] == FieldParts(printed[1..]);
      var more := CommaJoin(parts[1..]) + [RBrace] + rest;
      var tail := [Comma] + more;
      FieldTail(key, value, tail, ts);
      assert tail[1..] == more;
      ParsePrintFields(fields[1..], rest);
      assert fields == [fields[0]] + fields[1..];
    }
  }

  /** The value of the first property parses, leaving what follows it. */
  lemma {:induction false} FieldTail(key: string, value: Json, tail: seq<Token>, ts: seq<Token>)
    requires ts == [Atom(key), Colon] + Print(value) + tail
    ensures |ts| >= 2 && ts[0] == Atom(key) && ts[1] == Colon
    ensures ParseValue(ts[2..]) == Ok(value, tail)
    decreases value, 2
  {
    hide ParseValue, Print;
    assert ts[2..] == Print(value) + tail;
    ParsePrint(value, tail);
  }

  /** The serialized form of a tree parses to its canonical tree. */
  lemma ParseSerialize(j: Json)
    ensures ParseValue(Serialize(j)) == Ok(Canon(j), [])
  {
    SerializePrintsCanon(j);
    ParsePrint(Canon(j), []);
    assert Print(Canon(j)) + [] == Print(Canon(j));
  }

  lemma SerializeIffCanon(a: Json, b: Json)
    ensures Serialize(a) == Serialize(b) <==> Canon(a) == Canon(b)
  {
    SerializePrintsCanon(a);
    SerializePrintsCanon(b);
    ParseSerialize(a);
    ParseSerialize(b);
  }
}
