/** The text part of src/config/envFile.js: parsing an env file, validating updates and rewriting the file. */
module EnvFile {
  import opened Common

  /** White space as `String.prototype.trim` understands it. */
  predicate IsSpace(c: char) {
    || c == '\t' || c == '\n' || c == '\U{0B}' || c == '\U{0C}' || c == '\r' || c == ' '
    || c == '\U{A0}' || c == '\U{1680}' || '\U{2000}' <= c <= '\U{200A}' || c == '\U{2028}' || c == '\U{2029}'
    || c == '\U{202F}' || c == '\U{205F}' || c == '\U{3000}' || c == '\U{FEFF}'
  }

  function TrimStart(s: string): string {
    if s != "" && IsSpace(s[0]) then TrimStart(s[1..]) else s
  }

  function TrimEnd(s: string): string {
    if s != "" && IsSpace(s[|s| - 1]) then TrimEnd(s[..|s| - 1]) else s
  }

  function Trim(s: string): string { TrimEnd(TrimStart(s)) }

  /** First index of a character; the length when there is none. */
  function IndexOf(s: string, c: char): (i: nat)
    ensures i <= |s|
    ensures i < |s| ==> s[i] == c
    ensures c !in s[..i]
  {
    if s == "" || s[0] == c then 0 else 1 + IndexOf(s[1..], c)
  }

  function StripCr(s: string): string {
    if s != "" && s[|s| - 1] == '\r' then s[..|s| - 1] else s
  }

  /** `split(/\r?\n/)`. */
  function Lines(text: string): (lines: seq<string>)
    ensures lines != []
  {
    var i := IndexOf(text, '\n');
    if i == |text| then [text] else [StripCr(text[..i])] + Lines(text[i + 1..])
  }

  predicate IsAssignment(line: string) {
    var t := Trim(line);
    t != "" && t[0] != '#' && '=' in t
  }

  function KeyOf(line: string): string { Trim(line[..IndexOf(line, '=')]) }

  function ValueOf(line: string): string {
    var i := IndexOf(line, '=');
    if i < |line| then line[i + 1..] else ""
  }

  function ParseLines(lines: seq<string>): map<string, string> {
    if lines == [] then map[]
    else
      var values, line := ParseLines(lines[..|lines| - 1]), lines[|lines| - 1];
      if IsAssignment(line) then values[KeyOf(line) := ValueOf(line)] else values
  }

  function ParsedText(text: string): map<string, string> { ParseLines(Lines(text)) }

  /** `parseEnvText`. */
  method ParseEnvText(text: string) returns (values: map<string, string>)
    ensures values == ParsedText(text)
  {
    values := map[];
    var lines := Lines(text);
    for i := 0 to |lines|
      invariant values == ParseLines(lines[..i])
    {
      assert lines[..i + 1][..i] == lines[..i];
      if IsAssignment(lines[i]) {
        values := values[KeyOf(lines[i]) := ValueOf(lines[i])];
      }
    }
    assert lines[..|lines|] == lines;
  }

  // ---------------------------------------------------------------------------------------------
  // Updates
  // ---------------------------------------------------------------------------------------------

  datatype Update = Update(key: string, value: string)

  predicate IsUpper(c: char) { 'A' <= c <= 'Z' }

  predicate IsKey(s: string) {
    s != "" && IsUpper(s[0]) && forall c | c in s :: IsUpper(c) || '0' <= c <= '9' || c == '_'
  }

  predicate IsValue(s: string) { '\r' !in s && '\n' !in s && '\0' !in s }

  ghost predicate DistinctKeys(us: seq<Update>) {
    forall i, j :: 0 <= i < j < |us| ==> us[i].key != us[j].key
  }

  ghost predicate GoodUpdates(us: seq<Update>) {
    (forall u :: u in us ==> IsKey(u.key) && IsValue(u.value)) && DistinctKeys(us)
  }

  predicate HasKey(us: seq<Update>, key: string) { exists u | u in us :: u.key == key }

  function Lookup(us: seq<Update>, key: string): string {
    if us == [] then "" else if us[0].key == key then us[0].value else Lookup(us[1..], key)
  }

  /** Setting a property: an existing key keeps its place, a new one goes last. */
  function Put(us: seq<Update>, key: string, value: string): seq<Update> {
    if us == [] then [Update(key, value)]
    else if us[0].key == key then [Update(key, value)] + us[1..]
    else [us[0]] + Put(us[1..], key, value)
  }

  /** `normalizeEnvUpdates`: trimmed keys and checked values, or nothing when one is not acceptable. */
  method NormalizeUpdates(raw: seq<Update>) returns (result: Option<seq<Update>>)
    ensures result.Some? <==> forall u :: u in raw ==> IsKey(Trim(u.key)) && IsValue(u.value)
    ensures result.Some? ==> GoodUpdates(result.value)
    ensures result.Some? ==> forall k :: HasKey(result.value, k) <==> exists u :: u in raw && Trim(u.key) == k
    ensures result.Some? ==>
              forall i :: 0 <= i < |raw| && (forall j :: i < j < |raw| ==> Trim(raw[j].key) != Trim(raw[i].key)) ==>
                            Lookup(result.value, Trim(raw[i].key)) == raw[i].value
  {
    hide Trim, IsKey, IsValue, Lookup, Put;
    var us: seq<Update> := [];
    for n := 0 to |raw|
      invariant forall u :: u in raw[..n] ==> IsKey(Trim(u.key)) && IsValue(u.value)
      invariant GoodUpdates(us)
      invariant forall k :: HasKey(us, k) <==> exists u :: u in raw[..n] && Trim(u.key) == k
      invariant forall i :: 0 <= i < n && (forall j :: i < j < n ==> Trim(raw[j].key) != Trim(raw[i].key)) ==>
                              Lookup(us, Trim(raw[i].key)) == raw[i].value
    {
      var u := raw[n];
      if !IsKey(Trim(u.key)) || !IsValue(u.value) {
        return None;
      }
      PutFacts(us, Trim(u.key), u.value);
      assert raw[..n + 1] == raw[..n] + [u];
      us := Put(us, Trim(u.key), u.value);
    }
    result := Some(us);
  }

  lemma {:induction false} PutMembers(us: seq<Update>, key: string, value: string)
    ensures forall u :: u in Put(us, key, value) ==> u == Update(key, value) || u in us
    ensures forall u :: u in us && u.key != key ==> u in Put(us, key, value)
    ensures Update(key, value) in Put(us, key, value)
    ensures (forall u :: u in us ==> u.key != key) ==> Put(us, key, value) == us + [Update(key, value)]
  {
    if us != [] {
      assert us == [us[0]] + us[1..];
      if us[0].key != key {
        PutMembers(us[1..], key, value);
      }
    }
  }

  lemma {:induction false} PutLookup(us: seq<Update>, key: string, value: string, k: string)
    ensures Lookup(Put(us, key, value), k) == if k == key then value else Lookup(us, k)
  {
    if us != [] && us[0].key != key {
      PutLookup(us[1..], key, value, k);
    }
  }

  lemma {:induction false} PutDistinct(us: seq<Update>, key: string, value: string)
    requires DistinctKeys(us)
    ensures DistinctKeys(Put(us, key, value))
  {
    if us != [] && us[0].key != key {
      PutDistinct(us[1..], key, value);
      PutMembers(us[1..], key, value);
      var rest := Put(us[1..], key, value);
      assert forall j :: 0 <= j < |rest| ==> rest[j] in rest;
    }
  }

  lemma PutFacts(us: seq<Update>, key: string, value: string)
    ensures forall k :: HasKey(Put(us, key, value), k) <==> HasKey(us, k) || k == key
    ensures forall k :: Lookup(Put(us, key, value), k) == if k == key then value else Lookup(us, k)
    ensures GoodUpdates(us) && IsKey(key) && IsValue(value) ==> GoodUpdates(Put(us, key, value))
  {
    hide IsKey, IsValue, Lookup, Put;
    PutMembers(us, key, value);
    forall k {
      PutLookup(us, key, value, k);
    }
    if DistinctKeys(us) {
      PutDistinct(us, key, value);
    }
  }
}
