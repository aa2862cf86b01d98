/** The rewrite inside `updateEnvFile` of src/config/envFile.js, from the old text to the new text. */
module EnvRewrite {
  import opened EnvFile

  predicate Assigns(line: string, key: string) { IsAssignment(line) && KeyOf(line) == key }

  predicate Appears(lines: seq<string>, key: string) { exists l | l in lines :: Assigns(l, key) }

  function LineOf(key: string, value: string): string { key + "=" + value }

  /** The first line of an updated key is replaced; every other line stays. */
  function Replaced(lines: seq<string>, us: seq<Update>): seq<string> {
    if lines == [] then []
    else
      var front, line := lines[..|lines| - 1], lines[|lines| - 1];
      Replaced(front, us) + [if IsAssignment(line) && HasKey(us, KeyOf(line)) && !Appears(front, KeyOf(line)) then
                               LineOf(KeyOf(line), Lookup(us, KeyOf(line)))
                             else line]
  }

  /** The updates whose key the lines do not mention, in their own order. */
  function Missing(lines: seq<string>, us: seq<Update>): seq<Update> {
    if us == [] then []
    else if Appears(lines, us[0].key) then Missing(lines, us[1..])
    else [us[0]] + Missing(lines, us[1..])
  }

  function Printed(us: seq<Update>): seq<string> {
    seq(|us|, i requires 0 <= i < |us| => LineOf(us[i].key, us[i].value))
  }

  function RewrittenLines(lines: seq<string>, us: seq<Update>): seq<string> {
    Replaced(lines, us) + Printed(Missing(lines, us))
  }

  predicate HasCrLf(text: string) { exists i | 0 <= i < |text| - 1 :: text[i] == '\r' && text[i + 1] == '\n' }

  function Eol(text: string): string { if HasCrLf(text) then "\r\n" else "\n" }

  function Join(lines: seq<string>, eol: string): string {
    if lines == [] then "" else if |lines| == 1 then lines[0] else lines[0] + eol + Join(lines[1..], eol)
  }

  /** `replace(/(\r?\n)+$/g, "")`. */
  function StripTrailing(text: string): string {
    if text != "" && text[|text| - 1] == '\n' then StripTrailing(StripCr(text[..|text| - 1])) else text
  }

  function ContentLines(text: string): seq<string> { if text == "" then [] else Lines(text) }

  function Rewritten(text: string, us: seq<Update>): string {
    StripTrailing(Join(RewrittenLines(ContentLines(text), us), Eol(text))) + Eol(text)
  }

  function Without(us: seq<Update>, key: string): seq<Update> {
    if us == [] then []
    else if us[0].key == key then Without(us[1..], key)
    else [us[0]] + Without(us[1..], key)
  }

  lemma AppearsMore(lines: seq<string>, line: string, key: string)
    ensures Appears(lines + [line], key) <==> Appears(lines, key) || Assigns(line, key)
  {
  }

  lemma {:induction false} MissingFacts(lines: seq<string>, us: seq<Update>, key: string)
    ensures HasKey(Missing(lines, us), key) <==> HasKey(us, key) && !Appears(lines, key)
    ensures !Appears(lines, key) ==> Lookup(Missing(lines, us), key) == Lookup(us, key)
  {
    hide Appears;
    if us != [] {
      assert us == [us[0]] + us[1..];
      MissingFacts(lines, us[1..], key);
      var rest := Missing(lines, us[1..]);
      assert ([us[0]] + rest)[1..] == rest;
      assert HasKey([us[0]] + rest, key) <==> us[0].key == key || HasKey(rest, key);
    }
  }

  lemma {:induction false} MissingStep(lines: seq<string>, line: string, us: seq<Update>)
    ensures Missing(lines + [line], us) ==
            if IsAssignment(line) then Without(Missing(lines, us), KeyOf(line)) else Missing(lines, us)
  {
    hide Appears, IsAssignment, KeyOf;
    if us != [] {
      MissingStep(lines, line, us[1..]);
      AppearsMore(lines, line, us[0].key);
      var rest := Missing(lines, us[1..]);
      assert ([us[0]] + rest)[1..] == rest;
    }
  }

  lemma {:induction false} WithoutAbsent(us: seq<Update>, key: string)
    requires !HasKey(us, key)
    ensures Without(us, key) == us
  {
    if us != [] {
      assert us[0] in us;
      WithoutAbsent(us[1..], key);
    }
  }

  /** The rewriting loop. The source also has a branch that drops a line whose key was already seen and
      still awaits its update; a key stops waiting as soon as it is seen, so that branch is dead. */
  method RewriteLines(lines: seq<string>, us: seq<Update>) returns (next: seq<string>)
    ensures next == RewrittenLines(lines, us)
  {
    hide IsAssignment, KeyOf, Lookup, LineOf, Without;
    next := [];
    var remaining := us;
    var seen: set<string> := {};
    NothingMissingYet(us);
    for i := 0 to |lines|
      invariant next == Replaced(lines[..i], us)
      invariant remaining == Missing(lines[..i], us)
      invariant forall k :: k in seen <==> Appears(lines[..i], k)
    {
      var line := lines[i];
      assert lines[..i + 1] == lines[..i] + [line] && lines[..i + 1][..i] == lines[..i];
      MissingStep(lines[..i], line, us);
      forall k {
        AppearsMore(lines[..i], line, k);
      }
      if IsAssignment(line) {
        var key := KeyOf(line);
        MissingFacts(lines[..i], us, key);
        if key in seen && HasKey(remaining, key) {
          assert false;
        }
        seen := seen + {key};
        if !HasKey(remaining, key) {
          WithoutAbsent(remaining, key);
          next := next + [line];
        } else {
          next := next + [LineOf(key, Lookup(remaining, key))];
          remaining := Without(remaining, key);
        }
      } else {
        next := next + [line];
      }
    }
    assert lines[..|lines|] == lines;
    next := next + Printed(remaining);
  }

  lemma {:induction false} NothingMissingYet(us: seq<Update>)
    ensures Missing([], us) == us
  {
    if us != [] {
      NothingMissingYet(us[1..]);
    }
  }

  /** `updateEnvFile` without the file system: the new text. */
  method UpdateEnvText(text: string, us: seq<Update>) returns (next: string)
    ensures next == Rewritten(text, us)
  {
    var lines := RewriteLines(ContentLines(text), us);
    next := StripTrailing(Join(lines, Eol(text))) + Eol(text);
  }
}
