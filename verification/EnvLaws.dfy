/** Laws of the env-file rewriter: what can be read back after a rewrite, and that rewriting twice is
    rewriting once. */
module EnvLaws {
  import opened EnvFile
  import opened EnvRewrite

  // ---------------------------------------------------------------------------------------------
  // Text and lines
  // ---------------------------------------------------------------------------------------------

  predicate IsEol(eol: string) { eol == "\n" || eol == "\r\n" }

  predicate EndsWithCr(s: string) { s != "" && s[|s| - 1] == '\r' }

  /** Lines that joining and splitting preserves. */
  ghost predicate Clean(lines: seq<string>, eol: string) {
    forall l :: l in lines ==> '\n' !in l && (eol == "\r\n" || !EndsWithCr(l))
  }

  lemma IndexAfter(s: string, t: string, c: char)
    requires c !in s
    ensures IndexOf(s + [c] + t, c) == |s|
  {
    var text := s + [c] + t;
    assert text[|s|] == c;
    assert text[..|s|] == s;
  }

  lemma SplitFirst(line: string, eol: string, rest: string)
    requires IsEol(eol) && '\n' !in line && (eol == "\r\n" || !EndsWithCr(line))
    ensures Lines(line + eol + rest) == [line] + Lines(rest)
  {
    var head := if eol == "\n" then line else line + "\r";
    assert line + eol + rest == head + ['\n'] + rest;
    IndexAfter(head, rest, '\n');
    assert (head + ['\n'] + rest)[..|head|] == head;
    assert (head + ['\n'] + rest)[|head| + 1..] == rest;
    assert StripCr(head) == line;
  }

  lemma {:induction false} LinesOfJoin(lines: seq<string>, eol: string)
    requires IsEol(eol) && Clean(lines, eol) && lines != []
    ensures Lines(Join(lines, eol) + eol) == lines + [""]
  {
    hide Lines, EndsWithCr;
    var line := lines[0];
    assert line in lines;
    SplitFirst(line, eol, if |lines| == 1 then "" else Join(lines[1..], eol) + eol);
    if |lines| == 1 {
      assert line + eol + "" == Join(lines, eol) + eol;
      NoLines();
    } else {
      LinesOfJoin(lines[1..], eol);
      assert line + eol + (Join(lines[1..], eol) + eol) == Join(lines, eol) + eol;
    }
  }

  lemma NoLines()
    ensures Lines("") == [""] && Lines("\n") == ["", ""] && Lines("\r\n") == ["", ""]
  {
    assert "\n"[1..] == "" && "\r\n"[..1] == "\r" && "\r\n"[2..] == "";
    assert IndexOf("\r\n", '\n') == 1 by {
      IndexAfter("\r", "", '\n');
      assert "\r" + ['\n'] + "" == "\r\n";
    }
  }

  lemma {:induction false} LinesAreClean(text: string)
    ensures forall l :: l in Lines(text) ==> '\n' !in l
    ensures !HasCrLf(text) && !EndsWithCr(text) ==> forall l :: l in Lines(text) ==> !EndsWithCr(l)
    decreases text
  {
    hide IndexOf, HasCrLf;
    var i := IndexOf(text, '\n');
    if i == |text| {
      assert text[..i] == text;
    } else {
      LinesAreClean(text[i + 1..]);
      NoCrLfAround(text, i);
    }
  }

  lemma NoCrLfAround(text: string, i: nat)
    requires i < |text| && text[i] == '\n'
    ensures !HasCrLf(text) ==> !EndsWithCr(text[..i]) && !HasCrLf(text[i + 1..])
    ensures EndsWithCr(text[i + 1..]) ==> EndsWithCr(text)
  {
    var rest := text[i + 1..];
    if HasCrLf(rest) {
      var j :| 0 <= j < |rest| - 1 && rest[j] == '\r' && rest[j + 1] == '\n';
      assert text[i + 1 + j] == '\r' && text[i + 1 + j + 1] == '\n';
    }
    if EndsWithCr(text[..i]) {
      assert text[i - 1] == '\r' && text[i - 1 + 1] == '\n';
    }
  }

  /** Without its trailing empty lines. */
  function Trimmed(lines: seq<string>): seq<string> {
    if lines != [] && lines[|lines| - 1] == "" then Trimmed(lines[..|lines| - 1]) else lines
  }

  lemma {:induction false} JoinLast(lines: seq<string>, last: string, eol: string)
    requires lines != []
    ensures Join(lines + [last], eol) == Join(lines, eol) + eol + last
  {
    if |lines| == 1 {
      assert (lines + [last])[1..] == [last];
    } else {
      assert (lines + [last])[1..] == lines[1..] + [last];
      JoinLast(lines[1..], last, eol);
    }
  }

  lemma {:induction false} JoinEnd(lines: seq<string>, eol: string)
    requires IsEol(eol) && Clean(lines, eol)
    ensures eol == "\n" ==> !EndsWithCr(Join(lines, eol))
    ensures lines != [] && lines[|lines| - 1] != "" ==>
              Join(lines, eol) != "" && Join(lines, eol)[|Join(lines, eol)| - 1] != '\n'
  {
    if lines != [] {
      assert lines[|lines| - 1] in lines;
      if |lines| > 1 {
        var n := |lines| - 1;
        JoinLast(lines[..n], lines[n], eol);
        assert lines == lines[..n] + [lines[n]];
      }
    }
  }

  lemma {:induction false} StripJoin(lines: seq<string>, eol: string)
    requires IsEol(eol) && Clean(lines, eol)
    ensures StripTrailing(Join(lines, eol)) == Join(Trimmed(lines), eol)
  {
    JoinEnd(lines, eol);
    if lines != [] && lines[|lines| - 1] == "" {
      var front := lines[..|lines| - 1];
      assert lines == front + [""];
      StripJoin(front, eol);
      if front != [] {
        JoinLast(front, "", eol);
        StripOneEol(Join(front, eol), eol, front);
      }
    }
  }

  lemma StripOneEol(text: string, eol: string, lines: seq<string>)
    requires IsEol(eol) && Clean(lines, eol) && text == Join(lines, eol)
    ensures StripTrailing(text + eol + "") == StripTrailing(text)
  {
    hide Join, Clean, StripTrailing;
    JoinEnd(lines, eol);
    assert text + eol + "" == text + eol;
    StripStep(text + eol);
    if eol == "\n" {
      assert (text + eol)[..|text + eol| - 1] == text;
    } else {
      assert (text + eol)[..|text + eol| - 1] == text + "\r";
      assert StripCr(text + "\r") == text;
    }
  }

  lemma StripStep(text: string)
    requires text != "" && text[|text| - 1] == '\n'
    ensures StripTrailing(text) == StripTrailing(StripCr(text[..|text| - 1]))
  {
  }

  lemma {:induction false} TrimmedFacts(lines: seq<string>)
    ensures Trimmed(lines) <= lines
    ensures forall l :: l in lines && l != "" ==> l in Trimmed(lines)
    ensures Trimmed(lines + [""]) == Trimmed(lines)
    ensures Trimmed(Trimmed(lines)) == Trimmed(lines)
  {
    assert (lines + [""])[..|lines + [""]| - 1] == lines;
    if lines != [] && lines[|lines| - 1] == "" {
      TrimmedFacts(lines[..|lines| - 1]);
      assert lines == lines[..|lines| - 1] + [""];
    }
  }

  lemma EmptyLineIsNoAssignment()
    ensures !IsAssignment("")
  {
  }

  lemma {:induction false} ParseTrimmed(lines: seq<string>)
    ensures ParseLines(Trimmed(lines)) == ParseLines(lines)
  {
    if lines != [] && lines[|lines| - 1] == "" {
      EmptyLineIsNoAssignment();
      ParseTrimmed(lines[..|lines| - 1]);
    }
  }

  // ---------------------------------------------------------------------------------------------
  // Printed assignments
  // ---------------------------------------------------------------------------------------------

  lemma KeyHasNoSpace(key: string)
    requires IsKey(key)
    ensures forall c :: c in key ==> !IsSpace(c) && c != '=' && c != '#'
  {
  }

  lemma {:induction false} TrimEndPrefix(s: string, t: string)
    requires s != "" && !IsSpace(s[|s| - 1])
    ensures s <= TrimEnd(s + t)
  {
    if t == "" {
      assert s + t == s;
    } else {
      var n := |t| - 1;
      assert (s + t)[..|s + t| - 1] == s + t[..n];
      if IsSpace(t[n]) {
        TrimEndPrefix(s, t[..n]);
      }
    }
  }

  /** A printed update reads back as itself. */
  lemma PrintedReadsBack(key: string, value: string)
    requires IsKey(key)
    ensures IsAssignment(LineOf(key, value))
    ensures KeyOf(LineOf(key, value)) == key && ValueOf(LineOf(key, value)) == value
  {
    hide IsSpace;
    var line := LineOf(key, value);
    KeyHasNoSpace(key);
    assert line == key + ['='] + value;
    IndexAfter(key, value, '=');
    assert line[..|key|] == key && line[|key| + 1..] == value;
    assert key[0] in key && key[|key| - 1] in key;
    TrimKey(key);
    EqualsIsNoSpace();
    assert TrimStart(line) == line;
    assert key + "=" == line[..|key| + 1] && line == (key + "=") + value;
    TrimEndPrefix(key + "=", value);
    var t := Trim(line);
    assert t[0] == key[0] && t[|key|] == '=';
  }

  lemma EqualsIsNoSpace()
    ensures !IsSpace('=')
  {
  }

  lemma TrimKey(key: string)
    requires key != "" && !IsSpace(key[0]) && !IsSpace(key[|key| - 1])
    ensures Trim(key) == key
  {
  }

  // ---------------------------------------------------------------------------------------------
  // What is read back, line by line
  // ---------------------------------------------------------------------------------------------

  function Count(lines: seq<string>, key: string): nat {
    if lines == [] then 0
    else Count(lines[..|lines| - 1], key) + (if Assigns(lines[|lines| - 1], key) then 1 else 0)
  }

  lemma {:induction false} ParsedKeys(lines: seq<string>, key: string)
    ensures key in ParseLines(lines) <==> Appears(lines, key)
    ensures Appears(lines, key) <==> Count(lines, key) > 0
  {
    hide IsAssignment, KeyOf;
    if lines != [] {
      var n := |lines| - 1;
      ParsedKeys(lines[..n], key);
      AppearsMore(lines[..n], lines[n], key);
      assert lines == lines[..n] + [lines[n]];
    }
  }

  lemma {:induction false} LookupGood(us: seq<Update>, key: string)
    requires GoodUpdates(us) && HasKey(us, key)
    ensures IsKey(key) && IsValue(Lookup(us, key)) && Update(key, Lookup(us, key)) in us
  {
    hide IsKey, IsValue;
    if us[0].key == key {
      assert us[0] in us;
    } else {
      LookupGood(us[1..], key);
    }
  }

  /** Replacing keeps every key, and gives the new value exactly to the updated keys assigned once: of a
      key assigned more often only the first line changes, and the last one is what is read. */
  lemma {:induction false} ParseReplaced(lines: seq<string>, us: seq<Update>, key: string)
    requires GoodUpdates(us)
    ensures key in ParseLines(Replaced(lines, us)) <==> key in ParseLines(lines)
    ensures key in ParseLines(lines) ==>
              ParseLines(Replaced(lines, us))[key]
              == if HasKey(us, key) && Count(lines, key) == 1 then Lookup(us, key) else ParseLines(lines)[key]
  {
    hide IsAssignment, KeyOf, ValueOf, LineOf, GoodUpdates;
    if lines != [] {
      var n := |lines| - 1;
      var front, line := lines[..n], lines[n];
      ParseReplaced(front, us, key);
      ParsedKeys(front, key);
      var last := Replaced(lines, us)[|Replaced(front, us)|];
      assert Replaced(lines, us) == Replaced(front, us) + [last];
      if last != line {
        LookupGood(us, KeyOf(line));
        PrintedReadsBack(KeyOf(line), Lookup(us, KeyOf(line)));
      } else if IsAssignment(line) && HasKey(us, KeyOf(line)) && !Appears(front, KeyOf(line)) {
        LookupGood(us, KeyOf(line));
        PrintedReadsBack(KeyOf(line), Lookup(us, KeyOf(line)));
      }
    }
  }

  lemma {:induction false} ParsePrinted(lines: seq<string>, us: seq<Update>, key: string)
    requires GoodUpdates(us)
    ensures var values := ParseLines(lines + Printed(us));
            && (key in values <==> key in ParseLines(lines) || HasKey(us, key))
            && (key in values ==> values[key] == if HasKey(us, key) then Lookup(us, key) else ParseLines(lines)[key])
    decreases us
  {
    hide IsAssignment, KeyOf, ValueOf, LineOf, IsKey, IsValue;
    if us == [] {
      assert lines + Printed(us) == lines;
    } else {
      var u := us[0];
      assert us == [u] + us[1..] && u in us;
      PrintedReadsBack(u.key, u.value);
      var more := lines + [LineOf(u.key, u.value)];
      assert more[..|more| - 1] == lines;
      assert lines + Printed(us) == more + Printed(us[1..]);
      ParsePrinted(more, us[1..], key);
    }
  }

  lemma {:induction false} MissingMembers(lines: seq<string>, us: seq<Update>)
    ensures forall u :: u in Missing(lines, us) ==> u in us
  {
    hide Appears;
    if us != [] {
      MissingMembers(lines, us[1..]);
    }
  }

  lemma {:induction false} MissingGood(lines: seq<string>, us: seq<Update>)
    requires GoodUpdates(us)
    ensures GoodUpdates(Missing(lines, us))
  {
    hide Appears, IsKey, IsValue;
    MissingMembers(lines, us);
    if us != [] {
      MissingGood(lines, us[1..]);
      MissingMembers(lines, us[1..]);
      var rest := Missing(lines, us[1..]);
      forall j | 0 <= j < |rest|
        ensures rest[j].key != us[0].key
      {
        assert rest[j] in us[1..];
      }
    }
  }

  /** Read-back on lines: other keys keep their value; an updated key reads the new value exactly when
      it was not assigned more than once, or its last assignment had that value already. */
  lemma ReadBackLines(lines: seq<string>, us: seq<Update>, key: string)
    requires GoodUpdates(us)
    ensures var before, after := ParseLines(lines), ParseLines(RewrittenLines(lines, us));
            && (HasKey(us, key) ==>
                  key in after
                  && (after[key] == Lookup(us, key) <==>
                      Count(lines, key) <= 1 || (key in before && before[key] == Lookup(us, key))))
            && (!HasKey(us, key) ==>
                  (key in after <==> key in before) && (key in after ==> after[key] == before[key]))
  {
    hide GoodUpdates, HasKey, Lookup, Appears;
    ParsedKeys(lines, key);
    ParseReplaced(lines, us, key);
    MissingGood(lines, us);
    MissingFacts(lines, us, key);
    ParsePrinted(Replaced(lines, us), Missing(lines, us), key);
  }

  // ---------------------------------------------------------------------------------------------
  // What is read back from the text
  // ---------------------------------------------------------------------------------------------

  /** The text has CRLF line ends, or does not end in a lone carriage return. */
  predicate SafeEnding(text: string) { HasCrLf(text) || !EndsWithCr(text) }

  lemma {:induction false} ReplacedMembers(lines: seq<string>, us: seq<Update>, l: string)
    requires l in Replaced(lines, us)
    ensures l in lines || exists key :: HasKey(us, key) && l == LineOf(key, Lookup(us, key))
  {
    hide IsAssignment, KeyOf, Lookup, HasKey, Appears, LineOf;
    var n := |lines| - 1;
    if l in Replaced(lines[..n], us) {
      ReplacedMembers(lines[..n], us, l);
    }
  }

  lemma PrintedIsClean(key: string, value: string)
    requires IsKey(key) && IsValue(value)
    ensures '\n' !in LineOf(key, value) && !EndsWithCr(LineOf(key, value))
  {
  }

  lemma RewrittenIsClean(text: string, us: seq<Update>)
    requires GoodUpdates(us) && SafeEnding(text)
    ensures Clean(RewrittenLines(ContentLines(text), us), Eol(text))
  {
    hide IsKey, IsValue, LineOf, EndsWithCr, HasCrLf, Lines, HasKey, Lookup, Appears, GoodUpdates;
    var lines := ContentLines(text);
    LinesAreClean(text);
    forall l | l in RewrittenLines(lines, us)
      ensures '\n' !in l && (Eol(text) == "\r\n" || !EndsWithCr(l))
    {
      if l in Replaced(lines, us) {
        ReplacedMembers(lines, us, l);
        if l !in lines {
          var key :| HasKey(us, key) && l == LineOf(key, Lookup(us, key));
          LookupGood(us, key);
          PrintedIsClean(key, Lookup(us, key));
        }
      } else {
        PrintedMember(Missing(lines, us), us, lines, l);
      }
    }
  }

  lemma PrintedMember(ms: seq<Update>, us: seq<Update>, lines: seq<string>, l: string)
    requires GoodUpdates(us) && ms == Missing(lines, us) && l in Printed(ms)
    ensures '\n' !in l && !EndsWithCr(l)
  {
    hide IsKey, IsValue, LineOf, EndsWithCr;
    MissingMembers(lines, us);
    var k :| 0 <= k < |ms| && l == Printed(ms)[k];
    assert ms[k] in ms;
    PrintedIsClean(ms[k].key, ms[k].value);
  }

  /** The new text, described by its lines. */
  lemma RewrittenShape(text: string, us: seq<Update>)
    requires GoodUpdates(us) && SafeEnding(text)
    ensures var kept := Trimmed(RewrittenLines(ContentLines(text), us));
            && Clean(kept, Eol(text))
            && Rewritten(text, us) == Join(kept, Eol(text)) + Eol(text)
            && Lines(Rewritten(text, us)) == (if kept == [] then ["", ""] else kept + [""])
  {
    hide Lines, GoodUpdates, SafeEnding, Clean, RewrittenLines, HasCrLf, ContentLines;
    var eol := Eol(text);
    var lines := RewrittenLines(ContentLines(text), us);
    var kept := Trimmed(lines);
    RewrittenIsClean(text, us);
    StripJoin(lines, eol);
    TrimmedIsClean(lines, eol);
    NoLines();
    if kept == [] {
      assert Join(kept, eol) + eol == eol;
    } else {
      LinesOfJoin(kept, eol);
    }
  }

  lemma TrimmedIsClean(lines: seq<string>, eol: string)
    requires Clean(lines, eol)
    ensures Clean(Trimmed(lines), eol)
  {
    TrimmedFacts(lines);
    assert forall l :: l in Trimmed(lines) ==> l in lines;
  }

  lemma ParseShape(kept: seq<string>)
    ensures ParseLines(if kept == [] then ["", ""] else kept + [""]) == ParseLines(kept)
  {
    EmptyLineIsNoAssignment();
    assert ["", ""][..1] == [""] && [""][..0] == [];
    assert (kept + [""])[..|kept + [""]| - 1] == kept;
  }

  lemma RewrittenParses(text: string, us: seq<Update>)
    requires GoodUpdates(us) && SafeEnding(text)
    ensures ParsedText(Rewritten(text, us)) == ParseLines(RewrittenLines(ContentLines(text), us))
    ensures ParsedText(text) == ParseLines(ContentLines(text))
  {
    hide Lines, GoodUpdates, SafeEnding, Clean, RewrittenLines, Trimmed, Rewritten;
    RewrittenShape(text, us);
    ParseShape(Trimmed(RewrittenLines(ContentLines(text), us)));
    ParseTrimmed(RewrittenLines(ContentLines(text), us));
    NoLines();
    EmptyLineIsNoAssignment();
    assert [""][..0] == [];
  }

  /** Env rewrite law: in a text that does not end in a lone carriage return, reading the rewritten text
      gives every other key its old value, and an updated key its new value exactly when the text did not
      assign it twice (or its last assignment agreed already). */
  lemma ReadBack(text: string, us: seq<Update>, key: string)
    requires GoodUpdates(us) && SafeEnding(text)
    ensures var before, after := ParsedText(text), ParsedText(Rewritten(text, us));
            && (HasKey(us, key) ==>
                  key in after
                  && (after[key] == Lookup(us, key) <==>
                      Count(ContentLines(text), key) <= 1 || (key in before && before[key] == Lookup(us, key))))
            && (!HasKey(us, key) ==>
                  (key in after <==> key in before) && (key in after ==> after[key] == before[key]))
  {
    hide ParsedText, GoodUpdates, SafeEnding, Rewritten, RewrittenLines, ContentLines, HasKey, Lookup;
    RewrittenParses(text, us);
    ReadBackLines(ContentLines(text), us, key);
    ParsedKeys(ContentLines(text), key);
  }
}
