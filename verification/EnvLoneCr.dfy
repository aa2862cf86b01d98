/** Exactly when rewriting an env file changes a key it was not asked to change: the text has no CRLF,
    ends in a lone carriage return, and its last line assigns a key that is not updated. */
module EnvLoneCr {
  import opened EnvFile
  import opened EnvRewrite
  import opened EnvLaws

  function Stripped(lines: seq<string>): seq<string> {
    seq(|lines|, i requires 0 <= i < |lines| => StripCr(lines[i]))
  }

  lemma SplitFirstLf(line: string, rest: string)
    requires '\n' !in line
    ensures Lines(line + "\n" + rest) == [StripCr(line)] + Lines(rest)
  {
    assert line + "\n" + rest == line + ['\n'] + rest;
    IndexAfter(line, rest, '\n');
    assert (line + ['\n'] + rest)[..|line|] == line;
    assert (line + ['\n'] + rest)[|line| + 1..] == rest;
  }

  /** Joined with plain newlines, every line loses its trailing carriage return. */
  lemma {:induction false} LinesOfLfJoin(lines: seq<string>)
    requires lines != [] && forall l :: l in lines ==> '\n' !in l
    ensures Lines(Join(lines, "\n") + "\n") == Stripped(lines) + [""]
  {
    hide Lines, StripCr;
    var line := lines[0];
    assert line in lines;
    SplitFirstLf(line, if |lines| == 1 then "" else Join(lines[1..], "\n") + "\n");
    if |lines| == 1 {
      assert line + "\n" + "" == Join(lines, "\n") + "\n";
      NoLines();
    } else {
      LinesOfLfJoin(lines[1..]);
      assert line + "\n" + (Join(lines[1..], "\n") + "\n") == Join(lines, "\n") + "\n";
      assert Stripped(lines) == [StripCr(line)] + Stripped(lines[1..]);
    }
  }

  lemma JoinEndsWithLast(lines: seq<string>)
    requires lines != [] && lines[|lines| - 1] != ""
    ensures Join(lines, "\n") != ""
    ensures Join(lines, "\n")[|Join(lines, "\n")| - 1] == lines[|lines| - 1][|lines[|lines| - 1]| - 1]
  {
    var n := |lines| - 1;
    if n > 0 {
      hide Join;
      JoinLast(lines[..n], lines[n], "\n");
      assert lines == lines[..n] + [lines[n]];
    }
  }

  lemma JoinKeepsEnd(lines: seq<string>)
    requires lines != [] && lines[|lines| - 1] != "" && '\n' !in lines[|lines| - 1]
    ensures StripTrailing(Join(lines, "\n")) == Join(lines, "\n")
  {
    hide Join;
    JoinEndsWithLast(lines);
    var last := lines[|lines| - 1];
    assert last[|last| - 1] in last;
  }

  lemma TrimOneCr(s: string)
    requires EndsWithCr(s)
    ensures Trim(StripCr(s)) == Trim(s)
    decreases s
  {
    var t := StripCr(s);
    assert s == t + "\r";
    if t == "" {
      assert TrimStart("\r") == TrimStart("\r"[1..]);
    } else if IsSpace(t[0]) {
      assert s[1..] == t[1..] + "\r" && StripCr(s[1..]) == t[1..];
      TrimOneCr(s[1..]);
    } else {
      assert TrimStart(s) == s && TrimStart(t) == t;
      assert s[..|s| - 1] == t;
    }
  }

  lemma {:induction false} TrimMembers(s: string)
    ensures forall c :: c in Trim(s) ==> c in s
  {
    TrimStartMembers(s);
    TrimEndMembers(TrimStart(s));
  }

  lemma {:induction false} TrimStartMembers(s: string)
    ensures forall c :: c in TrimStart(s) ==> c in s
  {
    if s != "" && IsSpace(s[0]) {
      TrimStartMembers(s[1..]);
    }
  }

  lemma {:induction false} TrimEndMembers(s: string)
    ensures forall c :: c in TrimEnd(s) ==> c in s
  {
    if s != "" && IsSpace(s[|s| - 1]) {
      TrimEndMembers(s[..|s| - 1]);
    }
  }

  lemma CrIsInValue(line: string)
    requires '=' in line && EndsWithCr(line)
    ensures KeyOf(StripCr(line)) == KeyOf(line)
    ensures ValueOf(StripCr(line)) == StripCr(ValueOf(line)) && EndsWithCr(ValueOf(line))
  {
    hide Trim;
    var i := IndexOf(line, '=');
    IndexInside(line, '=');
    var t, front := StripCr(line), line[..i];
    var value := line[i + 1..];
    assert line[|line| - 1] == '\r' && i < |t| && t[i] == '=';
    assert value[|value| - 1] == '\r';
    assert t == front + ['='] + t[i + 1..];
    IndexAfter(front, t[i + 1..], '=');
    assert t[..i] == front;
    assert t[i + 1..] == value[..|value| - 1];
  }

  lemma IndexInside(s: string, c: char)
    requires c in s
    ensures IndexOf(s, c) < |s|
  {
    assert s[..|s|] == s;
  }

  lemma NoCrInValue(line: string)
    requires '=' in line && !EndsWithCr(line)
    ensures !EndsWithCr(ValueOf(line))
  {
    IndexInside(line, '=');
  }

  /** A trailing carriage return is part of a line's value and of nothing else. */
  lemma StripCrOfLine(line: string)
    ensures IsAssignment(StripCr(line)) <==> IsAssignment(line)
    ensures IsAssignment(line) ==> KeyOf(StripCr(line)) == KeyOf(line)
                                   && ValueOf(StripCr(line)) == StripCr(ValueOf(line))
                                   && (EndsWithCr(line) <==> EndsWithCr(ValueOf(line)))
  {
    hide Trim, IsSpace, KeyOf, ValueOf;
    TrimMembers(line);
    if EndsWithCr(line) {
      TrimOneCr(line);
      if IsAssignment(line) {
        CrIsInValue(line);
      }
    } else if IsAssignment(line) {
      NoCrInValue(line);
    }
  }

  lemma {:induction false} ParseStripped(lines: seq<string>, key: string)
    ensures var plain, stripped := ParseLines(lines), ParseLines(Stripped(lines));
            && (key in stripped <==> key in plain)
            && (key in plain ==> stripped[key] == StripCr(plain[key]))
  {
    hide IsAssignment, KeyOf, ValueOf, StripCr, EndsWithCr;
    if lines != [] {
      var n := |lines| - 1;
      ParseStripped(lines[..n], key);
      StripCrOfLine(lines[n]);
      assert Stripped(lines)[..n] == Stripped(lines[..n]);
    }
  }

  lemma {:induction false} OnlyLastEndsWithCr(text: string)
    requires !HasCrLf(text)
    ensures forall i :: 0 <= i < |Lines(text)| - 1 ==> !EndsWithCr(Lines(text)[i])
    ensures EndsWithCr(text) ==> EndsWithCr(Lines(text)[|Lines(text)| - 1])
    decreases text
  {
    var i := IndexOf(text, '\n');
    if i < |text| {
      var rest := text[i + 1..];
      forall j | 0 <= j < |rest| - 1
        ensures !(rest[j] == '\r' && rest[j + 1] == '\n')
      {
        assert text[i + 1 + j] == rest[j] && text[i + 1 + j + 1] == rest[j + 1];
      }
      OnlyLastEndsWithCr(rest);
      assert text[..i] != "" ==> text[i - 1] != '\r';
    }
  }

  /** A parsed value that ends in a carriage return comes from the last line, if only that one does. */
  lemma {:induction false} CrValueIsLast(lines: seq<string>, key: string)
    requires lines != []
    requires forall i :: 0 <= i < |lines| - 1 ==> !EndsWithCr(lines[i])
    ensures key in ParseLines(lines) && EndsWithCr(ParseLines(lines)[key]) <==>
            Assigns(lines[|lines| - 1], key) && EndsWithCr(lines[|lines| - 1])
  {
    hide IsAssignment, KeyOf, ValueOf, EndsWithCr;
    var n := |lines| - 1;
    StripCrOfLine(lines[n]);
    NoCrValues(lines[..n], key);
  }

  lemma {:induction false} NoCrValues(lines: seq<string>, key: string)
    requires forall l :: l in lines ==> !EndsWithCr(l)
    ensures key in ParseLines(lines) ==> !EndsWithCr(ParseLines(lines)[key])
  {
    hide IsAssignment, KeyOf, ValueOf, EndsWithCr;
    if lines != [] {
      NoCrValues(lines[..|lines| - 1], key);
      StripCrOfLine(lines[|lines| - 1]);
    }
  }

  predicate LosesCr(text: string, us: seq<Update>) {
    && !SafeEnding(text)
    && var last := Lines(text)[|Lines(text)| - 1];
       IsAssignment(last) && !HasKey(us, KeyOf(last))
  }

  /** Without CRLF and with a lone carriage return at the end, every value read back has lost one. */
  lemma UnsafeRewriteParses(text: string, us: seq<Update>, key: string)
    requires GoodUpdates(us) && !SafeEnding(text)
    ensures var plain := ParseLines(RewrittenLines(Lines(text), us));
            var after := ParsedText(Rewritten(text, us));
            && (key in after <==> key in plain)
            && (key in plain ==> after[key] == StripCr(plain[key]))
  {
    hide Lines, IsAssignment, KeyOf, StripCr, LineOf, Lookup, Appears, HasKey, GoodUpdates;
    var lines := RewrittenLines(Lines(text), us);
    assert Eol(text) == "\n" && text != "";
    OnlyLastEndsWithCr(text);
    UnsafeLines(text, us);
    JoinKeepsEnd(lines);
    LinesOfLfJoin(lines);
    ParseStripped(lines, key);
    EmptyLineIsNoAssignment();
    assert (Stripped(lines) + [""])[..|lines|] == Stripped(lines);
  }

  lemma UnsafeLines(text: string, us: seq<Update>)
    requires GoodUpdates(us) && !SafeEnding(text)
    ensures var lines := RewrittenLines(Lines(text), us);
            && lines != [] && lines[|lines| - 1] != ""
            && forall l :: l in lines ==> '\n' !in l
  {
    hide Lines, IsAssignment, KeyOf, LineOf, Lookup, Appears, HasKey, IsKey, IsValue;
    var before := Lines(text);
    var replaced, missing := Replaced(before, us), Missing(before, us);
    LinesAreClean(text);
    OnlyLastEndsWithCr(text);
    forall l | l in replaced + Printed(missing)
      ensures '\n' !in l
    {
      if l in replaced {
        ReplacedMembers(before, us, l);
        if l !in before {
          var key :| HasKey(us, key) && l == LineOf(key, Lookup(us, key));
          LookupGood(us, key);
          PrintedIsClean(key, Lookup(us, key));
        }
      } else {
        PrintedMember(missing, us, before, l);
      }
    }
    LineOfNonempty();
    if missing != [] {
      assert Printed(missing)[|missing| - 1] == LineOf(missing[|missing| - 1].key, missing[|missing| - 1].value);
    } else {
      assert replaced + Printed(missing) == replaced;
    }
  }

  lemma LineOfNonempty()
    ensures forall key, value :: LineOf(key, value) != ""
  {
  }

  /** Keys that are not updated keep their values exactly when the rewrite does not lose a final carriage
      return: stated for all texts. */
  lemma OtherKeysKeptIff(text: string, us: seq<Update>)
    requires GoodUpdates(us)
    ensures var before, after := ParsedText(text), ParsedText(Rewritten(text, us));
            (forall key :: !HasKey(us, key) ==>
                             (key in after <==> key in before) && (key in after ==> after[key] == before[key]))
            <==> !LosesCr(text, us)
  {
    hide Lines, IsAssignment, KeyOf, ParseLines, Rewritten, RewrittenLines, GoodUpdates, HasKey, SafeEnding;
    var before, after := ParsedText(text), ParsedText(Rewritten(text, us));
    if SafeEnding(text) {
      forall key | !HasKey(us, key)
        ensures (key in after <==> key in before) && (key in after ==> after[key] == before[key])
      {
        ReadBack(text, us, key);
      }
    } else {
      var last := Lines(text)[|Lines(text)| - 1];
      forall key | !HasKey(us, key)
        ensures key in after <==> key in before
        ensures key in after ==> (after[key] == before[key] <==> !Assigns(last, key))
      {
        UnsafeReadBack(text, us, key);
      }
      if LosesCr(text, us) {
        var key := KeyOf(last);
        UnsafeReadBack(text, us, key);
        assert Assigns(last, key);
        assert key in after && after[key] != before[key];
      }
    }
  }

  lemma UnsafeReadBack(text: string, us: seq<Update>, key: string)
    requires GoodUpdates(us) && !SafeEnding(text) && !HasKey(us, key)
    ensures var before, after := ParsedText(text), ParsedText(Rewritten(text, us));
            var last := Lines(text)[|Lines(text)| - 1];
            && (key in after <==> key in before)
            && (Assigns(last, key) ==> key in before)
            && (key in after ==> (after[key] == before[key] <==> !Assigns(last, key)))
  {
    hide Lines, IsAssignment, KeyOf, ParseLines, Rewritten, RewrittenLines, GoodUpdates, HasKey;
    UnsafeRewriteParses(text, us, key);
    ReadBackLines(Lines(text), us, key);
    OnlyLastEndsWithCr(text);
    CrValueIsLast(Lines(text), key);
  }

  /** An updated key reads back its new value exactly when the text assigns it at most once, or its last
      assignment agreed already: stated for all texts. */
  lemma UpdatedKeyReadsBackIff(text: string, us: seq<Update>, key: string)
    requires GoodUpdates(us) && HasKey(us, key)
    ensures var before, after := ParsedText(text), ParsedText(Rewritten(text, us));
            && key in after
            && (after[key] == Lookup(us, key) <==>
                || Count(ContentLines(text), key) <= 1
                || (key in before && (if SafeEnding(text) then before[key] else StripCr(before[key]))
                                    == Lookup(us, key)))
  {
    hide Lines, ParseLines, Rewritten, RewrittenLines, GoodUpdates, HasKey, SafeEnding, Lookup, StripCr, ContentLines;
    if SafeEnding(text) {
      ReadBack(text, us, key);
    } else {
      UnsafeIsNotEmpty(text);
      UnsafeRewriteParses(text, us, key);
      PlainValue(Lines(text), us, key);
      LookupHasNoCr(us, key);
    }
  }

  lemma UnsafeIsNotEmpty(text: string)
    requires !SafeEnding(text)
    ensures ContentLines(text) == Lines(text)
  {
  }

  lemma LookupHasNoCr(us: seq<Update>, key: string)
    requires GoodUpdates(us) && HasKey(us, key)
    ensures StripCr(Lookup(us, key)) == Lookup(us, key)
  {
    hide IsKey;
    LookupGood(us, key);
    var value := Lookup(us, key);
    assert value != "" ==> value[|value| - 1] in value;
  }

  lemma PlainValue(lines: seq<string>, us: seq<Update>, key: string)
    requires GoodUpdates(us) && HasKey(us, key)
    ensures var before, plain := ParseLines(lines), ParseLines(RewrittenLines(lines, us));
            && key in plain
            && (Count(lines, key) > 1 ==> key in before)
            && plain[key] == if Count(lines, key) <= 1 then Lookup(us, key) else before[key]
  {
    hide GoodUpdates, HasKey, Lookup, Appears;
    ParsedKeys(lines, key);
    ParseReplaced(lines, us, key);
    MissingGood(lines, us);
    MissingFacts(lines, us, key);
    ParsePrinted(Replaced(lines, us), Missing(lines, us), key);
  }
}
