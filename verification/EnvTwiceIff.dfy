/** Exactly when rewriting an env file twice differs from rewriting it once: the text has no CRLF and ends
    in a lone carriage return on a line that the rewrite keeps beside other lines. The first rewrite then
    turns that carriage return into the only CRLF, and the second one switches every line end to CRLF. */
module EnvTwiceIff {
  import opened EnvFile
  import opened EnvRewrite
  import opened EnvLaws
  import opened EnvTwice
  import opened EnvLoneCr

  /** The rewrite replaces the last line. */
  predicate ReplacesLast(lines: seq<string>, us: seq<Update>)
    requires lines != []
  {
    var n := |lines| - 1;
    IsAssignment(lines[n]) && HasKey(us, KeyOf(lines[n])) && !Appears(lines[..n], KeyOf(lines[n]))
  }

  predicate Unstable(text: string, us: seq<Update>) {
    && !SafeEnding(text)
    && !ReplacesLast(Lines(text), us)
    && |Lines(text)| + |Missing(Lines(text), us)| > 1
  }

  function CrCount(lines: seq<string>): nat {
    if lines == [] then 0 else (if EndsWithCr(lines[0]) then 1 else 0) + CrCount(lines[1..])
  }

  function TotalLength(lines: seq<string>): nat {
    if lines == [] then 0 else |lines[0]| + TotalLength(lines[1..])
  }

  lemma {:induction false} CrCountFacts(lines: seq<string>)
    ensures CrCount(lines) <= |lines|
    ensures CrCount(lines) == |lines| <==> forall l :: l in lines ==> EndsWithCr(l)
    ensures CrCount(lines) == 0 <==> forall l :: l in lines ==> !EndsWithCr(l)
  {
    hide EndsWithCr;
    if lines != [] {
      assert lines == [lines[0]] + lines[1..];
      CrCountFacts(lines[1..]);
    }
  }

  lemma {:induction false} StrippedLength(lines: seq<string>)
    ensures TotalLength(Stripped(lines)) + CrCount(lines) == TotalLength(lines)
  {
    if lines != [] {
      StrippedLength(lines[1..]);
      assert Stripped(lines)[1..] == Stripped(lines[1..]);
    }
  }

  lemma {:induction false} JoinLength(lines: seq<string>, eol: string)
    requires lines != []
    ensures |Join(lines, eol) + eol| == TotalLength(lines) + |lines| * |eol|
  {
    if |lines| > 1 {
      JoinLength(lines[1..], eol);
    }
  }

  /** Which lines of the rewrite of an unsafe text end in a carriage return. */
  lemma UnsafeEnds(text: string, us: seq<Update>)
    requires GoodUpdates(us) && !SafeEnding(text)
    ensures var lines := RewrittenLines(Lines(text), us);
            && (ReplacesLast(Lines(text), us) ==> forall l :: l in lines ==> !EndsWithCr(l))
            && (!ReplacesLast(Lines(text), us) ==> exists l :: l in lines && EndsWithCr(l))
            && (|lines| > 1 ==> exists l :: l in lines && !EndsWithCr(l))
  {
    hide Lines, IsAssignment, KeyOf, LineOf, Lookup, Appears, HasKey, EndsWithCr, GoodUpdates;
    var before := Lines(text);
    var n := |before| - 1;
    OnlyLastEndsWithCr(text);
    FrontEnds(before[..n], us);
    PrintedEnds(before, us);
    var all := RewrittenLines(before, us);
    var front, missing := Replaced(before[..n], us), Printed(Missing(before, us));
    ReplacedLength(before[..n], us);
    assert Replaced(before, us) == front + [all[n]];
    assert all == front + [all[n]] + missing;
    if ReplacesLast(before, us) {
      UpdateEnds(us, KeyOf(before[n]));
    } else {
      assert all[n] == before[n] && all[n] in all;
    }
    if |all| > 1 {
      assert front != [] || missing != [];
      assert front != [] ==> front[0] in front && front[0] in all;
      assert missing != [] ==> missing[0] in missing && missing[0] in all;
    }
  }

  lemma {:induction false} ReplacedLength(lines: seq<string>, us: seq<Update>)
    ensures |Replaced(lines, us)| == |lines|
  {
    if lines != [] {
      ReplacedLength(lines[..|lines| - 1], us);
    }
  }

  lemma UpdateEnds(us: seq<Update>, key: string)
    requires GoodUpdates(us) && HasKey(us, key)
    ensures !EndsWithCr(LineOf(key, Lookup(us, key)))
  {
    LookupGood(us, key);
    LineEnds(key, Lookup(us, key));
  }

  lemma LineEnds(key: string, value: string)
    requires IsValue(value)
    ensures !EndsWithCr(LineOf(key, value))
  {
    var line := LineOf(key, value);
    if value != "" {
      assert value[|value| - 1] in value && line[|line| - 1] == value[|value| - 1];
    } else {
      assert line[|line| - 1] == '=';
    }
  }

  lemma {:induction false} FrontEnds(lines: seq<string>, us: seq<Update>)
    requires GoodUpdates(us) && forall l :: l in lines ==> !EndsWithCr(l)
    ensures forall l :: l in Replaced(lines, us) ==> !EndsWithCr(l)
  {
    hide EndsWithCr, LineOf, Lookup, HasKey, GoodUpdates;
    forall l | l in Replaced(lines, us)
      ensures !EndsWithCr(l)
    {
      ReplacedMembers(lines, us, l);
      if l !in lines {
        var key :| HasKey(us, key) && l == LineOf(key, Lookup(us, key));
        UpdateEnds(us, key);
      }
    }
  }

  lemma PrintedEnds(lines: seq<string>, us: seq<Update>)
    requires GoodUpdates(us)
    ensures forall l :: l in Printed(Missing(lines, us)) ==> !EndsWithCr(l)
  {
    hide EndsWithCr, LineOf, Appears, IsKey, IsValue;
    var missing := Missing(lines, us);
    MissingMembers(lines, us);
    forall i | 0 <= i < |missing|
      ensures !EndsWithCr(Printed(missing)[i])
    {
      assert missing[i] in missing;
      LineEnds(missing[i].key, missing[i].value);
    }
  }

  // ---------------------------------------------------------------------------------------------
  // The second rewrite
  // ---------------------------------------------------------------------------------------------

  /** The rewrite of an unsafe text, as text and as lines. */
  lemma UnsafeShape(text: string, us: seq<Update>)
    requires GoodUpdates(us) && !SafeEnding(text)
    ensures var lines := RewrittenLines(Lines(text), us);
            && lines != [] && lines[|lines| - 1] != "" && (forall l :: l in lines ==> '\n' !in l)
            && Rewritten(text, us) == Join(lines, "\n") + "\n"
            && Lines(Rewritten(text, us)) == Stripped(lines) + [""]
  {
    hide Lines, RewrittenLines, GoodUpdates, Join, StripTrailing;
    var lines := RewrittenLines(Lines(text), us);
    assert Eol(text) == "\n" && text != "";
    UnsafeLines(text, us);
    assert lines[|lines| - 1] in lines;
    JoinKeepsEnd(lines);
    LinesOfLfJoin(lines);
  }

  /** A line that loses its carriage return is still no line to be replaced. */
  lemma {:induction false} StrippedIsSettled(lines: seq<string>, us: seq<Update>)
    requires GoodUpdates(us) && Settled(lines, us)
    ensures Settled(Stripped(lines), us)
    ensures forall key :: Appears(Stripped(lines), key) <==> Appears(lines, key)
  {
    hide IsAssignment, KeyOf, LineOf, Lookup, HasKey, Appears, GoodUpdates, Settled, StripCr;
    if lines == [] {
      NothingToSettle(us);
      assert Stripped(lines) == [];
    } else {
      var n := |lines| - 1;
      var front, line := lines[..n], lines[n];
      assert lines == front + [line] && Stripped(lines) == Stripped(front) + [StripCr(line)];
      SettledMore(front, line, us);
      StrippedIsSettled(front, us);
      SettledMore(Stripped(front), StripCr(line), us);
      StripCrOfLine(line);
      StrippedLineSettles(front, line, us);
      forall key
        ensures Appears(Stripped(lines), key) <==> Appears(lines, key)
      {
        AppearsMore(front, line, key);
        AppearsMore(Stripped(front), StripCr(line), key);
        SameAssigns(line, key);
      }
    }
  }

  lemma SameAssigns(line: string, key: string)
    ensures Assigns(StripCr(line), key) <==> Assigns(line, key)
  {
    hide IsAssignment, KeyOf, StripCr;
    StripCrOfLine(line);
  }

  lemma StrippedLineSettles(front: seq<string>, line: string, us: seq<Update>)
    requires GoodUpdates(us) && SettledLine(front, line, us)
    requires forall key :: Appears(Stripped(front), key) <==> Appears(front, key)
    ensures SettledLine(Stripped(front), StripCr(line), us)
  {
    hide IsAssignment, KeyOf, LineOf, Lookup, HasKey, Appears, GoodUpdates;
    StripCrOfLine(line);
    if IsAssignment(line) && HasKey(us, KeyOf(line)) && !Appears(front, KeyOf(line)) {
      UpdateEnds(us, KeyOf(line));
    }
  }

  /** The stripped lines are a fixed point of the line rewrite. */
  lemma StrippedFixed(lines: seq<string>, us: seq<Update>)
    requires GoodUpdates(us)
    ensures var s := Stripped(RewrittenLines(lines, us)) + [""]; RewrittenLines(s, us) == s
  {
    hide GoodUpdates, Settled, Replaced, Appears, IsAssignment, HasKey, Stripped;
    var all := RewrittenLines(lines, us);
    ReplacedIsSettled(lines, us);
    MissingMembers(lines, us);
    PrintedIsSettled(Replaced(lines, us), Missing(lines, us), us);
    StrippedIsSettled(all, us);
    EmptyLineSettles(Stripped(all), us);
    SettledIsFixed(Stripped(all) + [""], us);
    UpdatesAppear(lines, us);
    forall u | u in us
      ensures Appears(Stripped(all) + [""], u.key)
    {
      AppearsMore(Stripped(all), "", u.key);
    }
    NothingMissing(Stripped(all) + [""], us);
  }

  lemma UpdatesAppear(lines: seq<string>, us: seq<Update>)
    requires GoodUpdates(us)
    ensures forall u :: u in us ==> Appears(RewrittenLines(lines, us), u.key)
  {
    hide GoodUpdates, RewrittenLines;
    forall u | u in us
      ensures Appears(RewrittenLines(lines, us), u.key)
    {
      ReadBackLines(lines, us, u.key);
      ParsedKeys(RewrittenLines(lines, us), u.key);
    }
  }

  lemma StrippedIsClean(lines: seq<string>)
    requires forall l :: l in lines ==> '\n' !in l
    ensures Clean(Stripped(lines) + [""], "\r\n")
    ensures (forall l :: l in lines ==> !EndsWithCr(l)) ==> Stripped(lines) == lines && Clean(lines + [""], "\n")
  {
    forall l | l in Stripped(lines)
      ensures '\n' !in l
    {
      var i :| 0 <= i < |lines| && l == StripCr(lines[i]);
      assert lines[i] in lines;
    }
    assert forall i :: 0 <= i < |lines| ==> lines[i] in lines;
  }

  /** The second rewrite of a text whose lines are a fixed point. */
  lemma SecondRewrite(next: string, kept: seq<string>, us: seq<Update>)
    requires next != "" && Lines(next) == kept + [""] && RewrittenLines(kept + [""], us) == kept + [""]
    requires Clean(kept + [""], Eol(next))
    ensures Rewritten(next, us) == Join(Trimmed(kept), Eol(next)) + Eol(next)
  {
    hide Lines, RewrittenLines, Clean, Join, Trimmed, HasCrLf, StripTrailing;
    StripJoin(kept + [""], Eol(next));
    TrimmedFacts(kept);
  }

  lemma CrLfAppears(lines: seq<string>)
    requires exists l :: l in lines && EndsWithCr(l)
    ensures HasCrLf(Join(lines, "\n") + "\n")
    decreases lines
  {
    hide EndsWithCr, HasCrLf;
    assert lines == [lines[0]] + lines[1..];
    var rest := if |lines| == 1 then "" else Join(lines[1..], "\n") + "\n";
    assert Join(lines, "\n") + "\n" == lines[0] + "\n" + rest;
    if EndsWithCr(lines[0]) {
      CrLfHere(lines[0], rest);
    } else {
      CrLfAppears(lines[1..]);
      CrLfLater(lines[0] + "\n", rest);
    }
  }

  lemma CrLfHere(line: string, rest: string)
    requires EndsWithCr(line)
    ensures HasCrLf(line + "\n" + rest)
  {
    var text, i := line + "\n" + rest, |line| - 1;
    assert text[i] == '\r' && text[i + 1] == '\n';
  }

  lemma CrLfLater(front: string, rest: string)
    requires HasCrLf(rest)
    ensures HasCrLf(front + rest)
  {
    var i :| 0 <= i < |rest| - 1 && rest[i] == '\r' && rest[i + 1] == '\n';
    var text, k := front + rest, |front| + i;
    assert text[k] == '\r' && text[k + 1] == '\n';
  }

  /** No carriage return is left at a line end: the second rewrite changes nothing. */
  lemma StableWithoutCr(text: string, us: seq<Update>)
    requires GoodUpdates(us) && !SafeEnding(text)
    requires forall l :: l in RewrittenLines(Lines(text), us) ==> !EndsWithCr(l)
    ensures Rewritten(Rewritten(text, us), us) == Rewritten(text, us)
  {
    hide GoodUpdates, RewrittenLines, Lines, Join, Trimmed, Clean, EndsWithCr, HasCrLf, Rewritten, Stripped;
    var lines, next := RewrittenLines(Lines(text), us), Rewritten(text, us);
    UnsafeShape(text, us);
    StrippedIsClean(lines);
    StrippedFixed(Lines(text), us);
    CleanPrefix(lines);
    JoinHasNoCrLf(lines);
    assert Eol(next) == "\n";
    SecondRewrite(next, lines, us);
    NothingToTrim(lines);
  }

  lemma CleanPrefix(lines: seq<string>)
    ensures Clean(lines + [""], "\n") ==> Clean(lines, "\n")
  {
  }

  lemma NothingToTrim(lines: seq<string>)
    requires lines != [] && lines[|lines| - 1] != ""
    ensures Trimmed(lines) == lines
  {
  }

  /** With a CRLF from a kept carriage return, the second rewrite changes nothing exactly when that line
      is the only one. */
  lemma StableWithCr(text: string, us: seq<Update>)
    requires GoodUpdates(us) && !SafeEnding(text)
    requires exists l :: l in RewrittenLines(Lines(text), us) && EndsWithCr(l)
    requires |RewrittenLines(Lines(text), us)| > 1 ==>
               exists l :: l in RewrittenLines(Lines(text), us) && !EndsWithCr(l)
    ensures Rewritten(Rewritten(text, us), us) == Rewritten(text, us) <==> |RewrittenLines(Lines(text), us)| == 1
  {
    hide GoodUpdates, RewrittenLines, Lines, Join, Trimmed, Clean, EndsWithCr, HasCrLf, Rewritten, Stripped;
    var lines, next := RewrittenLines(Lines(text), us), Rewritten(text, us);
    var kept := Stripped(lines);
    UnsafeShape(text, us);
    StrippedIsClean(lines);
    StrippedFixed(Lines(text), us);
    CrLfAppears(lines);
    SecondRewrite(next, kept, us);
    if |lines| == 1 {
      OneLineStays(lines[0]);
      assert lines == [lines[0]];
    } else {
      ManyLinesChange(lines);
    }
  }

  lemma OneLineStays(line: string)
    requires EndsWithCr(line)
    ensures Join(Trimmed(Stripped([line])), "\r\n") + "\r\n" == Join([line], "\n") + "\n"
  {
    assert Stripped([line]) == [StripCr(line)];
    assert line == StripCr(line) + "\r";
    assert [""][..0] == [];
  }

  lemma ManyLinesChange(lines: seq<string>)
    requires |lines| > 1 && (exists l :: l in lines && !EndsWithCr(l)) && forall l :: l in lines ==> '\n' !in l
    ensures Join(Trimmed(Stripped(lines)), "\r\n") + "\r\n" != Join(lines, "\n") + "\n"
  {
    hide Join, Trimmed, Clean, EndsWithCr, Lines, Stripped;
    var kept := Stripped(lines);
    var t := Trimmed(kept);
    LinesOfLfJoin(lines);
    StrippedIsClean(lines);
    StrippedLengthKept(lines);
    TrimmedFacts(kept);
    if t == kept {
      JoinLength(kept, "\r\n");
      JoinLength(lines, "\n");
      StrippedLength(lines);
      CrCountFacts(lines);
    } else if t == [] {
      assert Join(t, "\r\n") + "\r\n" == "\r\n" by {
        JoinNothing();
      }
      NoLines();
      assert kept + [""] != ["", ""];
    } else {
      CleanTrimmed(kept);
      LinesOfJoin(t, "\r\n");
      assert t + [""] != kept + [""] by {
        assert (t + [""])[..|t|] == t && (kept + [""])[..|kept|] == kept;
      }
    }
  }

  lemma JoinNothing()
    ensures Join([], "\r\n") == ""
  {
  }

  lemma StrippedLengthKept(lines: seq<string>)
    ensures |Stripped(lines)| == |lines|
  {
  }

  lemma CleanTrimmed(lines: seq<string>)
    requires Clean(lines + [""], "\r\n")
    ensures Clean(Trimmed(lines), "\r\n")
  {
    hide Trimmed;
    TrimmedFacts(lines);
    assert forall l :: l in Trimmed(lines) ==> l in lines && l in lines + [""];
  }

  /** Rewriting twice is rewriting once exactly when the text is not unstable: stated for all texts. */
  lemma RewriteTwiceIff(text: string, us: seq<Update>)
    requires GoodUpdates(us)
    ensures Rewritten(Rewritten(text, us), us) == Rewritten(text, us) <==> !Unstable(text, us)
  {
    RewrittenLength(Lines(text), us);
    hide GoodUpdates, RewrittenLines, Lines, Rewritten, SafeEnding, EndsWithCr, ReplacesLast, Missing;
    if SafeEnding(text) {
      RewriteTwice(text, us);
    } else {
      UnsafeEnds(text, us);
      UnsafeShape(text, us);
      if ReplacesLast(Lines(text), us) {
        StableWithoutCr(text, us);
      } else {
        StableWithCr(text, us);
      }
    }
  }

  lemma RewrittenLength(lines: seq<string>, us: seq<Update>)
    ensures |RewrittenLines(lines, us)| == |lines| + |Missing(lines, us)|
  {
    ReplacedLength(lines, us);
  }
}
