/** Rewriting an env file twice with the same updates is rewriting it once, for every text that does not
    end in a lone carriage return (`EnvTwiceIff` covers the others). */
module EnvTwice {
  import opened EnvFile
  import opened EnvRewrite
  import opened EnvLaws

  // ---------------------------------------------------------------------------------------------
  // Idempotence
  // ---------------------------------------------------------------------------------------------

  /** The first line of every updated key already carries the update. */
  ghost predicate Settled(lines: seq<string>, us: seq<Update>) {
    forall i :: 0 <= i < |lines| ==> SettledLine(lines[..i], lines[i], us)
  }

  ghost predicate SettledLine(before: seq<string>, line: string, us: seq<Update>) {
    IsAssignment(line) && HasKey(us, KeyOf(line)) && !Appears(before, KeyOf(line)) ==>
      line == LineOf(KeyOf(line), Lookup(us, KeyOf(line)))
  }

  lemma SettledMore(lines: seq<string>, line: string, us: seq<Update>)
    ensures Settled(lines + [line], us) <==> Settled(lines, us) && SettledLine(lines, line, us)
  {
    hide SettledLine;
    var more := lines + [line];
    assert more[..|lines|] == lines && more[|lines|] == line;
    assert forall i :: 0 <= i < |lines| ==> more[..i] == lines[..i] && more[i] == lines[i];
  }

  lemma {:induction false} SettledIsFixed(lines: seq<string>, us: seq<Update>)
    requires Settled(lines, us)
    ensures Replaced(lines, us) == lines
  {
    hide IsAssignment, KeyOf, LineOf, Lookup, HasKey, Appears;
    if lines != [] {
      var n := |lines| - 1;
      assert lines == lines[..n] + [lines[n]];
      SettledMore(lines[..n], lines[n], us);
      SettledIsFixed(lines[..n], us);
    }
  }

  lemma ReplacedAppears(lines: seq<string>, us: seq<Update>, key: string)
    requires GoodUpdates(us)
    ensures Appears(Replaced(lines, us), key) <==> Appears(lines, key)
  {
    hide GoodUpdates;
    ParseReplaced(lines, us, key);
    ParsedKeys(lines, key);
    ParsedKeys(Replaced(lines, us), key);
  }

  lemma {:induction false} ReplacedIsSettled(lines: seq<string>, us: seq<Update>)
    requires GoodUpdates(us)
    ensures Settled(Replaced(lines, us), us)
  {
    hide IsAssignment, KeyOf, LineOf, Lookup, HasKey, Appears, GoodUpdates, Settled;
    if lines == [] {
      NothingToSettle(us);
    } else {
      var n := |lines| - 1;
      var front, line := lines[..n], lines[n];
      ReplacedIsSettled(front, us);
      var last := Replaced(lines, us)[|Replaced(front, us)|];
      assert Replaced(lines, us) == Replaced(front, us) + [last];
      SettledMore(Replaced(front, us), last, us);
      ReplacedAppears(front, us, KeyOf(line));
      if IsAssignment(line) && HasKey(us, KeyOf(line)) && !Appears(front, KeyOf(line)) {
        LookupGood(us, KeyOf(line));
        PrintedReadsBack(KeyOf(line), Lookup(us, KeyOf(line)));
      }
    }
  }

  lemma NothingToSettle(us: seq<Update>)
    ensures Settled([], us)
  {
  }

  lemma {:induction false} LookupMember(us: seq<Update>, u: Update)
    requires GoodUpdates(us) && u in us
    ensures Lookup(us, u.key) == u.value
  {
    hide IsKey, IsValue;
    if us[0] != u {
      assert u in us[1..];
      var j :| 0 < j < |us| && us[j] == u;
      LookupMember(us[1..], u);
    }
  }

  lemma {:induction false} PrintedIsSettled(lines: seq<string>, ms: seq<Update>, us: seq<Update>)
    requires GoodUpdates(us) && Settled(lines, us)
    requires forall u :: u in ms ==> u in us
    ensures Settled(lines + Printed(ms), us)
    decreases ms
  {
    hide IsAssignment, KeyOf, LineOf, Lookup, HasKey, Appears, Settled, IsKey, IsValue;
    if ms == [] {
      assert lines + Printed(ms) == lines;
    } else {
      var u := ms[0];
      var line := LineOf(u.key, u.value);
      LookupMember(us, u);
      PrintedReadsBack(u.key, u.value);
      SettledMore(lines, line, us);
      PrintedIsSettled(lines + [line], ms[1..], us);
      assert lines + Printed(ms) == lines + [line] + Printed(ms[1..]);
    }
  }

  lemma SettledPrefix(lines: seq<string>, n: nat, us: seq<Update>)
    requires Settled(lines, us) && n <= |lines|
    ensures Settled(lines[..n], us)
  {
    hide SettledLine;
    assert forall i :: 0 <= i < n ==> lines[..n][..i] == lines[..i];
  }

  lemma {:induction false} NothingMissing(lines: seq<string>, us: seq<Update>)
    requires forall u :: u in us ==> Appears(lines, u.key)
    ensures Missing(lines, us) == []
  {
    hide Appears;
    if us != [] {
      assert us[0] in us;
      NothingMissing(lines, us[1..]);
    }
  }

  /** The lines of a rewritten text are a fixed point of the line rewrite. */
  lemma RewrittenLinesFixed(lines: seq<string>, us: seq<Update>)
    requires GoodUpdates(us)
    ensures var kept := Trimmed(RewrittenLines(lines, us));
            && RewrittenLines(kept + [""], us) == kept + [""]
            && (kept == [] ==> RewrittenLines(["", ""], us) == ["", ""])
  {
    hide GoodUpdates, Settled, Replaced, Appears, Trimmed, IsAssignment, HasKey;
    var all := RewrittenLines(lines, us);
    var kept := Trimmed(all);
    ReplacedIsSettled(lines, us);
    MissingMembers(lines, us);
    PrintedIsSettled(Replaced(lines, us), Missing(lines, us), us);
    TrimmedFacts(all);
    SettledPrefix(all, |kept|, us);
    assert kept == all[..|kept|];
    EmptyLineIsNoAssignment();
    EmptyLineSettles(kept, us);
    SettledIsFixed(kept + [""], us);
    AllUpdatesAppear(lines, us);
    if kept == [] {
      assert kept + [""] == [""];
      EmptyLineSettles([""], us);
      assert [] + [""] == [""] && [""] + [""] == ["", ""];
      SettledIsFixed(["", ""], us);
      forall u | u in us
        ensures Appears(["", ""], u.key)
      {
        AppearsMore([""], "", u.key);
      }
      NothingMissing(["", ""], us);
    }
    NothingMissing(kept + [""], us);
  }

  lemma EmptyLineSettles(lines: seq<string>, us: seq<Update>)
    requires Settled(lines, us)
    ensures Settled(lines + [""], us)
  {
    hide Settled;
    EmptyLineIsNoAssignment();
    SettledMore(lines, "", us);
  }

  lemma AllUpdatesAppear(lines: seq<string>, us: seq<Update>)
    requires GoodUpdates(us)
    ensures forall u :: u in us ==> Appears(Trimmed(RewrittenLines(lines, us)) + [""], u.key)
  {
    hide GoodUpdates, RewrittenLines, IsAssignment, Trimmed;
    var all := RewrittenLines(lines, us);
    TrimmedFacts(all);
    EmptyLineIsNoAssignment();
    forall u | u in us
      ensures Appears(Trimmed(all) + [""], u.key)
    {
      ReadBackLines(lines, us, u.key);
      ParsedKeys(all, u.key);
      var l :| l in all && Assigns(l, u.key);
      assert l in Trimmed(all) + [""];
    }
  }

  lemma CrLfInRest(line: string, rest: string)
    requires '\n' !in line && !EndsWithCr(line)
    ensures HasCrLf(line + "\n" + rest) ==> HasCrLf(rest)
  {
    var text := line + "\n" + rest;
    assert forall j :: 0 <= j < |line| ==> text[j] == line[j] && line[j] in line;
    if i :| 0 <= i < |text| - 1 && text[i] == '\r' && text[i + 1] == '\n' {
      var k := |line| + 1;
      if i >= k {
        assert rest[i - k] == text[i] && rest[i - k + 1] == text[i + 1];
      }
    }
  }

  lemma {:induction false} JoinHasNoCrLf(lines: seq<string>)
    requires Clean(lines, "\n")
    ensures !HasCrLf(Join(lines, "\n") + "\n")
  {
    hide HasCrLf, EndsWithCr;
    NoCrLf();
    if lines != [] {
      assert lines[0] in lines;
      if |lines| == 1 {
        CrLfInRest(lines[0], "");
        assert lines[0] + "\n" + "" == Join(lines, "\n") + "\n";
      } else {
        JoinHasNoCrLf(lines[1..]);
        CrLfInRest(lines[0], Join(lines[1..], "\n") + "\n");
        assert lines[0] + "\n" + (Join(lines[1..], "\n") + "\n") == Join(lines, "\n") + "\n";
      }
    } else {
      assert Join(lines, "\n") + "\n" == "\n";
    }
  }

  lemma NoCrLf()
    ensures !HasCrLf("") && !HasCrLf("\n")
  {
  }

  lemma SameEol(text: string, us: seq<Update>)
    requires GoodUpdates(us) && SafeEnding(text)
    ensures Eol(Rewritten(text, us)) == Eol(text)
    ensures SafeEnding(Rewritten(text, us)) && Rewritten(text, us) != ""
  {
    hide GoodUpdates, RewrittenLines, Trimmed, Lines, ContentLines, Join, SafeEnding;
    RewrittenShape(text, us);
    var kept := Trimmed(RewrittenLines(ContentLines(text), us));
    var next := Rewritten(text, us);
    if Eol(text) == "\n" {
      JoinHasNoCrLf(kept);
    } else {
      assert next[|next| - 2] == '\r' && next[|next| - 1] == '\n';
    }
    EndsInNewline(next);
  }

  lemma EndsInNewline(text: string)
    requires text != "" && text[|text| - 1] == '\n'
    ensures SafeEnding(text)
  {
  }

  /** Env rewrite law: rewriting twice with the same updates gives the same text, duplicates included. */
  lemma RewriteTwice(text: string, us: seq<Update>)
    requires GoodUpdates(us) && SafeEnding(text)
    ensures Rewritten(Rewritten(text, us), us) == Rewritten(text, us)
  {
    hide GoodUpdates, RewrittenLines, Trimmed, Lines, SafeEnding, Rewritten, Join, Clean;
    var next := Rewritten(text, us);
    var kept := Trimmed(RewrittenLines(ContentLines(text), us));
    SameEol(text, us);
    RewrittenShape(text, us);
    RewrittenShape(next, us);
    RewrittenLinesFixed(ContentLines(text), us);
    TrimmedFacts(RewrittenLines(ContentLines(text), us));
    TrimmedFacts(kept);
    TrimmedEmpties();
  }

  lemma TrimmedEmpties()
    ensures Trimmed(["", ""]) == []
  {
    assert ["", ""][..1] == [""] && [""][..0] == [];
  }
}
