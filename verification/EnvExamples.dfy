/** Concrete env files on which a rewrite does less, or more, than it was asked to. */
module EnvExamples {
  import opened EnvFile
  import opened EnvRewrite
  import opened EnvLaws
  import opened EnvLoneCr
  import opened EnvTwiceIff

  lemma OneLine(line: string)
    requires '\n' !in line
    ensures Lines(line) == [line]
  {
    assert IndexOf(line, '\n') < |line| ==> line[IndexOf(line, '\n')] in line;
  }

  lemma TwoLines(first: string, second: string)
    requires '\n' !in first && !EndsWithCr(first) && '\n' !in second
    ensures Lines(first + "\n" + second) == [first, second]
  {
    hide Lines;
    SplitFirst(first, "\n", second);
    OneLine(second);
  }

  lemma ReadsBack(key: string, value: string, line: string)
    requires IsKey(key) && line == LineOf(key, value)
    ensures IsAssignment(line) && KeyOf(line) == key && ValueOf(line) == value
  {
    hide Trim, IsAssignment, KeyOf, ValueOf;
    PrintedReadsBack(key, value);
  }

  const TWICE := "A=1" + "\n" + "A=2"
  const SET_A := [Update("A", "3")]

  /** A key that is assigned twice keeps its last, old value (`UpdatedKeyReadsBackIff`). */
  lemma AssignedTwiceKeepsOld()
    ensures GoodUpdates(SET_A) && HasKey(SET_A, "A") && Lookup(SET_A, "A") == "3"
    ensures var after := ParsedText(Rewritten(TWICE, SET_A)); "A" in after && after["A"] == "2"
  {
    hide Lines, IsAssignment, KeyOf, ValueOf, Rewritten, RewrittenLines;
    assert SET_A[0] in SET_A;
    TwoLines("A=1", "A=2");
    ReadsBack("A", "1", "A=1");
    ReadsBack("A", "2", "A=2");
    var lines := ["A=1", "A=2"];
    assert ContentLines(TWICE) == lines;
    assert lines[..1] == ["A=1"] && ["A=1"][..0] == [];
    assert Count(["A=1"], "A") == 1 && Count(lines, "A") == 2;
    assert ParseLines(lines)["A"] == "2";
    NoCrLfWithoutCr(TWICE);
    RewrittenParses(TWICE, SET_A);
    PlainValue(lines, SET_A, "A");
  }

  lemma NoCrLfWithoutCr(text: string)
    requires '\r' !in text
    ensures SafeEnding(text)
  {
  }

  const LONE := "B=2" + "\n" + "A=1\r"
  const SET_B := [Update("B", "3")]

  /** A file that ends in a lone carriage return: a key that is not updated loses the character
      (`OtherKeysKeptIff`), and rewriting again changes the file again (`RewriteTwiceIff`). */
  lemma LoneCrIsLost()
    ensures GoodUpdates(SET_B) && !HasKey(SET_B, "A")
    ensures var before, after := ParsedText(LONE), ParsedText(Rewritten(LONE, SET_B));
            "A" in before && "A" in after && after["A"] != before["A"]
    ensures Rewritten(Rewritten(LONE, SET_B), SET_B) != Rewritten(LONE, SET_B)
  {
    hide Lines, IsAssignment, KeyOf, ValueOf, Rewritten, RewrittenLines, Missing;
    assert SET_B[0] in SET_B;
    TwoLines("B=2", "A=1\r");
    ReadsBack("A", "1\r", "A=1\r");
    assert Assigns(Lines(LONE)[|Lines(LONE)| - 1], "A");
    LoneIsUnsafe();
    UnsafeReadBack(LONE, SET_B, "A");
    RewriteTwiceIff(LONE, SET_B);
  }

  lemma LoneIsUnsafe()
    ensures !SafeEnding(LONE)
  {
    assert |LONE| == 8 && LONE[7] == '\r';
    forall i | 0 <= i < 7
      ensures LONE[i] != '\r'
    {
      assert i < 3 ==> LONE[i] == "B=2"[i];
      assert i > 3 ==> LONE[i] == "A=1\r"[i - 4];
    }
  }
}
