/** What counts as an assignment in an env file, and which keys and values an update may have. */
module EnvMeaning {
  import opened EnvFile

  ghost predicate AllSpace(s: string) { forall i :: 0 <= i < |s| ==> IsSpace(s[i]) }

  ghost predicate NoSpaceAtEnds(s: string) { s == "" || (!IsSpace(s[0]) && !IsSpace(s[|s| - 1])) }

  /** Trimming takes white space off both ends, and nothing else. */
  lemma {:induction false} TrimMeaning(a: string, s: string, b: string)
    requires AllSpace(a) && AllSpace(b) && NoSpaceAtEnds(s)
    ensures Trim(a + s + b) == s
  {
    hide IsSpace;
    if s == "" {
      SpaceStart(a + b, "");
      assert a + s + b == (a + b) + "";
    } else {
      assert a + s + b == a + (s + b) && (s + b)[0] == s[0];
      SpaceStart(a, s + b);
      SpaceEnd(s, b);
    }
  }

  lemma {:induction false} SpaceStart(a: string, s: string)
    requires AllSpace(a) && (s == "" || !IsSpace(s[0]))
    ensures TrimStart(a + s) == s
  {
    hide IsSpace;
    if a == "" {
      assert a + s == s;
    } else {
      assert (a + s)[1..] == a[1..] + s && (a + s)[0] == a[0];
      SpaceStart(a[1..], s);
    }
  }

  lemma {:induction false} SpaceEnd(s: string, b: string)
    requires AllSpace(b) && (s == "" || !IsSpace(s[|s| - 1]))
    ensures TrimEnd(s + b) == s
  {
    hide IsSpace;
    if b == "" {
      assert s + b == s;
    } else {
      var n := |b| - 1;
      assert (s + b)[..|s + b| - 1] == s + b[..n] && (s + b)[|s + b| - 1] == b[n];
      SpaceEnd(s, b[..n]);
    }
  }

  /** White space is the tab, the line ends, the space, and the other blanks that Unicode has, by their numbers. */
  lemma SpaceMeaning(c: char)
    ensures var n := c as int;
            IsSpace(c) <==> 9 <= n <= 13 || n in {32, 160, 5760} || 8192 <= n <= 8202
                            || n in {8232, 8233, 8239, 8287, 12288, 65279}
    ensures IsSpace('\t') && IsSpace('\n') && IsSpace('\r') && IsSpace(' ')
    ensures ' ' < c <= '~' ==> !IsSpace(c)
  {
  }

  /** A key that may have blanks around it, an equals sign, and whatever follows: the line assigns what follows,
      blanks included, to the key without them. */
  lemma AssignmentMeaning(a: string, key: string, b: string, value: string)
    requires AllSpace(a) && AllSpace(b) && NoSpaceAtEnds(key) && key != "" && '=' !in key && key[0] != '#'
    ensures var line := a + key + b + "=" + value;
            IsAssignment(line) && KeyOf(line) == key && ValueOf(line) == value
  {
    hide Trim;
    var line, head := a + key + b + "=" + value, a + key + b;
    assert '=' !in head by {
      NoEqualsInSpace(a);
      NoEqualsInSpace(b);
    }
    assert line == head + ("=" + value) && line[|head|] == '=';
    assert line[..|head|] == head && line[|head| + 1..] == value;
    FirstEquals(head, value);
    TrimMeaning(a, key, b);
    assert (b + "=" + value)[|b|] == '=';
    StartsWith(a, key, b + "=" + value);
    assert line == a + key + (b + "=" + value);
  }

  lemma FirstEquals(head: string, value: string)
    requires '=' !in head
    ensures IndexOf(head + "=" + value, '=') == |head|
  {
    var line := head + "=" + value;
    var i := IndexOf(line, '=');
    assert line[|head|] == '=';
    forall k | 0 <= k < |head|
      ensures line[k] != '='
    {
      assert line[k] == head[k];
    }
    forall k | 0 <= k < i
      ensures line[k] != '='
    {
      assert line[..i][k] == line[k];
    }
  }

  lemma NoEqualsInSpace(a: string)
    requires AllSpace(a)
    ensures '=' !in a
  {
  }

  /** What a line starts with, after its blanks, its trimmed form starts with. */
  lemma StartsWith(a: string, key: string, rest: string)
    requires AllSpace(a) && key != "" && !IsSpace(key[0]) && rest != "" && exists i :: 0 <= i < |rest| && rest[i] == '='
    ensures var t := Trim(a + key + rest); t != "" && t[0] == key[0] && '=' in t
  {
    hide IsSpace;
    var s := key + rest;
    assert a + key + rest == a + s && s[0] == key[0];
    SpaceStart(a, s);
    var i :| 0 <= i < |rest| && rest[i] == '=';
    assert s[|key| + i] == '=';
    KeepsStart(s, |key| + i);
  }

  lemma {:induction false} KeepsStart(s: string, i: nat)
    requires i < |s| && s[i] == '=' && !IsSpace(s[0])
    ensures TrimEnd(s) != "" && TrimEnd(s)[0] == s[0] && '=' in TrimEnd(s)
  {
    if IsSpace(s[|s| - 1]) {
      assert i < |s| - 1 && s[..|s| - 1][i] == '=';
      KeepsStart(s[..|s| - 1], i);
    } else {
      assert TrimEnd(s) == s;
    }
  }

  /** A comment, a blank line and a line without an equals sign assign nothing. */
  lemma IgnoredMeaning(a: string, rest: string)
    requires AllSpace(a)
    ensures !IsAssignment(a) && !IsAssignment(a + "#" + rest)
    ensures '=' !in rest ==> !IsAssignment(rest)
  {
    hide IsSpace, Trim;
    assert a + "" + "" == a;
    TrimMeaning(a, "", "");
    CommentStart(a, rest);
    if '=' !in rest {
      TrimKeeps(rest, '=');
    }
  }

  lemma CommentStart(a: string, rest: string)
    requires AllSpace(a)
    ensures Trim(a + "#" + rest) == "" || Trim(a + "#" + rest)[0] == '#'
  {
    var s := "#" + rest;
    assert a + "#" + rest == a + s && s[0] == '#' && !IsSpace('#');
    SpaceStart(a, s);
    EndKeepsFirst(s);
  }

  lemma {:induction false} EndKeepsFirst(s: string)
    ensures TrimEnd(s) == "" || (s != "" && TrimEnd(s)[0] == s[0])
  {
    hide IsSpace;
    if s != "" && IsSpace(s[|s| - 1]) {
      EndKeepsFirst(s[..|s| - 1]);
    }
  }

  lemma TrimKeeps(s: string, c: char)
    requires c !in s
    ensures c !in Trim(s)
  {
    StartKeeps(s, c);
    EndKeeps(TrimStart(s), c);
  }

  lemma {:induction false} StartKeeps(s: string, c: char)
    requires c !in s
    ensures c !in TrimStart(s)
  {
    hide IsSpace;
    if s != "" && IsSpace(s[0]) {
      StartKeeps(s[1..], c);
    }
  }

  lemma {:induction false} EndKeeps(s: string, c: char)
    requires c !in s
    ensures c !in TrimEnd(s)
  {
    hide IsSpace;
    if s != "" && IsSpace(s[|s| - 1]) {
      EndKeeps(s[..|s| - 1], c);
    }
  }

  /** Keys are upper-case letters, digits and underscores, and start with a letter; values are single lines
      without the null character. */
  lemma UpdateMeaning(key: string, value: string)
    ensures IsKey(key) <==>
            && key != "" && 'A' <= key[0] <= 'Z'
            && forall i :: 0 <= i < |key| ==> 'A' <= key[i] <= 'Z' || '0' <= key[i] <= '9' || key[i] == '_'
    ensures IsValue(value) <==>
            forall i :: 0 <= i < |value| ==> value[i] != '\r' && value[i] != '\n' && value[i] != '\0'
  {
    assert IsKey(key) ==> forall i :: 0 <= i < |key| ==> key[i] in key;
  }
}
