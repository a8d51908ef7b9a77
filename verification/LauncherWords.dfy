/** Command lines and entries the program did not write itself: unquoted programs, words and escapes. */
module LauncherWords {
  import opened Text
  import opened LauncherQuoting

  /** A word as it is typed: nothing in it separates, quotes or escapes. */
  predicate IsWord(w: string) {
    w != "" && forall i :: 0 <= i < |w| ==> !IsSpace(w[i]) && w[i] != '"' && w[i] != '\\'
  }

  lemma {:induction false} WordIsTaken(w: string, current: string, after: string)
    requires forall i :: 0 <= i < |w| ==> !IsSpace(w[i]) && w[i] != '"' && w[i] != '\\'
    ensures Words(w + after, current, false, false) == Words(after, current + w, false, false)
  {
    hide IsSpace;
    if w == "" {
      EmptyPlus(after);
      RightUnit(current);
    } else {
      ConsConcat(w, after);
      WordIsTaken(w[1..], current + [w[0]], after);
      Cons(w);
      Assoc(current, [w[0]], w[1..]);
    }
  }

  /** Words with spaces between them are those words. */
  lemma {:induction false} WordsAreRead(words: seq<string>)
    requires words != [] && forall w :: w in words ==> IsWord(w)
    ensures WordsOf(Join(words, ' ')) == words
  {
    var w := words[0];
    assert w in words && IsSpace(' ');
    if |words| == 1 {
      RightUnit(w);
      WordIsTaken(w, "", "");
      EmptyPlus(w);
    } else {
      var rest := Join(words[1..], ' ');
      WordsAreRead(words[1..]);
      Assoc(w, " ", rest);
      WordIsTaken(w, "", " " + rest);
      EmptyPlus(w);
      assert (" " + rest)[0] == ' ' && (" " + rest)[1..] == rest;
      Cons(words);
    }
  }

  /** A backslash takes what follows into the word as it is, a space or a quote too, in quotes or not. */
  lemma EscapeIsTaken(c: char, current: string, inQuotes: bool, after: string)
    ensures Words("\\" + [c] + after, current, inQuotes, false) == Words(after, current + [c], inQuotes, false)
  {
    var s := "\\" + [c] + after;
    assert s[0] == '\\' && s[1..] == [c] + after && ([c] + after)[1..] == after;
  }

  /** A program without quotes is what stands before the first space. */
  lemma UnquotedProgramIsRead(path: string, arguments: string)
    requires path != "" && ' ' !in path && path[0] != '"' && IsTrimmed(path)
    ensures Program(path) == path && Program(path + (" " + arguments)) == path
    ensures ProgramFromRunValue(path) == path
    ensures IsTrimmed(path + (" " + arguments)) ==> ProgramFromRunValue(path + (" " + arguments)) == path
  {
    var value := path + (" " + arguments);
    assert value[|path|] == ' ';
    assert forall i :: 0 <= i < |path| ==> value[i] == path[i];
    assert IndexOf(value, ' ', 0) == |path| && value[..|path|] == path;
    assert IndexOf(path, ' ', 0) == |path| && path[..|path|] == path;
  }

  /** The first line of a desktop entry that starts with Exec= names the program; the others do not. */
  lemma {:induction false} FirstExecLine(before: seq<string>, value: string, after: seq<string>)
    requires forall l :: l in before ==> |l| < 5 || l[..5] != "Exec="
    ensures ExecTarget(before + ["Exec=" + value] + after) == Program(Trim(value))
  {
    var lines := before + ["Exec=" + value] + after;
    if before == [] {
      assert lines[0] == "Exec=" + value;
      assert ("Exec=" + value)[0..5] == "Exec=" && ("Exec=" + value)[5..] == value;
    } else {
      var l := before[0];
      assert l in before && lines[0] == l;
      assert lines[1..] == before[1..] + ["Exec=" + value] + after;
      assert |l| >= 5 ==> l[0..5] == l[..5];
      FirstExecLine(before[1..], value, after);
    }
  }

  lemma {:induction false} NoExecLine(lines: seq<string>)
    requires forall l :: l in lines ==> |l| < 5 || l[..5] != "Exec="
    ensures ExecTarget(lines) == ""
  {
    if lines != [] {
      var l := lines[0];
      assert l in lines;
      assert |l| >= 5 ==> l[0..5] == l[..5];
      NoExecLine(lines[1..]);
    }
  }
}
