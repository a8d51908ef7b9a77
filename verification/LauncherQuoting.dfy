/** The lines that start the program at login on Linux and Windows, and the parsers that
    read its path back. */
module LauncherQuoting {
  import opened Text

  // ---------- replacing ----------

  /** QString::replace(): every occurrence of `pat`, from the left. */
  function ReplaceAll(s: string, pat: string, with: string): string
    requires pat != ""
    decreases |s|
  {
    if s == "" then ""
    else if At(s, 0, pat) then with + ReplaceAll(s[|pat|..], pat, with)
    else [s[0]] + ReplaceAll(s[1..], pat, with)
  }

  lemma {:induction false} ReplacePart(a: string, b: string, c: char, with: string)
    ensures ReplaceAll(a + b, [c], with) == ReplaceAll(a, [c], with) + ReplaceAll(b, [c], with)
  {
    if a == "" {
      EmptyPlus(b);
      EmptyPlus(ReplaceAll(b, [c], with));
    } else {
      ConsConcat(a, b);
      ReplacePart(a[1..], b, c, with);
      assert (a + b)[..1] == [a[0]] == a[..1];
      Assoc(if a[0] == c then with else [a[0]], ReplaceAll(a[1..], [c], with), ReplaceAll(b, [c], with));
    }
  }

  lemma ReplaceOne(x: char, c: char, with: string)
    ensures ReplaceAll([x], [c], with) == if x == c then with else [x]
  {
  }

  // ---------- a desktop entry's Exec line ----------

  function ExecEscapedChar(c: char): string {
    if c == '\\' || c == '"' || c == '$' || c == '`' then ['\\', c] else [c]
  }

  function ExecEscaped(path: string): string {
    if path == "" then "" else ExecEscapedChar(path[0]) + ExecEscaped(path[1..])
  }

  function ExecQuoted(path: string): string { "\"" + ExecEscaped(path) + "\"" }

  /** Four replacements, each over what the ones before it made, escape each character once. */
  method DesktopExecQuoted(path: string) returns (quoted: string)
    ensures quoted == ExecQuoted(path)
  {
    var out := path;
    out := ReplaceAll(out, "\\", "\\\\");
    out := ReplaceAll(out, "\"", "\\\"");
    out := ReplaceAll(out, "$", "\\$");
    out := ReplaceAll(out, "`", "\\`");
    FourReplacements(path);
    quoted := "\"" + out + "\"";
  }

  function Escape(s: string, c: char): string { ReplaceAll(s, [c], ['\\', c]) }

  lemma {:induction false} FourReplacements(path: string)
    ensures Escape(Escape(Escape(Escape(path, '\\'), '"'), '$'), '`') == ExecEscaped(path)
  {
    if path != "" {
      var x, rest := [path[0]], path[1..];
      Cons(path);
      var a := Escape(rest, '\\');
      var b := Escape(a, '"');
      var c := Escape(b, '$');
      ReplacePart(x, rest, '\\', "\\\\");
      ReplacePart(Escape(x, '\\'), a, '"', "\\\"");
      ReplacePart(Escape(Escape(x, '\\'), '"'), b, '$', "\\$");
      ReplacePart(Escape(Escape(Escape(x, '\\'), '"'), '$'), c, '`', "\\`");
      FourReplacements(rest);
      OneCharacter(path[0]);
    }
  }

  lemma OneCharacter(x: char)
    ensures Escape(Escape(Escape(Escape([x], '\\'), '"'), '$'), '`') == ExecEscapedChar(x)
  {
    ReplaceOne(x, '\\', ['\\', '\\']);
    ReplaceOne(x, '"', ['\\', '"']);
    ReplaceOne(x, '$', ['\\', '$']);
    ReplaceOne(x, '`', ['\\', '`']);
    EscapePair(x, '"');
    EscapePair(x, '$');
    EscapePair(x, '`');
  }

  lemma EscapePair(x: char, c: char)
    requires c != '\\'
    ensures x != c ==> Escape(['\\', x], c) == ['\\', x]
  {
    var s := ['\\', x];
    assert s[..1] == ['\\'] && s[1..] == [x];
    ReplaceOne(x, c, ['\\', c]);
  }

  /** What stands from `i` on, inside quotes, up to the closing one, its escapes undone. */
  function Unquoted(value: string, i: nat): string
    decreases if i < |value| then |value| - i else 0
  {
    if i >= |value| || value[i] == '"' then ""
    else if value[i] == '\\' && i + 1 < |value| then [value[i + 1]] + Unquoted(value, i + 2)
    else [value[i]] + Unquoted(value, i + 1)
  }

  /** The first word, or what is between the leading quotes. */
  function Program(value: string): string {
    if value == "" || value[0] != '"' then value[..IndexOf(value, ' ', 0)] else Unquoted(value, 1)
  }

  const EXEC: string := "Exec="

  function ExecTarget(lines: seq<string>): string {
    if lines == [] then ""
    else if At(lines[0], 0, EXEC) then Program(Trim(lines[0][|EXEC|..]))
    else ExecTarget(lines[1..])
  }

  method AutoStartExecTarget(desktopEntry: string) returns (out: string)
    ensures out == ExecTarget(Lines(desktopEntry))
  {
    var lines := Lines(desktopEntry);
    assert lines[0..] == lines;
    for k := 0 to |lines|
      invariant ExecTarget(lines[k..]) == ExecTarget(lines)
    {
      var line := lines[k];
      Tail(lines, k);
      if !At(line, 0, EXEC) {
        continue;
      }
      var value := Trim(line[|EXEC|..]);
      if value == "" || value[0] != '"' {
        return value[..IndexOf(value, ' ', 0)];
      }
      out := "";
      var i := 1;
      EmptyPlus(Unquoted(value, 1));
      while i < |value|
        invariant out + Unquoted(value, i) == Unquoted(value, 1)
        decreases |value| - i
      {
        var c := value[i];
        if c == '"' {
          break;
        }
        if c == '\\' && i + 1 < |value| {
          i := i + 1;
          Assoc(out, [value[i]], Unquoted(value, i + 1));
          out := out + [value[i]];
          i := i + 1;
          continue;
        }
        Assoc(out, [c], Unquoted(value, i + 1));
        out := out + [c];
        i := i + 1;
      }
      RightUnit(out);
      return;
    }
    return "";
  }

  const ENTRY_HEAD: seq<string> := ["[Desktop Entry]", "Type=Application", "Name=FreeTunnel"]
  const ENTRY_TAIL: string := "\nTerminal=false\nX-GNOME-Autostart-enabled=true\n"

  /** The entry as it is written, with what follows the quoted program. */
  function DesktopEntry(path: string, arguments: string): string {
    Unlines(ENTRY_HEAD) + (EXEC + ExecQuoted(path) + arguments + ENTRY_TAIL)
  }

  /** Reading stops at the quote that closes what was escaped. */
  lemma {:induction false} UnquotedUndoesEscaped(before: string, path: string, after: string)
    ensures Unquoted(before + ExecEscaped(path) + "\"" + after, |before|) == path
    decreases |path|
  {
    var value := before + ExecEscaped(path) + "\"" + after;
    if path == "" {
      assert value[|before|] == '"';
    } else {
      var e, rest := ExecEscapedChar(path[0]), ExecEscaped(path[1..]);
      Assoc(before, e, rest);
      UnquotedUndoesEscaped(before + e, path[1..], after);
      assert value == (before + e) + rest + "\"" + after;
      assert forall k :: 0 <= k < |e| ==> value[|before| + k] == e[k];
      Cons(path);
    }
  }

  /** What is read from one line has no line break. */
  lemma {:induction false} UnquotedIsOfTheLine(value: string, i: nat)
    requires '\n' !in value
    ensures '\n' !in Unquoted(value, i)
    decreases if i < |value| then |value| - i else 0
  {
    if i >= |value| || value[i] == '"' {
    } else if value[i] == '\\' && i + 1 < |value| {
      UnquotedIsOfTheLine(value, i + 2);
    } else {
      UnquotedIsOfTheLine(value, i + 1);
    }
  }

  lemma {:induction false} TargetIsOfOneLine(lines: seq<string>)
    requires AreLines(lines)
    ensures '\n' !in ExecTarget(lines)
  {
    if lines == [] {
    } else if At(lines[0], 0, EXEC) {
      assert lines[0] in lines;
      var value := Trim(lines[0][|EXEC|..]);
      assert forall c :: c in value ==> c in lines[0];
      if value != "" && value[0] == '"' { UnquotedIsOfTheLine(value, 1); }
    } else {
      TargetIsOfOneLine(lines[1..]);
    }
  }

  lemma {:induction false} EscapedHasNoBreak(path: string)
    ensures '\n' in ExecEscaped(path) <==> '\n' in path
  {
    if path != "" {
      EscapedHasNoBreak(path[1..]);
      Cons(path);
    }
  }

  /** Trimming a value that starts with a quote cuts only behind the closing one. */
  lemma TrimKeepsQuoted(quoted: string, after: string)
    requires |quoted| >= 2 && quoted[0] == '"' && quoted[|quoted| - 1] == '"'
    ensures exists rest :: Trim(quoted + after) == quoted + rest
  {
    var value := quoted + after;
    assert !IsSpace('"');
    var a, b := TrimParts(value);
    hide IsSpace;
    forall k | b <= k < |value| ensures IsSpace(value[k]) { assert value[k] == value[b..][k - b]; }
    assert value[0] == value[|quoted| - 1] == '"';
    assert value[a..b] == quoted + value[|quoted|..b];
  }

  lemma {:induction false} HeadIsSkipped(head: seq<string>, lines: seq<string>)
    requires forall l :: l in head ==> !At(l, 0, EXEC)
    ensures ExecTarget(head + lines) == ExecTarget(lines)
  {
    if head == [] {
      EmptyPlus(lines);
    } else {
      ConsConcat(head, lines);
      assert head[0] in head;
      HeadIsSkipped(head[1..], lines);
    }
  }

  lemma HeadHasNoExec()
    ensures AreLines(ENTRY_HEAD) && forall l :: l in ENTRY_HEAD ==> !At(l, 0, EXEC)
  {
    forall l | l in ENTRY_HEAD ensures !At(l, 0, EXEC) {
      assert |l| >= |EXEC| && l[0] != 'E' && l[0..|EXEC|][0] == l[0];
    }
  }

  /** The quoted program on an Exec line, whatever follows it, is read back. */
  lemma QuotedProgramIsRead(path: string, after: string)
    ensures At(EXEC + ExecQuoted(path) + after, 0, EXEC)
    ensures Program(Trim((EXEC + ExecQuoted(path) + after)[|EXEC|..])) == path
  {
    var quoted := ExecQuoted(path);
    Assoc(EXEC, quoted, after);
    assert (EXEC + (quoted + after))[|EXEC|..] == quoted + after;
    TrimKeepsQuoted(quoted, after);
    var rest :| Trim(quoted + after) == quoted + rest;
    Assoc("\"" + ExecEscaped(path), "\"", rest);
    UnquotedUndoesEscaped("\"", path, rest);
  }

  /** The desktop entry gives the path back, whatever arguments stand after it, just when the
      path has no line break. */
  lemma DesktopEntryIsReadBackIff(path: string, arguments: string)
    ensures ExecTarget(Lines(DesktopEntry(path, arguments))) == path <==> '\n' !in path
  {
    TargetIsOfOneLine(Lines(DesktopEntry(path, arguments)));
    if '\n' !in path {
      HeadHasNoExec();
      var after := arguments + ENTRY_TAIL;
      var text := EXEC + ExecQuoted(path) + after;
      Assoc(EXEC + ExecQuoted(path), arguments, ENTRY_TAIL);
      LinesAfter(ENTRY_HEAD, text);
      HeadIsSkipped(ENTRY_HEAD, Lines(text));
      FirstLine(path, after);
    }
  }

  lemma FirstLine(path: string, after: string)
    requires '\n' !in path
    ensures ExecTarget(Lines(EXEC + ExecQuoted(path) + after)) == path
  {
    var text := EXEC + ExecQuoted(path) + after;
    var front := EXEC + ExecQuoted(path);
    EscapedHasNoBreak(path);
    assert '\n' !in front;
    var k := IndexOf(text, '\n', 0);
    assert forall i :: 0 <= i < |front| ==> text[i] == front[i];
    var cut := text[|front|..k];
    assert text[..k] == front + cut;
    QuotedProgramIsRead(path, cut);
    assert Lines(text)[0] == front + cut by {
      if k == |text| { assert text[..k] == text; }
    }
  }

  // ---------- a launcher's command line ----------

  /** The words of what is left of the line. */
  function Words(line: string, current: string, inQuotes: bool, escaped: bool): seq<string> {
    if line == "" then (if current == "" then [] else [current])
    else
      var c, rest := line[0], line[1..];
      if escaped then Words(rest, current + [c], inQuotes, false)
      else if c == '\\' then Words(rest, current, inQuotes, true)
      else if c == '"' then Words(rest, current, !inQuotes, false)
      else if !inQuotes && IsSpace(c) then (if current == "" then [] else [current]) + Words(rest, "", inQuotes, false)
      else Words(rest, current + [c], inQuotes, false)
  }

  function WordsOf(line: string): seq<string> { Words(line, "", false, false) }

  method SplitExec(line: string) returns (out: seq<string>)
    ensures out == WordsOf(line)
  {
    hide IsSpace;
    out := [];
    var current, inQuotes, escaped := "", false, false;
    assert line[0..] == line;
    EmptyPlus(WordsOf(line));
    for k := 0 to |line|
      invariant out + Words(line[k..], current, inQuotes, escaped) == WordsOf(line)
    {
      var c := line[k];
      Tail(line, k);
      if escaped {
        current := current + [c];
        escaped := false;
        continue;
      }
      if c == '\\' {
        escaped := true;
        continue;
      }
      if c == '"' {
        inQuotes := !inQuotes;
        continue;
      }
      if !inQuotes && IsSpace(c) {
        var rest := Words(line[k + 1..], "", inQuotes, false);
        EmptyPlus(rest);
        if current != "" {
          Assoc(out, [current], rest);
          out := out + [current];
          current := "";
        }
        continue;
      }
      current := current + [c];
    }
    RightUnit(out);
    if current != "" {
      out := out + [current];
    }
  }

  /** Inside quotes, what was escaped is added to the word as it was. */
  lemma {:induction false} EscapedIsOneWord(path: string, current: string, after: string)
    ensures Words(ExecEscaped(path) + after, current, true, false) == Words(after, current + path, true, false)
  {
    hide IsSpace;
    if path == "" {
      RightUnit(current);
      EmptyPlus(after);
    } else {
      var x, rest := path[0], ExecEscaped(path[1..]) + after;
      Assoc(ExecEscapedChar(x), ExecEscaped(path[1..]), after);
      EscapedCharIsAdded(x, current, rest);
      EscapedIsOneWord(path[1..], current + [x], after);
      Assoc(current, [x], path[1..]);
      Cons(path);
    }
  }

  lemma EscapedCharIsAdded(x: char, current: string, rest: string)
    ensures Words(ExecEscapedChar(x) + rest, current, true, false) == Words(rest, current + [x], true, false)
  {
  }

  lemma QuotedIsOneWord(path: string, after: string)
    ensures WordsOf(ExecQuoted(path) + after) == Words(after, path, false, false)
  {
    hide IsSpace;
    var line := ExecQuoted(path) + after;
    assert line[0] == '"' && line[1..] == ExecEscaped(path) + ("\"" + after);
    EscapedIsOneWord(path, "", "\"" + after);
    EmptyPlus(path);
    assert ("\"" + after)[0] == '"' && ("\"" + after)[1..] == after;
  }

  /** A quoted path is one word, and it is the path, just when the path is not empty; words
      after a space stay what they are. */
  lemma QuotedPathIsOneWordIff(path: string, rest: string)
    ensures WordsOf(ExecQuoted(path)) == [path] <==> path != ""
    ensures WordsOf(ExecQuoted(path) + (" " + rest)) == (if path == "" then [] else [path]) + WordsOf(rest)
  {
    RightUnit(ExecQuoted(path));
    QuotedIsOneWord(path, "");
    QuotedIsOneWord(path, " " + rest);
    assert IsSpace(' ');
    hide IsSpace;
    assert (" " + rest)[0] == ' ' && (" " + rest)[1..] == rest;
  }

  // ---------- a Windows Run value ----------

  function ProgramFromRunValue(commandLine: string): string {
    var value := Trim(commandLine);
    if value == "" || value[0] != '"' then value[..IndexOf(value, ' ', 0)]
    else value[1..][..IndexOf(value[1..], '"', 0)]
  }

  /** The value written for a path gives it back just when the path has no quote. */
  lemma RunValueIsReadBackIff(path: string)
    ensures ProgramFromRunValue("\"" + path + "\"") == path <==> '"' !in path
  {
  }
}
