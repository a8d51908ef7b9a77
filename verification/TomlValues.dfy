/** No value an editor writes breaks out of its quotes, its line or its table. */
module TomlValues {
  import opened Text
  import opened TomlSyntax
  import opened TomlTables
  import opened TomlPrint

  function Quoted(s: string): string { "\"" + Escaped(s) + "\"" }

  function ValueLine(key: string, value: string): string { key + " = " + Quoted(value) }

  /** The text without the characters a value cannot hold. */
  function Visible(s: string): string {
    if s == "" then "" else (if IsControl(s[0]) then "" else [s[0]]) + Visible(s[1..])
  }

  /** A basic string's text, its escapes undone. */
  function Unescaped(s: string): string {
    if s == "" then ""
    else if s[0] == '\\' && |s| > 1 then [s[1]] + Unescaped(s[2..])
    else [s[0]] + Unescaped(s[1..])
  }

  lemma {:induction false} UnescapeUndoesEscape(s: string)
    ensures Unescaped(Escaped(s)) == Visible(s)
  {
    if s != "" {
      UnescapeUndoesEscape(s[1..]);
      var rest := Escaped(s[1..]);
      if !IsControl(s[0]) {
        var e := EscapedChar(s[0]) + rest;
        if s[0] == '\\' || s[0] == '"' {
          assert e[0] == '\\' && e[1] == s[0] && e[2..] == rest;
        } else {
          assert e[0] == s[0] && e[1..] == rest;
        }
      } else {
        assert "" + rest == rest;
      }
    }
  }

  /** A text without control characters comes back whole. */
  lemma TextComesBack(s: string)
    requires forall i :: 0 <= i < |s| ==> s[i] >= '\U{20}' && s[i] != '\U{7F}'
    ensures Unescaped(Escaped(s)) == s
  {
    UnescapeUndoesEscape(s);
    AllVisible(s);
  }

  lemma {:induction false} AllVisible(s: string)
    requires forall i :: 0 <= i < |s| ==> s[i] >= '\U{20}' && s[i] != '\U{7F}'
    ensures Visible(s) == s
  {
    if s != "" { AllVisible(s[1..]); }
  }

  lemma {:induction false} EscapedHasNoControl(s: string)
    ensures forall i :: 0 <= i < |Escaped(s)| ==> !IsControl(Escaped(s)[i])
  {
    if s != "" { EscapedHasNoControl(s[1..]); }
  }

  /** Scanning from any place between two escapes stops at the quote after them. */
  lemma {:induction false} ScanStopsAtTheQuote(before: string, s: string, after: string)
    ensures ScanQuoted(before + Escaped(s) + "\"" + after, '"', |before|) == |before| + |Escaped(s)| + 1
    decreases |s|
  {
    var line := before + Escaped(s) + "\"" + after;
    if s == "" {
      assert line[|before|] == '"';
    } else {
      var e, rest := EscapedChar(s[0]), Escaped(s[1..]);
      Assoc(before, e, rest);
      assert line == (before + e) + rest + "\"" + after;
      ScanStopsAtTheQuote(before + e, s[1..], after);
      if e != "" {
        assert line[|before|] == e[0];
        if |e| == 2 { assert e == ['\\', s[0]]; } else { assert e == [s[0]]; }
      }
    }
  }

  lemma Bracketed<T>(before: seq<T>, l: seq<T>, x: seq<T>, r: seq<T>, after: seq<T>)
    ensures before + (l + x + r) + after == (before + l) + x + r + after
    ensures |before + l| == |before| + |l|
  {
  }

  /** Stepped over whole, whatever stands before and after it. */
  lemma QuotedIsSteppedOverWhole(before: string, s: string, after: string)
    ensures var line := before + Quoted(s) + after;
      line[|before|] == '"' && ScanQuoted(line, line[|before|], |before| + 1) == |before| + |Quoted(s)|
  {
    Bracketed(before, "\"", Escaped(s), "\"", after);
    ScanStopsAtTheQuote(before + "\"", s, after);
  }

  lemma QuotedHasNoControl(s: string)
    ensures forall i :: 0 <= i < |Quoted(s)| ==> !IsControl(Quoted(s)[i])
  {
    EscapedHasNoControl(s);
  }

  /** Nothing in a key, in the spaces or in the equals sign means anything to the lexer. */
  lemma {:induction false} PlainCharsAdvanceNothing(v: OpenValue, line: string, i: nat, j: nat)
    requires !v.Open() && i <= j <= |line|
    requires forall k :: i <= k < j ==> IsBareChar(line[k]) || line[k] == ' ' || line[k] == '='
    ensures Advance(v, line, i) == Advance(v, line, j)
    decreases j - i
  {
    if i < j {
      FenceStartsWithQuote(line, i);
      PlainCharsAdvanceNothing(v, line, i + 1, j);
    }
  }

  lemma FenceStartsWithQuote(line: string, i: nat)
    requires i < |line|
    ensures At(line, i, BASIC_FENCE) ==> line[i] == '"' && i + 1 < |line| && line[i + 1] == '"' && i + 2 < |line|
    ensures At(line, i, LITERAL_FENCE) ==> line[i] == '\''
  {
  }

  lemma ValueLineLeavesNothingOpen(v: OpenValue, key: string, value: string)
    requires !v.Open() && IsBare(key)
    ensures Advance(v, ValueLine(key, value), 0) == v
  {
    var line := ValueLine(key, value);
    var before := key + " = ";
    var i := |before|;
    assert line == before + Quoted(value) + "";
    PlainCharsAdvanceNothing(v, line, 0, i);
    QuotedIsSteppedOverWhole(before, value, "");
    FenceStartsWithQuote(line, i);
    EscapedStart(value);
    assert line[i + 1] == Quoted(value)[1];
  }

  /** What is escaped never starts with a bare quote. */
  lemma {:induction false} EscapedStart(s: string)
    ensures Escaped(s) != "" ==> Escaped(s)[0] != '"'
  {
    if s != "" {
      EscapedStart(s[1..]);
      assert "" + Escaped(s[1..]) == Escaped(s[1..]);
    }
  }

  lemma ValueLineIsNoHeader(key: string, value: string)
    requires IsBare(key)
    ensures TableHeader(ValueLine(key, value)).None? && '\n' !in ValueLine(key, value)
  {
    var line := ValueLine(key, value);
    assert line[0] == key[0] && IsBareChar(key[0]);
    assert line[|line| - 1] == '"';
    assert IsTrimmed(line);
    EscapedHasNoControl(value);
    assert forall i :: 0 <= i < |key| ==> IsBareChar(key[i]);
  }

  // ---------- a line inserted ----------

  lemma {:induction false} SectionsConcat(xs: seq<string>, ys: seq<string>, cur: Section, open: OpenValue)
    ensures var s := Sections(xs, cur, open);
      Sections(xs + ys, cur, open) == s[..|s| - 1] + Sections(ys, s[|s| - 1], After(xs, open))
    decreases |xs|
  {
    if xs == [] {
      RightUnit(ys);
      EmptyPlus(Sections(ys, cur, open));
    } else {
      ConsConcat(xs, ys);
      if Opens(xs[0], open) {
        var next := Section(xs[0], TableHeader(xs[0]).value, []);
        SectionsConcat(xs[1..], ys, next, open);
        var s := Sections(xs[1..], next, open);
        assert Sections(xs, cur, open) == [cur] + s;
        assert Sections(xs + ys, cur, open) == [cur] + Sections(xs[1..] + ys, next, open);
        FrontOfCons(cur, s, Sections(ys, s[|s| - 1], After(xs[1..], open)));
      } else {
        SectionsConcat(xs[1..], ys, Grown(cur, xs[0]), Advance(open, xs[0], 0));
      }
    }
  }

  lemma FrontOfCons<T>(x: T, s: seq<T>, rest: seq<T>)
    requires |s| >= 1
    ensures ([x] + s)[..|s|] + rest == [x] + (s[..|s| - 1] + rest)
  {
  }

  /** What follows does not depend on the lines its section already has. */
  lemma {:induction false} SectionsAfterLines(ys: seq<string>, cur: Section, open: OpenValue)
    ensures var t := Sections(ys, cur.(lines := []), open);
      Sections(ys, cur, open) == [cur.(lines := cur.lines + t[0].lines)] + t[1..]
    decreases |ys|
  {
    var bare := cur.(lines := []);
    if ys == [] {
      RightUnit(cur.lines);
    } else if Opens(ys[0], open) {
      RightUnit(cur.lines);
      var next := Section(ys[0], TableHeader(ys[0]).value, []);
      assert ([bare] + Sections(ys[1..], next, open))[1..] == Sections(ys[1..], next, open);
    } else {
      var v := Advance(open, ys[0], 0);
      var t := Sections(ys[1..], bare, v);
      SectionsAfterLines(ys[1..], Grown(cur, ys[0]), v);
      SectionsAfterLines(ys[1..], Grown(bare, ys[0]), v);
      RightUnit([ys[0]]);
      Assoc(cur.lines, [ys[0]], t[0].lines);
      var u := [Grown(bare, ys[0]).(lines := [ys[0]] + t[0].lines)] + t[1..];
      assert u[1..] == t[1..];
    }
  }

  /** A line that opens no table and leaves nothing open is added to one section, and the
      others stay. */
  lemma LineInserted(xs: seq<string>, line: string, ys: seq<string>)
      returns (front: seq<Section>, cur: Section, tail: seq<string>, after: seq<Section>)
    requires var open := After(xs, CLOSED); !open.Open() && !Opens(line, open) && Advance(open, line, 0) == open
    ensures Sections(xs + ys, ROOT, CLOSED) == front + ([cur.(lines := cur.lines + tail)] + after)
    ensures Sections(xs + ([line] + ys), ROOT, CLOSED) == front + ([cur.(lines := cur.lines + [line] + tail)] + after)
  {
    var open := After(xs, CLOSED);
    var s := Sections(xs, ROOT, CLOSED);
    front, cur := s[..|s| - 1], s[|s| - 1];
    SectionsConcat(xs, ys, ROOT, CLOSED);
    SectionsConcat(xs, [line] + ys, ROOT, CLOSED);
    ConsConcat([line], ys);
    assert [line][1..] == [];
    EmptyPlus(ys);
    SectionsAfterLines(ys, cur, open);
    SectionsAfterLines(ys, Grown(cur, line), open);
    var t := Sections(ys, cur.(lines := []), open);
    tail, after := t[0].lines, t[1..];
  }

  lemma TablesWith(front: seq<Section>, s: Section, after: seq<Section>)
    ensures TablesOf(front + ([s] + after))
            == TablesOf(front) + ([Table(s.name, Unlines(s.lines))] + TablesOf(after))
  {
  }

  /** A value written on a line of its own, wherever the lexer is closed, changes no header
      the splitter finds, and no body but the one it is in, where it is the one line added. */
  lemma ValueLineChangesNoTable(xs: seq<string>, key: string, value: string, rest: string)
      returns (front: seq<Table>, header: string, pre: string, post: string, after: seq<Table>)
    requires AreLines(xs) && !After(xs, CLOSED).Open() && IsBare(key)
    ensures SplitTables(Unlines(xs) + rest) == front + ([Table(header, pre + post)] + after)
    ensures SplitTables(Unlines(xs) + (ValueLine(key, value) + "\n" + rest))
            == front + ([Table(header, pre + (ValueLine(key, value) + "\n") + post)] + after)
  {
    var line := ValueLine(key, value);
    ValueLineIsNoHeader(key, value);
    ValueLineLeavesNothingOpen(After(xs, CLOSED), key, value);
    var ys := Lines(rest);
    LinesAfter(xs, rest);
    LinesAfter(xs, line + "\n" + rest);
    SplitOfConcat(line, '\n', rest);
    TablesAreSections(xs + ys, ROOT, CLOSED);
    TablesAreSections(xs + ([line] + ys), ROOT, CLOSED);
    var sections, cur, tail, rest' := LineInserted(xs, line, ys);
    TablesWith(sections, cur.(lines := cur.lines + tail), rest');
    TablesWith(sections, cur.(lines := cur.lines + [line] + tail), rest');
    front, header, after := TablesOf(sections), cur.name, TablesOf(rest');
    pre, post := Unlines(cur.lines), Unlines(tail);
    AppendLine(cur.lines, line);
    UnlinesConcat(cur.lines, tail);
    UnlinesConcat(cur.lines + [line], tail);
  }
}
