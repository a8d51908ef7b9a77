/** Printing the tables of a text and splitting the print again gives the same tables. */
module TomlPrint {
  import opened Text
  import opened TomlSyntax
  import opened TomlTables

  function Header(name: string): string { "[" + name + "]" }

  function PrintRest(tables: seq<Table>): string {
    if tables == [] then ""
    else Header(tables[0].header) + "\n" + Normalized(tables[0].body) + PrintRest(tables[1..])
  }

  /** The root's keys, then each table as its header and its body, the bodies normalized. */
  function Print(tables: seq<Table>): string
    requires |tables| >= 1
  {
    Normalized(tables[0].body) + PrintRest(tables[1..])
  }

  function NormalizedTables(tables: seq<Table>): (r: seq<Table>)
    ensures |r| == |tables|
    ensures forall k :: 0 <= k < |r| ==> r[k] == Table(tables[k].header, Normalized(tables[k].body))
  {
    if tables == [] then []
    else [Table(tables[0].header, Normalized(tables[0].body))] + NormalizedTables(tables[1..])
  }

  // ---------- trailing blank lines ----------

  function DropBlank(lines: seq<string>): (r: seq<string>)
    ensures r <= lines
    ensures r == [] || r[|r| - 1] != ""
  {
    if lines != [] && lines[|lines| - 1] == "" then DropBlank(lines[..|lines| - 1]) else lines
  }

  lemma Front(lines: seq<string>)
    requires lines != []
    ensures lines == lines[..|lines| - 1] + [lines[|lines| - 1]]
  {
  }

  /** normalizeBody() on a body is dropping its trailing blank lines. */
  lemma {:induction false} NormalizedUnlines(lines: seq<string>)
    requires AreLines(lines)
    ensures Normalized(Unlines(lines)) == Unlines(DropBlank(lines))
    decreases |lines|
  {
    if lines != [] {
      var front, last := lines[..|lines| - 1], lines[|lines| - 1];
      Front(lines);
      AppendLine(front, last);
      var body := Unlines(lines);
      assert body[..|body| - 1] == Unlines(front) + last;
      if last == "" {
        assert body[..|body| - 1] == Unlines(front);
        NormalizedUnlines(front);
      } else {
        assert last in lines;
        assert StripBreaks(Unlines(front) + last) == Unlines(front) + last;
        Assoc(Unlines(front), last, "\n");
      }
    }
  }

  lemma DropBlankAgain(lines: seq<string>)
    ensures DropBlank(DropBlank(lines)) == DropBlank(lines)
    ensures DropBlank(DropBlank(lines) + [""]) == DropBlank(lines)
  {
  }

  // ---------- a header printed is read again ----------

  lemma {:induction false} QuotedInPrefix(s: string, m: nat, quote: char, i: nat)
    requires m <= |s|
    ensures var k := ScanQuoted(s[..m], quote, i); k > m || k == ScanQuoted(s, quote, i)
    decreases if i < m then m - i else 0
  {
    if i < m && s[i] != quote {
      QuotedInPrefix(s, m, quote, i + if quote == '"' && s[i] == '\\' then 2 else 1);
    }
  }

  /** A comment in front of a cut is a comment of the whole line. */
  lemma {:induction false} CommentInPrefix(s: string, m: nat, i: nat)
    requires m <= |s| && CommentStart(s[..m], i).Some?
    ensures CommentStart(s, i) == CommentStart(s[..m], i)
    decreases if i < m then m - i else 0
  {
    if s[i] == '"' || s[i] == '\'' {
      QuotedInPrefix(s, m, s[i], i + 1);
      CommentInPrefix(s, m, ScanQuoted(s[..m], s[i], i + 1));
    } else if s[i] != '#' {
      CommentInPrefix(s, m, i + 1);
    }
  }

  /** A bracket at the end brings no comment. */
  lemma {:induction false} BracketBringsNoComment(s: string, i: nat)
    requires CommentStart(s, i).None?
    ensures CommentStart(s + "]", i).None?
    decreases if i < |s| then |s| - i else 0
  {
    if i < |s| {
      var t := s + "]";
      assert t[..|s|] == s && t[i] == s[i];
      if s[i] == '"' || s[i] == '\'' {
        QuotedInPrefix(t, |s|, s[i], i + 1);
        var k := ScanQuoted(s, s[i], i + 1);
        if k > |s| { LongQuoted(s, s[i], i + 1); } else { BracketBringsNoComment(s, k); }
      } else {
        BracketBringsNoComment(s, i + 1);
      }
    }
  }

  lemma {:induction false} LongQuoted(s: string, quote: char, i: nat)
    requires quote != ']' && ScanQuoted(s, quote, i) > |s|
    ensures ScanQuoted(s + "]", quote, i) > |s|
    decreases if i < |s| then |s| - i else 0
  {
    var t := s + "]";
    if i < |s| {
      assert t[i] == s[i];
      if s[i] != quote { LongQuoted(s, quote, i + if quote == '"' && s[i] == '\\' then 2 else 1); }
    }
  }

  lemma {:induction false} QuotedShifts(a: string, u: string, quote: char, i: nat)
    ensures ScanQuoted("[" + u, quote, i + 1) == ScanQuoted(a + u, quote, |a| + i) - |a| + 1
    decreases if i < |u| then |u| - i else 0
  {
    if i < |u| {
      assert (a + u)[|a| + i] == u[i] == ("[" + u)[i + 1];
      if u[i] != quote { QuotedShifts(a, u, quote, i + if quote == '"' && u[i] == '\\' then 2 else 1); }
    }
  }

  /** Whether there is a comment from some point on does not depend on what stands before. */
  lemma {:induction false} CommentShifts(a: string, u: string, i: nat)
    ensures CommentStart(a + u, |a| + i).Some? <==> CommentStart("[" + u, i + 1).Some?
    decreases if i < |u| then |u| - i else 0
  {
    if i < |u| {
      assert (a + u)[|a| + i] == u[i] == ("[" + u)[i + 1];
      if u[i] == '"' || u[i] == '\'' {
        QuotedShifts(a, u, u[i], i + 1);
        CommentShifts(a, u, ScanQuoted("[" + u, u[i], i + 2) - 1);
      } else if u[i] != '#' {
        CommentShifts(a, u, i + 1);
      }
    }
  }

  lemma {:induction false} SpaceBringsNoComment(s: string, i: nat, j: nat)
    requires i <= j <= |s| && forall k :: i <= k < j ==> IsSpace(s[k])
    ensures CommentStart(s, i) == CommentStart(s, j)
    decreases j - i
  {
    if i < j { SpaceBringsNoComment(s, i + 1, j); }
  }

  lemma LeadingSpaceDropped(t: string, a: nat)
    requires a < |t| && t[0] == '[' && AllSpace(t[1..a + 1]) && CommentStart(t, 0).None?
    ensures CommentStart("[" + t[a + 1..], 0).None?
  {
    assert forall k :: 1 <= k < a + 1 ==> t[k] == t[1..a + 1][k - 1];
    SpaceBringsNoComment(t, 1, a + 1);
    var front, u := t[..a + 1], t[a + 1..];
    assert t == front + u;
    CommentShifts(front, u, 0);
  }

  lemma RestReplacedByBracket(s: string, m: nat)
    requires m <= |s| && CommentStart(s, 0).None?
    ensures CommentStart(s[..m] + "]", 0).None?
  {
    if CommentStart(s[..m], 0).Some? { CommentInPrefix(s, m, 0); }
    BracketBringsNoComment(s[..m], 0);
  }

  /** `[` + the trimmed inside + `]` has no comment when the bracketed text had none. */
  lemma TrimmedInsideHasNoComment(t: string)
    requires |t| >= 2 && t[0] == '[' && t[|t| - 1] == ']' && CommentStart(t, 0).None?
    ensures CommentStart(Header(Trim(t[1..|t| - 1])), 0).None?
  {
    var inside := t[1..|t| - 1];
    var a, b := TrimParts(inside);
    assert t[1..a + 1] == inside[..a];
    LeadingSpaceDropped(t, a);
    var s := "[" + t[a + 1..];
    RestReplacedByBracket(s, 1 + (b - a));
    HeaderIsCut(t, a, b);
  }

  lemma HeaderIsCut(t: string, a: nat, b: nat)
    requires |t| >= 2 && a <= b <= |t| - 2
    ensures ("[" + t[a + 1..])[..1 + (b - a)] + "]" == Header(t[1..|t| - 1][a..b])
  {
    SliceOfSlice(t, 1, |t| - 1, a, b);
    assert ("[" + t[a + 1..])[..1 + (b - a)] == "[" + t[a + 1..b + 1];
  }

  lemma UncommentedHasNoComment(s: string)
    requires IsTrimmed(s) && s != "" && s[0] == '['
    ensures CommentStart(Uncommented(s), 0).None?
    ensures Uncommented(s) != "" && Uncommented(s)[0] == '['
  {
    match CommentStart(s, 0)
    case None =>
    case Some(k) =>
      var a, b := TrimParts(s[..k]);
      assert s[..k][0] == '[';
      var t := s[..k][a..b];
      assert t == s[..b];
      if CommentStart(t, 0).Some? { CommentInPrefix(s, b, 0); }
  }

  // ---------- names ----------

  lemma {:induction false} JoinOfBare(names: seq<string>)
    requires |names| >= 1 && AllBare(names)
    ensures var n := Join(names, '.');
      && n != "" && IsTrimmed(n) && forall i :: 0 <= i < |n| ==> IsBareChar(n[i]) || n[i] == '.'
  {
    if |names| > 1 {
      assert AllBare(names[1..]);
      JoinOfBare(names[1..]);
    }
  }

  lemma {:induction false} NothingSpecialHasNoComment(s: string, i: nat)
    requires forall k :: 0 <= k < |s| ==> s[k] != '#' && s[k] != '"' && s[k] != '\''
    ensures CommentStart(s, i).None?
    decreases if i < |s| then |s| - i else 0
  {
  }

  lemma BareNamesStay(names: seq<string>)
    requires AllBare(names)
    ensures PartNames(names) == names && forall p :: p in names ==> '.' !in p
  {
  }

  lemma NameOfWritten(w: string)
    requires IsTrimmed(w)
    ensures var n := TableName(w); IsTrimmed(n) && TableName(n) == n && (n == w || CommentStart(Header(n), 0).None?)
  {
    var names := PartNames(Split(w, '.'));
    if AllBare(names) {
      JoinOfBare(names);
      BareNamesStay(names);
      SplitOfJoin(names, '.');
      NothingSpecialHasNoComment(Header(Join(names, '.')), 0);
    }
  }

  /** A table's name in brackets opens that table. */
  lemma HeaderOpensItsTable(line: string, name: string)
    requires TableHeader(line) == Some(name)
    ensures TableHeader(Header(name)) == Some(name)
  {
    var trimmed := Trim(line);
    var t := Uncommented(trimmed);
    UncommentedHasNoComment(trimmed);
    var w := Trim(t[1..|t| - 1]);
    TrimmedInsideHasNoComment(t);
    NameOfWritten(w);
    var h := Header(name);
    assert h[1..|h| - 1] == name;
  }

  lemma NameHasNoBreak(line: string, name: string)
    requires TableHeader(line) == Some(name) && '\n' !in line
    ensures '\n' !in Header(name)
  {
    var trimmed := Trim(line);
    var t := Uncommented(trimmed);
    var w := Trim(t[1..|t| - 1]);
    assert forall c :: c in t ==> c in trimmed;
    assert forall c :: c in w ==> c in t;
    var names := PartNames(Split(w, '.'));
    if AllBare(names) { JoinOfBare(names); }
  }

  // ---------- printing and splitting again ----------

  /** No line of these opens a table. */
  predicate Plain(lines: seq<string>, open: OpenValue) {
    lines == [] || (!Opens(lines[0], open) && Plain(lines[1..], Advance(open, lines[0], 0)))
  }

  lemma {:induction false} PlainRun(xs: seq<string>, ys: seq<string>, cur: Section, open: OpenValue)
    requires Plain(xs, open)
    ensures Sections(xs + ys, cur, open) == Sections(ys, cur.(lines := cur.lines + xs), After(xs, open))
  {
    if xs == [] {
      RightUnit(ys);
      RightUnit(cur.lines);
    } else {
      ConsConcat(xs, ys);
      PlainRun(xs[1..], ys, Grown(cur, xs[0]), Advance(open, xs[0], 0));
      Assoc(cur.lines, [xs[0]], xs[1..]);
      Cons(xs);
    }
  }

  lemma {:induction false} PlainGrows(xs: seq<string>, line: string, open: OpenValue)
    requires Plain(xs, open) && !Opens(line, After(xs, open))
    ensures Plain(xs + [line], open) && After(xs + [line], open) == Advance(After(xs, open), line, 0)
  {
    ConsConcat(if xs == [] then [line] else xs, [line]);
    if xs == [] {
      RightUnit([line]);
      assert [line][1..] == [];
    } else {
      PlainGrows(xs[1..], line, Advance(open, xs[0], 0));
    }
  }

  /** Trailing blank lines leave nothing open and open nothing. */
  lemma {:induction false} PlainDropBlank(lines: seq<string>, open: OpenValue)
    requires Plain(lines, open)
    ensures Plain(DropBlank(lines), open) && After(DropBlank(lines), open) == After(lines, open)
    decreases |lines|
  {
    if lines != [] && lines[|lines| - 1] == "" {
      var front := lines[..|lines| - 1];
      Front(lines);
      PlainFront(front, "", open);
      PlainDropBlank(front, open);
    }
  }

  lemma {:induction false} PlainFront(xs: seq<string>, line: string, open: OpenValue)
    requires Plain(xs + [line], open)
    ensures Plain(xs, open) && After(xs + [line], open) == Advance(After(xs, open), line, 0)
  {
    if xs == [] {
      RightUnit([line]);
      assert [line][1..] == [];
    } else {
      ConsConcat(xs, [line]);
      PlainFront(xs[1..], line, Advance(open, xs[0], 0));
    }
  }

  predicate Reopens(name: string) { TableHeader(Header(name)) == Some(name) && '\n' !in Header(name) }

  /** Sections as the splitter makes them: plain bodies, each closed where the next table
      starts, under names that open the same table again. */
  ghost predicate Valid(sections: seq<Section>, open: OpenValue) {
    sections != [] ==>
      && Plain(sections[0].lines, open) && AreLines(sections[0].lines)
      && (|sections| > 1 ==> !After(sections[0].lines, open).Open() && Reopens(sections[1].name))
      && Valid(sections[1..], After(sections[0].lines, open))
  }

  lemma {:induction false} SectionsAreValid(lines: seq<string>, cur: Section, open: OpenValue)
    requires Plain(cur.lines, open) && AreLines(cur.lines) && AreLines(lines)
    ensures Valid(Sections(lines, cur, After(cur.lines, open)), open)
    decreases |lines|
  {
    var now := After(cur.lines, open);
    if lines == [] {
      assert [cur][1..] == [];
    } else {
      var line := lines[0];
      assert line in lines;
      if Opens(line, now) {
        var next := Section(line, TableHeader(line).value, []);
        SectionsAreValid(lines[1..], next, now);
        HeaderOpensItsTable(line, next.name);
        NameHasNoBreak(line, next.name);
        var rest := Sections(lines[1..], next, now);
        assert ([cur] + rest)[1..] == rest;
      } else {
        PlainGrows(cur.lines, line, open);
        LinesJoined(cur.lines, [line]);
        SectionsAreValid(lines[1..], Grown(cur, line), open);
      }
    }
  }

  /** The lines the tables are printed as. */
  function Reprint(sections: seq<Section>): seq<string>
    requires sections != []
  {
    DropBlank(sections[0].lines)
    + if |sections| == 1 then [] else [Header(sections[1].name)] + Reprint(sections[1..])
  }

  predicate SameTables(r: seq<Section>, s: seq<Section>) {
    |r| == |s| &&
    (r != [] ==> r[0].name == s[0].name && DropBlank(r[0].lines) == DropBlank(s[0].lines) && SameTables(r[1..], s[1..]))
  }

  lemma LastReads(s: seq<Section>, cur: Section, open: OpenValue)
    requires |s| == 1 && Valid(s, open) && cur.lines == [] && cur.name == s[0].name
    ensures SameTables(Sections(Reprint(s) + [""], cur, open), s)
  {
    var body := DropBlank(s[0].lines);
    PlainDropBlank(s[0].lines, open);
    DropBlankAgain(s[0].lines);
    RightUnit(body);
    PlainRun(body, [""], cur, open);
    assert [""][1..] == [] && s[1..] == [];
    var r := [Grown(cur.(lines := body), "")];
    assert r[1..] == [];
  }

  lemma {:induction false} ReprintReads(s: seq<Section>, head: string, open: OpenValue)
    requires s != [] && Valid(s, open)
    ensures SameTables(Sections(Reprint(s) + [""], Section(head, s[0].name, []), open), s)
    decreases |s|
  {
    var body := DropBlank(s[0].lines);
    var cur := Section(head, s[0].name, []);
    var now := After(s[0].lines, open);
    PlainDropBlank(s[0].lines, open);
    DropBlankAgain(s[0].lines);
    RightUnit(body);
    if |s| == 1 {
      LastReads(s, cur, open);
    } else {
      var line := Header(s[1].name);
      var after := Reprint(s[1..]) + [""];
      Assoc(body, [line] + Reprint(s[1..]), [""]);
      Assoc([line], Reprint(s[1..]), [""]);
      PlainRun(body, [line] + after, cur, open);
      ConsConcat([line], after);
      assert [line][1..] == [];
      RightUnit(after);
      ReprintReads(s[1..], line, now);
      var rest := Sections(after, Section(line, s[1].name, []), now);
      assert ([cur.(lines := body)] + rest)[1..] == rest;
    }
  }

  lemma {:induction false} PrintIsReprint(s: seq<Section>, open: OpenValue)
    requires s != [] && Valid(s, open)
    ensures Print(TablesOf(s)) == Unlines(Reprint(s)) && AreLines(Reprint(s))
    decreases |s|
  {
    var body := DropBlank(s[0].lines);
    NormalizedUnlines(s[0].lines);
    assert TablesOf(s)[1..] == TablesOf(s[1..]);
    if |s| == 1 {
      RightUnit(body);
    } else {
      var line := Header(s[1].name);
      PrintIsReprint(s[1..], After(s[0].lines, open));
      var rest := Reprint(s[1..]);
      LinesJoined([line], rest);
      LinesJoined(body, [line] + rest);
      UnlinesConcat(body, [line] + rest);
      UnlinesConcat([line], rest);
      assert [line][1..] == [];
      var t := TablesOf(s[1..]);
      Assoc(line + "\n", Normalized(t[0].body), PrintRest(t[1..]));
    }
  }

  lemma {:induction false} SameTablesSameText(r: seq<Section>, s: seq<Section>)
    requires SameTables(r, s) && (forall x :: x in r ==> AreLines(x.lines)) && (forall x :: x in s ==> AreLines(x.lines))
    ensures NormalizedTables(TablesOf(r)) == NormalizedTables(TablesOf(s))
    decreases |r|
  {
    if r != [] {
      assert r[0] in r && s[0] in s;
      NormalizedUnlines(r[0].lines);
      NormalizedUnlines(s[0].lines);
      SameTablesSameText(r[1..], s[1..]);
      assert TablesOf(r)[1..] == TablesOf(r[1..]) && TablesOf(s)[1..] == TablesOf(s[1..]);
    }
  }

  lemma {:induction false} ValidAreLines(s: seq<Section>, open: OpenValue)
    requires Valid(s, open)
    ensures forall x :: x in s ==> AreLines(x.lines)
    decreases |s|
  {
    if s != [] {
      ValidAreLines(s[1..], After(s[0].lines, open));
      Cons(s);
    }
  }

  /** For every text, malformed or not: its tables printed, with every body normalized, and
      split again are the same tables. */
  lemma PrintAndSplitIsAFixpoint(toml: string)
    ensures NormalizedTables(SplitTables(Print(SplitTables(toml)))) == NormalizedTables(SplitTables(toml))
  {
    var s := Layout(toml);
    TablesAreSections(Lines(toml), ROOT, CLOSED);
    SectionsAreValid(Lines(toml), ROOT, CLOSED);
    PrintIsReprint(s, CLOSED);
    var printed := Print(SplitTables(toml));
    var lines := Reprint(s) + [""];
    PrintedLines(s, printed);
    ReprintReads(s, "", CLOSED);
    var r := Layout(printed);
    assert r == Sections(lines, ROOT, CLOSED);
    TablesAreSections(Lines(printed), ROOT, CLOSED);
    SectionsAreValid(Lines(printed), ROOT, CLOSED);
    ValidAreLines(r, CLOSED);
    ValidAreLines(s, CLOSED);
    SameTablesSameText(r, s);
  }

  lemma PrintedLines(s: seq<Section>, printed: string)
    requires s != [] && AreLines(Reprint(s)) && printed == Unlines(Reprint(s))
    ensures Lines(printed) == Reprint(s) + [""]
  {
    assert printed + "" == printed;
    LinesAfter(Reprint(s), "");
    SplitOfConcat("", '\n', "");
  }
}
