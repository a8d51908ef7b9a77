/** What splitting a TOML text into tables conserves: every line is one header or in one
    body, in order, and printing the tables and splitting again changes nothing. */
module TomlTables {
  import opened Text
  import opened TomlSyntax

  /** A table with the line that opened it and the lines of its body. The first has no
      such line. */
  datatype Section = Section(head: string, name: string, lines: seq<string>)

  function Grown(s: Section, line: string): Section { s.(lines := s.lines + [line]) }

  predicate Opens(line: string, open: OpenValue) { !open.Open() && TableHeader(line).Some? }

  /** The sections of the lines that follow, after what `cur` already has. */
  function Sections(lines: seq<string>, cur: Section, open: OpenValue): (r: seq<Section>)
    ensures |r| >= 1 && r[0].head == cur.head && r[0].name == cur.name
  {
    if lines == [] then [cur]
    else if Opens(lines[0], open) then
      [cur] + Sections(lines[1..], Section(lines[0], TableHeader(lines[0]).value, []), open)
    else Sections(lines[1..], Grown(cur, lines[0]), Advance(open, lines[0], 0))
  }

  predicate NamesItsTable(s: Section) { TableHeader(s.head) == Some(s.name) }

  lemma {:induction false} HeadsNameTheirTables(lines: seq<string>, cur: Section, open: OpenValue)
    ensures TailAll(Sections(lines, cur, open), NamesItsTable)
    decreases |lines|
  {
    if lines != [] {
      if Opens(lines[0], open) {
        var next := Section(lines[0], TableHeader(lines[0]).value, []);
        HeadsNameTheirTables(lines[1..], next, open);
        TailAllCons(cur, Sections(lines[1..], next, open), NamesItsTable);
      } else {
        HeadsNameTheirTables(lines[1..], Grown(cur, lines[0]), Advance(open, lines[0], 0));
      }
    }
  }

  /** What the lexer holds open after the lines. */
  function After(lines: seq<string>, open: OpenValue): OpenValue {
    if lines == [] then open
    else if Opens(lines[0], open) then After(lines[1..], open)
    else After(lines[1..], Advance(open, lines[0], 0))
  }

  const ROOT := Section("", "", [])

  function Layout(toml: string): (r: seq<Section>)
    ensures |r| >= 1
  {
    Sections(Lines(toml), ROOT, CLOSED)
  }

  function TablesOf(sections: seq<Section>): (r: seq<Table>)
    ensures |r| == |sections|
    ensures forall k :: 0 <= k < |r| ==> r[k] == Table(sections[k].name, Unlines(sections[k].lines))
  {
    if sections == [] then []
    else [Table(sections[0].name, Unlines(sections[0].lines))] + TablesOf(sections[1..])
  }

  /** The splitter's tables are the sections' names and bodies. */
  lemma {:induction false} TablesAreSections(lines: seq<string>, cur: Section, open: OpenValue)
    ensures Tables(lines, cur.name, Unlines(cur.lines), open) == TablesOf(Sections(lines, cur, open))
    decreases |lines|
  {
    if lines != [] {
      var line := lines[0];
      if Opens(line, open) {
        var next := Section(line, TableHeader(line).value, []);
        TablesAreSections(lines[1..], next, open);
        assert ([cur] + Sections(lines[1..], next, open))[1..] == Sections(lines[1..], next, open);
      } else {
        AppendLine(cur.lines, line);
        Assoc(Unlines(cur.lines), line, "\n");
        TablesAreSections(lines[1..], Grown(cur, line), Advance(open, line, 0));
      }
    }
  }

  // ---------- every line is kept ----------

  /** The lines the sections came from: each opening line, then its body's. */
  function Flat(sections: seq<Section>): seq<string> {
    if sections == [] then [] else [sections[0].head] + sections[0].lines + Flat(sections[1..])
  }

  lemma {:induction false} SectionsFlatten(lines: seq<string>, cur: Section, open: OpenValue)
    ensures Flat(Sections(lines, cur, open)) == [cur.head] + cur.lines + lines
    decreases |lines|
  {
    if lines == [] {
      assert Flat([cur][1..]) == [];
      RightUnit([cur.head] + cur.lines);
    } else if Opens(lines[0], open) {
      var next := Section(lines[0], TableHeader(lines[0]).value, []);
      SectionsFlatten(lines[1..], next, open);
      var rest := Sections(lines[1..], next, open);
      assert ([cur] + rest)[1..] == rest;
      HeadAndTail(lines);
    } else {
      SectionsFlatten(lines[1..], Grown(cur, lines[0]), Advance(open, lines[0], 0));
      Regroup(cur.head, cur.lines, lines);
    }
  }

  lemma HeadAndTail(lines: seq<string>)
    requires lines != []
    ensures [lines[0]] + [] + lines[1..] == lines
  {
  }

  lemma Regroup(head: string, body: seq<string>, lines: seq<string>)
    requires lines != []
    ensures [head] + (body + [lines[0]]) + lines[1..] == [head] + body + lines
  {
  }

  /** Conservation: the tables, with the line that opened each, are the text, line by line
      and in order; each opening line names its table, and the splitter returns just these. */
  lemma EveryLineIsKept(toml: string)
    ensures SplitTables(toml) == TablesOf(Layout(toml))
    ensures [""] + Lines(toml) == Flat(Layout(toml))
    ensures TailAll(Layout(toml), NamesItsTable)
    ensures Layout(toml)[0].head == "" && SplitTables(toml)[0].header == ""
  {
    TablesAreSections(Lines(toml), ROOT, CLOSED);
    HeadsNameTheirTables(Lines(toml), ROOT, CLOSED);
    SectionsFlatten(Lines(toml), ROOT, CLOSED);
    assert [""] + [] + Lines(toml) == [""] + Lines(toml);
  }
}
