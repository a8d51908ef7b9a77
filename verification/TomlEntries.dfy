/** unknownKeyLines() filters whole entries: a key's line with every line of its value. */
module TomlEntries {
  import opened Text
  import opened TomlSyntax
  import opened TomlTables
  import opened TomlPrint
  import opened TomlValues

  datatype Entry = Entry(key: string, lines: seq<string>)

  /** How many of the lines go on with the value the lexer holds open. */
  function Continued(lines: seq<string>, open: OpenValue): (n: nat)
    ensures n <= |lines|
  {
    if lines == [] || !open.Open() then 0 else 1 + Continued(lines[1..], Advance(open, lines[0], 0))
  }

  /** The entries of a body, each value to where it ends; blank lines and comments are in none. */
  function Entries(lines: seq<string>): seq<Entry>
    decreases |lines|
  {
    if lines == [] then []
    else if KeyOf(lines[0]) == "" then Entries(lines[1..])
    else
      var n := 1 + Continued(lines[1..], Advance(CLOSED, lines[0], 0));
      [Entry(KeyOf(lines[0]), lines[..n])] + Entries(lines[n..])
  }

  /** The lines of the entries whose key is not known. */
  function UnknownLines(entries: seq<Entry>, known: set<string>): seq<string> {
    if entries == [] then []
    else (if entries[0].key in known then [] else entries[0].lines) + UnknownLines(entries[1..], known)
  }

  // ---------- what the filter's state depends on ----------

  /** The same value open; the mark of an inline table may differ. */
  predicate Same(v: OpenValue, w: OpenValue) { v.(inlineTable := w.inlineTable) == w }

  lemma {:induction false} AdvanceKeepsSame(v: OpenValue, w: OpenValue, line: string, i: nat)
    requires Same(v, w)
    ensures Same(Advance(v, line, i), Advance(w, line, i))
    decreases if i < |line| then |line| - i else 0
  {
    if i >= |line| {
    } else if v.basic || v.literal {
      var r := ScanMultiline(v.basic, line, i);
      AdvanceKeepsSame(if r.1 then CloseString(v) else v, if r.1 then CloseString(w) else w, line, r.0);
    } else if At(line, i, BASIC_FENCE) {
      AdvanceKeepsSame(v.(basic := true), w.(basic := true), line, i + 3);
    } else if At(line, i, LITERAL_FENCE) {
      AdvanceKeepsSame(v.(literal := true), w.(literal := true), line, i + 3);
    } else if line[i] == '"' || line[i] == '\'' {
      AdvanceKeepsSame(v, w, line, ScanQuoted(line, line[i], i + 1));
    } else if line[i] != '#' {
      AdvanceKeepsSame(CountBracket(v, line[i]), CountBracket(w, line[i]), line, i + 1);
    }
  }

  /** Between two values the filter remembers nothing. */
  lemma {:induction false} KeptForgets(lines: seq<string>, known: set<string>, keeping: bool, v: OpenValue,
                                       keeping': bool, w: OpenValue)
    requires Same(v, w) && (v.Open() ==> keeping == keeping')
    ensures Kept(lines, known, keeping, v) == Kept(lines, known, keeping', w)
  {
    if lines != [] {
      AdvanceKeepsSame(v, w, lines[0], 0);
      var f, g := Filter(lines[0], known, keeping, v), Filter(lines[0], known, keeping', w);
      KeptForgets(lines[1..], known, f.0, f.1, g.0, g.1);
    }
  }

  /** An open value's lines stay or go together. */
  lemma {:induction false} ValueStaysOrGoes(lines: seq<string>, known: set<string>, keeping: bool, open: OpenValue)
    ensures var n := Continued(lines, open);
      Kept(lines, known, keeping, open)
      == (if keeping then lines[..n] else []) + Kept(lines[n..], known, false, CLOSED)
    decreases |lines|
  {
    if lines == [] {
    } else if !open.Open() {
      KeptForgets(lines, known, keeping, open, false, CLOSED);
      EmptyPlus(Kept(lines, known, false, CLOSED));
      assert lines[0..] == lines && lines[..0] == [];
    } else {
      var next := Advance(open, lines[0], 0);
      var n := Continued(lines[1..], next);
      ValueStaysOrGoes(lines[1..], known, keeping, next);
      TakeOneMore(lines, n);
      var rest := Kept(lines[n + 1..], known, false, CLOSED);
      Assoc([lines[0]], lines[1..][..n], rest);
      EmptyPlus([] + rest);
    }
  }

  lemma TakeOneMore<T>(s: seq<T>, n: nat)
    requires n < |s|
    ensures s[..n + 1] == [s[0]] + s[1..][..n] && s[n + 1..] == s[1..][n..]
  {
  }

  /** The filter keeps the entries of unknown keys, each whole and in order, and nothing else. */
  lemma {:induction false} FilterKeepsWholeEntries(lines: seq<string>, known: set<string>)
    ensures Kept(lines, known, false, CLOSED) == UnknownLines(Entries(lines), known)
    decreases |lines|
  {
    if lines == [] {
    } else if KeyOf(lines[0]) == "" {
      FilterKeepsWholeEntries(lines[1..], known);
      EmptyPlus(Kept(lines[1..], known, false, CLOSED));
    } else {
      var key := KeyOf(lines[0]);
      var open := Advance(CLOSED, lines[0], 0);
      var n := Continued(lines[1..], open);
      ValueStaysOrGoes(lines[1..], known, key !in known, open);
      TakeOneMore(lines, n);
      FilterKeepsWholeEntries(lines[n + 1..], known);
      var rest := Kept(lines[n + 1..], known, false, CLOSED);
      Assoc([lines[0]], lines[1..][..n], rest);
      EmptyPlus([] + rest);
      EmptyPlus(rest);
      var e := [Entry(key, lines[..n + 1])] + Entries(lines[n + 1..]);
      assert e[1..] == Entries(lines[n + 1..]);
    }
  }

  // ---------- distribution ----------

  /** What the filter holds open after the lines. */
  function FilterOpen(lines: seq<string>, open: OpenValue): OpenValue {
    if lines == [] then open
    else FilterOpen(lines[1..], if !open.Open() && KeyOf(lines[0]) == "" then open else Advance(open, lines[0], 0))
  }

  lemma {:induction false} KeptConcat(xs: seq<string>, ys: seq<string>, known: set<string>, keeping: bool,
                                      open: OpenValue)
    requires !FilterOpen(xs, open).Open()
    ensures Kept(xs + ys, known, keeping, open) == Kept(xs, known, keeping, open) + Kept(ys, known, false, CLOSED)
  {
    if xs == [] {
      EmptyPlus(ys);
      EmptyPlus(Kept(ys, known, false, CLOSED));
      KeptForgets(ys, known, keeping, open, false, CLOSED);
    } else {
      ConsConcat(xs, ys);
      var f := Filter(xs[0], known, keeping, open);
      KeptConcat(xs[1..], ys, known, f.0, f.1);
      Assoc(if f.0 then [xs[0]] else [], Kept(xs[1..], known, f.0, f.1), Kept(ys, known, false, CLOSED));
    }
  }

  /** At any line boundary where its lexer is closed, the filter treats the two parts alone. */
  lemma FilterDistributes(xs: seq<string>, rest: string, known: set<string>)
    requires AreLines(xs) && !FilterOpen(xs, CLOSED).Open()
    ensures UnknownKeys(Unlines(xs) + rest, known) == UnknownKeys(Unlines(xs), known) + UnknownKeys(rest, known)
  {
    LinesAfter(xs, rest);
    LinesAfter(xs, "");
    EmptyPlus(Unlines(xs) + "");
    RightUnit(Unlines(xs));
    KeptConcat(xs, Lines(rest), known, false, CLOSED);
    KeptConcat(xs, [""], known, false, CLOSED);
    BlankIsDropped(known);
    RightUnit(Kept(xs, known, false, CLOSED));
    UnlinesConcat(Kept(xs, known, false, CLOSED), Kept(Lines(rest), known, false, CLOSED));
  }

  lemma BlankIsDropped(known: set<string>)
    ensures Kept([""], known, false, CLOSED) == [] && Lines("") == [""]
  {
  }

  // ---------- filtering again ----------

  /** Every line goes on with an open value or starts an entry the filter keeps. */
  predicate AllKept(lines: seq<string>, known: set<string>, open: OpenValue) {
    lines == [] ||
    (&& (open.Open() || (KeyOf(lines[0]) != "" && KeyOf(lines[0]) !in known))
     && AllKept(lines[1..], known, Advance(open, lines[0], 0)))
  }

  lemma {:induction false} AllKeptForgets(lines: seq<string>, known: set<string>, v: OpenValue, w: OpenValue)
    requires Same(v, w)
    ensures AllKept(lines, known, v) == AllKept(lines, known, w)
  {
    if lines != [] {
      AdvanceKeepsSame(v, w, lines[0], 0);
      AllKeptForgets(lines[1..], known, Advance(v, lines[0], 0), Advance(w, lines[0], 0));
    }
  }

  lemma {:induction false} KeptIsAllKept(lines: seq<string>, known: set<string>, keeping: bool, open: OpenValue)
    ensures AllKept(Kept(lines, known, keeping, open), known, if keeping then open else CLOSED)
  {
    if lines != [] {
      var line := lines[0];
      var f := Filter(line, known, keeping, open);
      var rest := Kept(lines[1..], known, f.0, f.1);
      KeptIsAllKept(lines[1..], known, f.0, f.1);
      EmptyPlus(rest);
      if f.0 {
        assert ([line] + rest)[1..] == rest;
        if !keeping {
          AdvanceKeepsSame(CLOSED, open, line, 0);
          AllKeptForgets(rest, known, Advance(CLOSED, line, 0), Advance(open, line, 0));
        }
      } else if keeping {
        AllKeptForgets(rest, known, CLOSED, open);
      }
    }
  }

  lemma {:induction false} AllKeptFront(lines: seq<string>, front: seq<string>, known: set<string>, open: OpenValue)
    requires front <= lines && AllKept(lines, known, open)
    ensures AllKept(front, known, open)
  {
    if front != [] { AllKeptFront(lines[1..], front[1..], known, Advance(open, lines[0], 0)); }
  }

  /** Of lines that are all kept, with the last line break behind them, all are kept. */
  lemma {:induction false} KeptAgain(lines: seq<string>, known: set<string>, keeping: bool, open: OpenValue)
    requires AllKept(lines, known, open) && (open.Open() ==> keeping)
    ensures Kept(lines + [""], known, keeping, open) in {lines, lines + [""]}
  {
    if lines == [] {
      EmptyPlus([""]);
      assert [""][1..] == [];
      EmptyPlus(Kept([], known, keeping, open));
      RightUnit([""]);
    } else {
      ConsConcat(lines, [""]);
      var next := Advance(open, lines[0], 0);
      KeptAgain(lines[1..], known, true, next);
      Cons(lines);
      Assoc([lines[0]], lines[1..], [""]);
    }
  }

  lemma {:induction false} KeptLinesAreLines(lines: seq<string>, known: set<string>, keeping: bool, open: OpenValue)
    requires AreLines(lines)
    ensures AreLines(Kept(lines, known, keeping, open))
  {
    if lines != [] {
      var f := Filter(lines[0], known, keeping, open);
      KeptLinesAreLines(lines[1..], known, f.0, f.1);
      assert lines[0] in lines;
    }
  }

  /** What is saved of the unknown keys is read back as it was, for every body, one that ends
      inside an open value too. */
  lemma FilterIsIdempotent(body: string, known: set<string>)
    ensures var saved := Normalized(UnknownKeys(body, known)); Normalized(UnknownKeys(saved, known)) == saved
  {
    var kept := Kept(Lines(body), known, false, CLOSED);
    var d := DropBlank(kept);
    KeptLinesAreLines(Lines(body), known, false, CLOSED);
    NormalizedUnlines(kept);
    KeptIsAllKept(Lines(body), known, false, CLOSED);
    AllKeptFront(kept, d, known, CLOSED);
    LinesOfUnlines(d);
    KeptAgain(d, known, false, CLOSED);
    var again := Kept(d + [""], known, false, CLOSED);
    DropBlankAgain(kept);
    LinesJoined(d, [""]);
    NormalizedUnlines(again);
  }

  lemma LinesOfUnlines(lines: seq<string>)
    requires AreLines(lines)
    ensures Lines(Unlines(lines)) == lines + [""]
  {
    LinesAfter(lines, "");
    RightUnit(Unlines(lines));
    assert Lines("") == [""];
  }
}
