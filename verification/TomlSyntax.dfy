/** The line lexer, the table splitter, the entry filter and the escaper of
    ConfigTomlSyntax.cpp: each as a function, and each loop of the source as a method
    proved to compute that function. */
module TomlSyntax {
  import opened Text

  /** How much of a value a line leaves unfinished. */
  datatype OpenValue = OpenValue(basic: bool, literal: bool, brackets: nat, braces: nat, inlineTable: bool) {
    predicate Open() { basic || literal || brackets > 0 || braces > 0 }
  }

  const CLOSED := OpenValue(false, false, 0, 0, false)

  const BASIC_FENCE: string := "\"\"\""
  const LITERAL_FENCE: string := "'''"

  // ---------- the lexer ----------

  /** From inside a one-line string opened by `quote`: just past where it closes, which
      may lie past the end of the line. */
  function ScanQuoted(line: string, quote: char, i: nat): (k: nat)
    ensures k > i
    decreases if i < |line| then |line| - i else 0
  {
    if i >= |line| || line[i] == quote then i + 1
    else ScanQuoted(line, quote, i + if quote == '"' && line[i] == '\\' then 2 else 1)
  }

  method EndOfQuoted(line: string, i: nat) returns (k: nat)
    requires i < |line|
    ensures k == ScanQuoted(line, line[i], i + 1)
  {
    var quote := line[i];
    k := i + 1;
    while k < |line| && line[k] != quote
      invariant ScanQuoted(line, quote, k) == ScanQuoted(line, quote, i + 1)
    {
      if quote == '"' && line[k] == '\\' {
        k := k + 1;
      }
      k := k + 1;
    }
    k := k + 1;
  }

  /** Inside a multi-line string: just past the fence that closes it, or the end of the
      text, and whether it closes. */
  function ScanMultiline(basic: bool, text: string, i: nat): (r: (nat, bool))
    ensures i < |text| ==> r.0 > i
    decreases if i < |text| then |text| - i else 0
  {
    if i >= |text| then (|text|, false)
    else if basic && text[i] == '\\' then
      if i + 2 >= |text| then (|text|, false) else ScanMultiline(basic, text, i + 2)
    else if At(text, i, if basic then BASIC_FENCE else LITERAL_FENCE) then (i + 3, true)
    else ScanMultiline(basic, text, i + 1)
  }

  function CloseString(v: OpenValue): OpenValue {
    v.(basic := false, literal := false)
  }

  method EndOfOpenMultiline(v: OpenValue, text: string, start: nat) returns (v': OpenValue, i: nat)
    ensures var r := ScanMultiline(v.basic, text, start); i == r.0 && v' == if r.1 then CloseString(v) else v
  {
    i := start;
    while i < |text|
      invariant ScanMultiline(v.basic, text, i) == ScanMultiline(v.basic, text, start)
      decreases |text| - i
    {
      if v.basic && text[i] == '\\' {
        i := i + 2;
        continue;
      }
      if At(text, i, if v.basic then BASIC_FENCE else LITERAL_FENCE) {
        return v.(basic := false, literal := false), i + 3;
      }
      i := i + 1;
    }
    return v, |text|;
  }

  function CountBracket(v: OpenValue, c: char): OpenValue {
    if c == '[' then v.(brackets := v.brackets + 1)
    else if c == ']' && v.brackets > 0 then v.(brackets := v.brackets - 1)
    else if c == '{' then v.(braces := v.braces + 1, inlineTable := true)
    else if c == '}' && v.braces > 0 then v.(braces := v.braces - 1)
    else v
  }

  /** What the line, read from `i`, leaves open. */
  function Advance(v: OpenValue, line: string, i: nat): OpenValue
    decreases if i < |line| then |line| - i else 0
  {
    if i >= |line| then v
    else if v.basic || v.literal then
      var r := ScanMultiline(v.basic, line, i);
      Advance(if r.1 then CloseString(v) else v, line, r.0)
    else if At(line, i, BASIC_FENCE) then Advance(v.(basic := true), line, i + 3)
    else if At(line, i, LITERAL_FENCE) then Advance(v.(literal := true), line, i + 3)
    else if line[i] == '#' then v
    else if line[i] == '"' || line[i] == '\'' then Advance(v, line, ScanQuoted(line, line[i], i + 1))
    else Advance(CountBracket(v, line[i]), line, i + 1)
  }

  method AdvanceOpenValue(v: OpenValue, line: string) returns (v': OpenValue)
    ensures v' == Advance(v, line, 0)
  {
    v' := v;
    var i := 0;
    while i < |line|
      invariant Advance(v', line, i) == Advance(v, line, 0)
      decreases |line| - i
    {
      if v'.basic || v'.literal {
        v', i := EndOfOpenMultiline(v', line, i);
        continue;
      }
      if At(line, i, BASIC_FENCE) {
        v' := v'.(basic := true);
        i := i + 3;
        continue;
      }
      if At(line, i, LITERAL_FENCE) {
        v' := v'.(literal := true);
        i := i + 3;
        continue;
      }
      var c := line[i];
      if c == '#' {
        return;
      }
      if c == '"' || c == '\'' {
        i := EndOfQuoted(line, i);
        continue;
      }
      v' := CountBracket(v', c);
      i := i + 1;
    }
  }

  // ---------- headers and keys ----------

  /** Where the comment on a line starts, read from `i`; None when it has none. */
  function CommentStart(line: string, i: nat): (r: Option<nat>)
    ensures r.Some? ==> i <= r.value < |line| && line[r.value] == '#'
    decreases if i < |line| then |line| - i else 0
  {
    if i >= |line| then None
    else if line[i] == '#' then Some(i)
    else if line[i] == '"' || line[i] == '\'' then CommentStart(line, ScanQuoted(line, line[i], i + 1))
    else CommentStart(line, i + 1)
  }

  method FindComment(line: string) returns (r: Option<nat>)
    ensures r == CommentStart(line, 0)
  {
    var i := 0;
    while i < |line|
      invariant CommentStart(line, i) == CommentStart(line, 0)
      decreases |line| - i
    {
      var c := line[i];
      if c == '#' {
        return Some(i);
      }
      if c == '"' || c == '\'' {
        i := EndOfQuoted(line, i);
      } else {
        i := i + 1;
      }
    }
    return None;
  }

  function UnquotedKey(key: string): string {
    if |key| < 2 then key
    else if (key[0] != '"' && key[0] != '\'') || key[|key| - 1] != key[0] then key
    else key[1..|key| - 1]
  }

  predicate IsBareChar(c: char) {
    'A' <= c <= 'Z' || 'a' <= c <= 'z' || '0' <= c <= '9' || c == '_' || c == '-'
  }

  predicate IsBare(key: string) {
    key != "" && forall i :: 0 <= i < |key| ==> IsBareChar(key[i])
  }

  function PartName(part: string): string {
    UnquotedKey(Trim(part))
  }

  function PartNames(parts: seq<string>): (r: seq<string>)
    ensures |r| == |parts| && forall i :: 0 <= i < |r| ==> r[i] == PartName(parts[i])
  {
    if parts == [] then [] else [PartName(parts[0])] + PartNames(parts[1..])
  }

  predicate AllBare(names: seq<string>) {
    forall i :: 0 <= i < |names| ==> IsBare(names[i])
  }

  function TableName(written: string): string {
    var names := PartNames(Split(written, '.'));
    if AllBare(names) then Join(names, '.') else written
  }

  /** The line without its comment. */
  function Uncommented(t: string): string {
    match CommentStart(t, 0)
    case Some(k) => Trim(t[..k])
    case None => t
  }

  /** isTableHeader(): the name of the table the line opens, if it opens one. */
  function TableHeader(line: string): Option<string> {
    var trimmed := Trim(line);
    if trimmed == "" || trimmed[0] != '[' then None
    else
      var t := Uncommented(trimmed);
      if t == "" || t[|t| - 1] != ']' || |t| < 2 then None
      else Some(TableName(Trim(t[1..|t| - 1])))
  }

  function KeyOf(line: string): string {
    var t := Trim(line);
    if t == "" || t[0] == '#' then ""
    else
      var eq := IndexOf(t, '=', 0);
      if eq == |t| then "" else UnquotedKey(Trim(t[..eq]))
  }

  // ---------- splitting into tables ----------

  datatype Table = Table(header: string, body: string)

  /** The tables of the lines that follow, after `body` lines of the table `header`. */
  function Tables(lines: seq<string>, header: string, body: string, open: OpenValue): (r: seq<Table>)
    ensures |r| >= 1
  {
    if lines == [] then [Table(header, body)]
    else
      var name := TableHeader(lines[0]);
      if !open.Open() && name.Some? then [Table(header, body)] + Tables(lines[1..], name.value, "", open)
      else Tables(lines[1..], header, body + lines[0] + "\n", Advance(open, lines[0], 0))
  }

  function SplitTables(toml: string): (r: seq<Table>)
    ensures |r| >= 1
  {
    Tables(Lines(toml), "", "", CLOSED)
  }

  method SplitTomlTables(toml: string) returns (out: seq<Table>)
    ensures out == SplitTables(toml)
  {
    out := [];
    var header, body, open := "", "", CLOSED;
    var lines := Lines(toml);
    var k := 0;
    while k < |lines|
      invariant 0 <= k <= |lines|
      invariant out + Tables(lines[k..], header, body, open) == SplitTables(toml)
    {
      var line := lines[k];
      assert lines[k..][1..] == lines[k + 1..];
      k := k + 1;
      if open.Open() {
        body := body + line + "\n";
        open := AdvanceOpenValue(open, line);
        continue;
      }
      var name := TableHeader(line);
      if name.Some? {
        out := out + [Table(header, body)];
        header := name.value;
        body := "";
        continue;
      }
      body := body + line + "\n";
      open := AdvanceOpenValue(open, line);
    }
    out := out + [Table(header, body)];
  }

  function StripBreaks(body: string): (r: string)
    ensures r == "" || r[|r| - 1] != '\n'
  {
    if body != "" && body[|body| - 1] == '\n' then StripBreaks(body[..|body| - 1]) else body
  }

  function Normalized(body: string): string {
    var b := StripBreaks(body);
    if b == "" then "" else b + "\n"
  }

  method NormalizeBody(body: string) returns (r: string)
    ensures r == Normalized(body)
  {
    r := body;
    while r != "" && r[|r| - 1] == '\n'
      invariant StripBreaks(r) == StripBreaks(body)
      decreases |r|
    {
      r := r[..|r| - 1];
    }
    if r != "" {
      r := r + "\n";
    }
  }

  // ---------- the entries an editor does not write ----------

  /** Whether the line stays, and what it leaves open. */
  function Filter(line: string, known: set<string>, keeping: bool, open: OpenValue): (bool, OpenValue) {
    if open.Open() then (keeping, Advance(open, line, 0))
    else if KeyOf(line) == "" then (false, open)
    else (KeyOf(line) !in known, Advance(open, line, 0))
  }

  /** The lines that stay, of the lines that follow. */
  function Kept(lines: seq<string>, known: set<string>, keeping: bool, open: OpenValue): seq<string> {
    if lines == [] then []
    else
      var f := Filter(lines[0], known, keeping, open);
      (if f.0 then [lines[0]] else []) + Kept(lines[1..], known, f.0, f.1)
  }

  function UnknownKeys(body: string, known: set<string>): string {
    Unlines(Kept(Lines(body), known, false, CLOSED))
  }

  method UnknownKeyLines(body: string, known: set<string>) returns (out: string)
    ensures out == UnknownKeys(body, known)
  {
    out := "";
    var keeping, open := false, CLOSED;
    var lines := Lines(body);
    ghost var kept: seq<string> := [];
    var k := 0;
    KeptEnds(lines, known, keeping, open);
    while k < |lines|
      invariant 0 <= k <= |lines| && out == Unlines(kept)
      invariant KeptSoFar(kept, lines, k, known, keeping, open)
    {
      var line := lines[k];
      KeptStep(kept, lines, k, known, keeping, open);
      k := k + 1;
      if open.Open() {
        if keeping {
          out := out + (line + "\n");
          kept := kept + [line];
        }
        open := AdvanceOpenValue(open, line);
        continue;
      }
      var key := KeyOf(line);
      if key == "" {
        keeping := false;
        continue;
      }
      keeping := key !in known;
      if keeping {
        out := out + (line + "\n");
        kept := kept + [line];
      }
      open := AdvanceOpenValue(open, line);
    }
    KeptEnds(kept, known, keeping, open);
  }

  lemma KeptEnds(lines: seq<string>, known: set<string>, keeping: bool, open: OpenValue)
    ensures lines[0..] == lines && lines[|lines|..] == []
    ensures [] + Kept(lines, known, keeping, open) == Kept(lines, known, keeping, open)
    ensures lines + Kept([], known, keeping, open) == lines
  {
  }

  ghost predicate KeptSoFar(kept: seq<string>, lines: seq<string>, k: nat, known: set<string>, keeping: bool,
                            open: OpenValue)
  {
    k <= |lines| && kept + Kept(lines[k..], known, keeping, open) == Kept(lines, known, false, CLOSED)
  }

  lemma KeptStep(kept: seq<string>, lines: seq<string>, k: nat, known: set<string>, keeping: bool, open: OpenValue)
    requires k < |lines| && KeptSoFar(kept, lines, k, known, keeping, open)
    ensures Unlines(kept + [lines[k]]) == Unlines(kept) + (lines[k] + "\n")
    ensures var f := Filter(lines[k], known, keeping, open);
      KeptSoFar(if f.0 then kept + [lines[k]] else kept, lines, k + 1, known, f.0, f.1)
  {
    var f := Filter(lines[k], known, keeping, open);
    var rest := Kept(lines[k + 1..], known, f.0, f.1);
    Tail(lines, k);
    Assoc(kept, [lines[k]], rest);
    AppendLine(kept, lines[k]);
  }

  lemma AppendLine(kept: seq<string>, line: string)
    ensures Unlines(kept + [line]) == Unlines(kept) + (line + "\n")
  {
    UnlinesConcat(kept, [line]);
    assert [line][1..] == [];
  }

  // ---------- the escaper ----------

  predicate IsControl(c: char) { c < ' ' || c == '\U{7F}' }

  function EscapedChar(c: char): string {
    if IsControl(c) then "" else if c == '\\' || c == '"' then ['\\', c] else [c]
  }

  function Escaped(s: string): string {
    if s == "" then "" else EscapedChar(s[0]) + Escaped(s[1..])
  }

  method TomlEsc(s: string) returns (o: string)
    ensures o == Escaped(s)
  {
    o := "";
    for k := 0 to |s|
      invariant o + Escaped(s[k..]) == Escaped(s)
    {
      var c := s[k];
      assert s[k..][0] == c && s[k..][1..] == s[k + 1..];
      Assoc(o, EscapedChar(c), Escaped(s[k + 1..]));
      if c < ' ' || c == '\U{7F}' {
        continue;
      }
      if c == '\\' || c == '"' {
        o := o + ['\\', c];
      } else {
        o := o + [c];
      }
    }
  }
}
