/** What a header names and what a key line's key is, quoted or not, whatever white space and comments
    stand around. */
module TomlHeaders {
  import opened Text
  import opened TomlSyntax

  /** What TOML takes in a bare key. */
  const BARE: seq<(char, char)> := [('A', 'Z'), ('a', 'z'), ('0', '9'), ('_', '_'), ('-', '-')]

  predicate IsQuote(q: char) { q == '"' || q == '\'' }

  function InQuotes(quote: Option<char>, s: string): string {
    match quote case None => s case Some(q) => [q] + s + [q]
  }

  /** One name of a dotted header, with what stands around it. */
  datatype Part = Part(before: string, quote: Option<char>, name: string, after: string) {
    predicate Written() {
      && AllSpace(before) && AllSpace(after) && (quote.Some? ==> IsQuote(quote.value))
      && name != "" && forall i :: 0 <= i < |name| ==> InRanges(name[i], BARE)
    }

    function Text(): string { before + InQuotes(quote, name) + after }
  }

  predicate AllWritten(parts: seq<Part>) {
    parts != [] && forall i :: 0 <= i < |parts| ==> parts[i].Written()
  }

  function Texts(parts: seq<Part>): (r: seq<string>)
    ensures |r| == |parts|
  {
    if parts == [] then [] else [parts[0].Text()] + Texts(parts[1..])
  }

  function Names(parts: seq<Part>): (r: seq<string>)
    ensures |r| == |parts|
  {
    if parts == [] then [] else [parts[0].name] + Names(parts[1..])
  }

  // ---------- white space and comments around ----------

  lemma {:induction false} SpaceIsTrimmed(a: string, core: string, b: string)
    requires AllSpace(a) && AllSpace(b) && IsTrimmed(core) && core != ""
    ensures Trim(a + core + b) == core
    decreases |a| + |b|
  {
    var s := a + core + b;
    if a != "" {
      assert s[0] == a[0];
      assert s[1..] == a[1..] + core + b;
      SpaceIsTrimmed(a[1..], core, b);
    } else if b != "" {
      assert s[0] == core[0] && s[|s| - 1] == b[|b| - 1];
      assert s[..|s| - 1] == a + core + b[..|b| - 1];
      SpaceIsTrimmed(a, core, b[..|b| - 1]);
    } else {
      assert s == core;
    }
  }

  lemma {:induction false} CommentPasses(line: string, i: nat, j: nat)
    requires i <= j <= |line| && forall k :: i <= k < j ==> line[k] != '#' && !IsQuote(line[k])
    ensures CommentStart(line, i) == CommentStart(line, j)
    decreases j - i
  {
    if i < j { CommentPasses(line, i + 1, j); }
  }

  predicate MeansNothing(s: string) { forall i :: 0 <= i < |s| ==> s[i] != '#' && !IsQuote(s[i]) }

  lemma RunPasses(x: string, s: string, y: string)
    requires MeansNothing(s)
    ensures var line := x + s + y; CommentStart(line, |x|) == CommentStart(line, |x + s|)
  {
    var line := x + s + y;
    forall k | |x| <= k < |x + s| ensures line[k] != '#' && !IsQuote(line[k]) { assert line[k] == s[k - |x|]; }
    CommentPasses(line, |x|, |x + s|);
  }

  lemma {:induction false} QuotePasses(line: string, q: char, i: nat, j: nat)
    requires i <= j < |line| && line[j] == q && forall k :: i <= k < j ==> line[k] != q && line[k] != '\\'
    ensures ScanQuoted(line, q, i) == j + 1
    decreases j - i
  {
    if i < j { QuotePasses(line, q, i + 1, j); }
  }

  lemma QuotedPasses(x: string, q: char, s: string, y: string)
    requires IsQuote(q) && q !in s && '\\' !in s
    ensures var w := InQuotes(Some(q), s);
      var line := x + w + y; CommentStart(line, |x|) == CommentStart(line, |x + w|)
  {
    var line, i, n := x + InQuotes(Some(q), s) + y, |x|, |s|;
    assert line[i] == q && line[i + n + 1] == q;
    forall k | i + 1 <= k < i + n + 1 ensures line[k] != q && line[k] != '\\' {
      assert line[k] == s[k - i - 1] && s[k - i - 1] in s;
    }
    QuotePasses(line, q, i + 1, i + n + 1);
  }

  lemma BareIs(c: char)
    ensures InRanges(c, BARE) <==> IsBareChar(c)
  {
    var after := BARE[1..];
    assert after == [('a', 'z'), ('0', '9'), ('_', '_'), ('-', '-')];
    var digits := after[1..];
    assert digits == [('0', '9'), ('_', '_'), ('-', '-')] && digits[1..] == [('_', '_'), ('-', '-')];
    assert digits[1..][1..] == [('-', '-')] && digits[1..][1..][1..] == [];
    assert InRanges(c, BARE) == ('A' <= c <= 'Z' || InRanges(c, after));
    assert InRanges(c, after) == ('a' <= c <= 'z' || InRanges(c, digits));
    assert InRanges(c, digits) == ('0' <= c <= '9' || InRanges(c, digits[1..]));
    assert InRanges(c, digits[1..]) == (c == '_' || InRanges(c, digits[1..][1..]));
    assert InRanges(c, digits[1..][1..]) == (c == '-' || InRanges(c, digits[1..][1..][1..]));
  }

  lemma NameIsBare(p: Part)
    requires p.Written()
    ensures IsBare(p.name) && IsTrimmed(InQuotes(p.quote, p.name)) && MeansNothing(p.name) && '\\' !in p.name
  {
    forall i | 0 <= i < |p.name| ensures IsBareChar(p.name[i]) { BareIs(p.name[i]); }
  }

  lemma SpaceMeansNothing(s: string)
    requires AllSpace(s)
    ensures MeansNothing(s)
  {
  }

  lemma {:induction false} PartPasses(x: string, p: Part, y: string)
    requires p.Written()
    ensures var line := x + p.Text() + y; CommentStart(line, |x|) == CommentStart(line, |x + p.Text()|)
  {
    hide CommentStart, IsBareChar, IsSpace, InRanges;
    var core := InQuotes(p.quote, p.name);
    NameIsBare(p);
    SpaceMeansNothing(p.before);
    SpaceMeansNothing(p.after);
    Grouped(x, p.before, core, p.after, y);
    RunPasses(x, p.before, core + p.after + y);
    match p.quote {
      case Some(q) => QuotedPasses(x + p.before, q, p.name, p.after + y);
      case None => RunPasses(x + p.before, p.name, p.after + y);
    }
    RunPasses(x + p.before + core, p.after, y);
  }

  lemma Grouped(x: string, a: string, b: string, c: string, y: string)
    ensures x + (a + b + c) + y == x + a + (b + c + y) == (x + a) + b + (c + y) == (x + a + b) + c + y
    ensures x + (a + b + c) == x + a + b + c
  {
  }

  lemma {:induction false} PartsPass(x: string, parts: seq<Part>, y: string)
    requires AllWritten(parts)
    ensures var w := Join(Texts(parts), '.');
      var line := x + w + y; CommentStart(line, |x|) == CommentStart(line, |x + w|)
    decreases |parts|
  {
    hide CommentStart, InRanges;
    var w := Join(Texts(parts), '.');
    var t := parts[0].Text();
    if |parts| == 1 {
      PartPasses(x, parts[0], y);
    } else {
      assert Texts(parts)[1..] == Texts(parts[1..]);
      var v := Join(Texts(parts[1..]), '.');
      assert w == t + "." + v;
      Grouped(x, t, ".", v, y);
      PartPasses(x, parts[0], "." + v + y);
      RunPasses(x + t, ".", v + y);
      PartsPass(x + t + ".", parts[1..], y);
    }
  }

  /** `h` in white space and before a comment is what the comment and the white space leave of it. */
  lemma {:induction false} HeaderAlone(indent: string, h: string, tail: string, comment: string)
    requires AllSpace(indent) && AllSpace(tail) && IsTrimmed(h) && h != "" && (comment == "" || comment[0] == '#')
    requires forall y: string :: CommentStart(h + y, 0) == CommentStart(h + y, |h|)
    ensures var t := Trim(indent + h + tail + comment); t != "" && t[0] == h[0] && Uncommented(t) == h
  {
    hide CommentStart, IsSpace, Trim;
    if comment == "" {
      SpaceIsTrimmed(indent, h, tail);
      RightUnit(indent + h + tail);
      RightUnit(h);
      assert CommentStart(h + "", 0) == CommentStart(h + "", |h|);
      NoCommentAtTheEnd(h);
    } else {
      var note, rest := NoteOf(comment);
      var core := h + tail + note;
      assert core[0] == h[0] && core[|core| - 1] == note[|note| - 1];
      SpaceIsTrimmed(indent, core, rest);
      Grouped("", indent + h + tail, note, rest, "");
      assert indent + h + tail + comment == indent + core + rest;
      NoteIsFound(h, tail, note);
    }
  }

  lemma NoCommentAtTheEnd(h: string)
    ensures CommentStart(h, |h|).None?
  {
  }

  lemma NoteOf(comment: string) returns (note: string, rest: string)
    requires comment != "" && comment[0] == '#'
    ensures comment == note + rest && note != "" && note[0] == '#' && IsTrimmed(note) && AllSpace(rest)
  {
    var a, b := TrimParts(comment);
    note, rest := comment[..b], comment[b..];
    assert b == 0 ==> rest == comment;
  }

  lemma {:induction false} NoteIsFound(h: string, tail: string, note: string)
    requires AllSpace(tail) && IsTrimmed(h) && h != "" && note != "" && note[0] == '#'
    requires CommentStart(h + (tail + note), 0) == CommentStart(h + (tail + note), |h|)
    ensures Uncommented(h + tail + note) == h
  {
    var core := h + tail + note;
    Assoc(h, tail, note);
    SpaceMeansNothing(tail);
    RunPasses(h, tail, note);
    assert core[|h + tail|] == '#';
    assert core[..|h + tail|] == h + tail;
    SpaceIsTrimmed("", h, tail);
    EmptyPlus(h);
  }

  // ---------- headers ----------

  lemma {:induction false} NamesOfParts(parts: seq<Part>)
    requires parts != [] ==> AllWritten(parts)
    ensures PartNames(Texts(parts)) == Names(parts) && AllBare(Names(parts))
    ensures forall t :: t in Texts(parts) ==> '.' !in t
    decreases |parts|
  {
    hide InRanges, Trim, UnquotedKey;
    if parts != [] {
      var p := parts[0];
      NameOfPart(p);
      assert Texts(parts)[1..] == Texts(parts[1..]) && Names(parts)[1..] == Names(parts[1..]);
      NamesOfParts(parts[1..]);
    }
  }

  lemma NameOfPart(p: Part)
    requires p.Written()
    ensures PartName(p.Text()) == p.name && IsBare(p.name) && '.' !in p.Text()
  {
    NameIsBare(p);
    SpaceIsTrimmed(p.before, InQuotes(p.quote, p.name), p.after);
    UnquotedIs(p.quote, p.name);
    assert '.' !in p.before && '.' !in p.name && '.' !in p.after;
  }

  lemma UnquotedIs(quote: Option<char>, s: string)
    requires quote.Some? ==> IsQuote(quote.value)
    requires quote.None? ==> s == "" || !IsQuote(s[0])
    ensures UnquotedKey(InQuotes(quote, s)) == s
  {
    var w := InQuotes(quote, s);
    if quote.Some? { assert w[1..|w| - 1] == s; }
  }

  lemma {:induction false} JoinOfTrimmed(parts: seq<Part>)
    requires AllWritten(parts) && parts[0].before == "" && parts[|parts| - 1].after == ""
    ensures var w := Join(Texts(parts), '.'); w != "" && IsTrimmed(w)
  {
    var w := Join(Texts(parts), '.');
    NameIsBare(parts[0]);
    var first := InQuotes(parts[0].quote, parts[0].name);
    assert parts[0].Text()[..|first|] == first;
    assert w[0] == first[0];
    LastOfJoin(parts);
  }

  lemma {:induction false} LastOfJoin(parts: seq<Part>)
    requires AllWritten(parts) && parts[|parts| - 1].after == ""
    ensures var w := Join(Texts(parts), '.'); w != "" && !IsSpace(w[|w| - 1])
    decreases |parts|
  {
    if |parts| == 1 {
      NameIsBare(parts[0]);
      var p, core := parts[0], InQuotes(parts[0].quote, parts[0].name);
      assert p.Text() == p.before + core;
    } else {
      assert Texts(parts)[1..] == Texts(parts[1..]);
      LastOfJoin(parts[1..]);
    }
  }

  /** Names in brackets, bare or quoted, with dots between, are the table of these names, whatever
      white space and comment stand around. */
  lemma {:induction false} HeaderNames(indent: string, lead: string, parts: seq<Part>, close: string, tail: string,
                                       comment: string)
    requires AllWritten(parts) && parts[0].before == "" && parts[|parts| - 1].after == ""
    requires AllSpace(indent) && AllSpace(lead) && AllSpace(close) && AllSpace(tail)
    requires comment == "" || comment[0] == '#'
    ensures var w := Join(Texts(parts), '.');
      TableHeader(indent + ("[" + lead + w + close + "]") + tail + comment) == Some(Join(Names(parts), '.'))
  {
    var w := Join(Texts(parts), '.');
    var h := "[" + lead + w + close + "]";
    forall y: string ensures CommentStart(h + y, 0) == CommentStart(h + y, |h|) {
      HeaderPasses(lead, parts, close, y);
    }
    assert h[0] == '[' && h[|h| - 1] == ']' && IsTrimmed(h);
    HeaderAlone(indent, h, tail, comment);
    JoinOfTrimmed(parts);
    InBrackets(indent + h + tail + comment, lead, w, close);
    NamesOfParts(parts);
    SplitOfJoin(Texts(parts), '.');
  }

  lemma {:induction false} InBrackets(line: string, lead: string, w: string, close: string)
    requires AllSpace(lead) && AllSpace(close) && w != "" && IsTrimmed(w)
    requires var t := Trim(line); t != "" && t[0] == '[' && Uncommented(t) == "[" + lead + w + close + "]"
    ensures TableHeader(line) == Some(TableName(w))
  {
    hide Trim, Uncommented, TableName;
    var h := "[" + lead + w + close + "]";
    assert h[|h| - 1] == ']' && h[1..|h| - 1] == lead + w + close;
    SpaceIsTrimmed(lead, w, close);
  }

  lemma {:induction false} HeaderPasses(lead: string, parts: seq<Part>, close: string, y: string)
    requires AllWritten(parts) && AllSpace(lead) && AllSpace(close)
    ensures var h := "[" + lead + Join(Texts(parts), '.') + close + "]";
      CommentStart(h + y, 0) == CommentStart(h + y, |h|)
  {
    hide CommentStart, InRanges, IsSpace;
    var w := Join(Texts(parts), '.');
    var a, b := "[" + lead, close + "]";
    SpaceMeansNothing(lead);
    SpaceMeansNothing(close);
    Grouped("", a, w, b, y);
    assert "[" + lead + w + close + "]" == a + w + b;
    RunPasses("", a, w + b + y);
    PartsPass(a, parts, b + y);
    RunPasses(a + w, b, y);
    assert forall z: string :: "" + z == z;
  }

  /** With nothing open the lines behind such a header are that table's; in an open value the line
      belongs to the value. */
  lemma {:induction false} HeaderStartsItsTable(indent: string, parts: seq<Part>, tail: string, comment: string,
                                                rest: seq<string>, header: string, body: string, open: OpenValue)
    requires AllWritten(parts) && parts[0].before == "" && parts[|parts| - 1].after == ""
    requires AllSpace(indent) && AllSpace(tail) && (comment == "" || comment[0] == '#')
    ensures var line := indent + ("[" + Join(Texts(parts), '.') + "]") + tail + comment;
      Tables([line] + rest, header, body, open) ==
      if open.Open() then Tables(rest, header, body + line + "\n", Advance(open, line, 0))
      else [Table(header, body)] + Tables(rest, Join(Names(parts), '.'), "", open)
  {
    hide TableHeader, Advance, Tables;
    HeaderNames(indent, "", parts, "", tail, comment);
    var w := Join(Texts(parts), '.');
    NothingAround(w);
    StartsATable(indent + ("[" + w + "]") + tail + comment, rest, Join(Names(parts), '.'), header, body, open);
  }

  lemma NothingAround(w: string)
    ensures "[" + "" + w + "" + "]" == "[" + w + "]"
  {
  }

  lemma {:induction false} StartsATable(line: string, rest: seq<string>, name: string, header: string, body: string,
                                        open: OpenValue)
    requires TableHeader(line) == Some(name)
    ensures Tables([line] + rest, header, body, open) ==
      if open.Open() then Tables(rest, header, body + line + "\n", Advance(open, line, 0))
      else [Table(header, body)] + Tables(rest, name, "", open)
  {
    hide TableHeader, Advance;
    assert ([line] + rest)[0] == line && ([line] + rest)[1..] == rest;
  }

  lemma {:induction false} PartWith(w: string, k: nat) returns (j: nat)
    requires k < |w| && w[k] != '.'
    ensures j < |Split(w, '.')| && w[k] in Split(w, '.')[j]
    decreases |w|
  {
    var eq := IndexOf(w, '.', 0);
    if eq < |w| {
      assert Split(w, '.') == [w[..eq]] + Split(w[eq + 1..], '.');
      if k <= eq {
        j := 0;
        assert k < eq && w[..eq][k] == w[k];
      } else {
        assert w[eq + 1..][k - eq - 1] == w[k];
        j := PartWith(w[eq + 1..], k - eq - 1);
        j := j + 1;
      }
    } else {
      j := 0;
    }
  }

  lemma {:induction false} SplitIsPart(w: string)
    ensures forall p :: p in Split(w, '.') ==> forall c :: c in p ==> c in w
    decreases |w|
  {
    var eq := IndexOf(w, '.', 0);
    if eq < |w| { SplitIsPart(w[eq + 1..]); }
  }

  /** What Trim takes off is white space. */
  lemma TrimSpan(s: string) returns (a: nat, b: nat)
    ensures a <= b <= |s| && Trim(s) == s[a..b]
    ensures forall k :: 0 <= k < a || b <= k < |s| ==> IsSpace(s[k])
  {
    a, b := TrimParts(s);
    forall k | 0 <= k < a || b <= k < |s| ensures IsSpace(s[k]) {
      if k < a { assert s[..a][k] == s[k]; } else { assert s[b..][k - b] == s[k]; }
    }
  }

  lemma TrimKeeps(s: string, c: char)
    requires c in s && !IsSpace(c)
    ensures c in Trim(s)
  {
    var a, b := TrimSpan(s);
    var k :| 0 <= k < |s| && s[k] == c;
    assert s[a..b][k - a] == c;
  }

  /** Other names, such as the inner brackets of an array of tables, stay as they are written. */
  lemma {:induction false} OtherNamesStay(indent: string, w: string, k: nat, tail: string, comment: string)
    requires MeansNothing(w) && IsTrimmed(w) && k < |w| && !IsSpace(w[k]) && w[k] != '.' && !InRanges(w[k], BARE)
    requires AllSpace(indent) && AllSpace(tail) && (comment == "" || comment[0] == '#')
    ensures TableHeader(indent + ("[" + w + "]") + tail + comment) == Some(w)
  {
    var h := "[" + w + "]";
    forall y: string ensures CommentStart(h + y, 0) == CommentStart(h + y, |h|) {
      RunPasses("", h, y);
      EmptyPlus(h);
    }
    HeaderAlone(indent, h, tail, comment);
    assert h[1..|h| - 1] == w;
    InBrackets(indent + h + tail + comment, "", w, "");
    NotAllBare(w, k);
  }

  lemma NotAllBare(w: string, k: nat)
    requires MeansNothing(w) && k < |w| && !IsSpace(w[k]) && w[k] != '.' && !InRanges(w[k], BARE)
    ensures TableName(w) == w
  {
    var j := PartWith(w, k);
    SplitIsPart(w);
    var p := Split(w, '.')[j];
    TrimKeeps(p, w[k]);
    BareIs(w[k]);
    var t := Trim(p);
    assert p in Split(w, '.') && t[0] in t && t[0] in p && t[0] in w;
    assert !IsQuote(t[0]);
    assert PartName(p) == t;
    assert !IsBare(PartNames(Split(w, '.'))[j]);
  }

  /** Quotes around a dot are part of the name: it is a table of its own. */
  lemma {:induction false} QuotedDotsStay(indent: string, q: char, name: string, tail: string, comment: string)
    requires IsQuote(q) && q !in name && '\\' !in name && '.' in name
    requires AllSpace(indent) && AllSpace(tail) && (comment == "" || comment[0] == '#')
    ensures var w := InQuotes(Some(q), name); TableHeader(indent + ("[" + w + "]") + tail + comment) == Some(w)
  {
    var w := InQuotes(Some(q), name);
    var h := "[" + w + "]";
    forall y: string ensures CommentStart(h + y, 0) == CommentStart(h + y, |h|) {
      QuotedHeaderPasses(q, name, y);
    }
    HeaderAlone(indent, h, tail, comment);
    assert h == "[" + "" + w + "" + "]";
    InBrackets(indent + h + tail + comment, "", w, "");
    FirstPartIsQuoted(q, name);
  }

  lemma QuotedHeaderPasses(q: char, name: string, y: string)
    requires IsQuote(q) && q !in name && '\\' !in name
    ensures var h := "[" + InQuotes(Some(q), name) + "]"; CommentStart(h + y, 0) == CommentStart(h + y, |h|)
  {
    var w := InQuotes(Some(q), name);
    var h := "[" + w + "]";
    assert h + y == "" + "[" + (w + "]" + y) == "[" + w + ("]" + y) == ("[" + w) + "]" + y;
    RunPasses("", "[", w + "]" + y);
    QuotedPasses("[", q, name, "]" + y);
    RunPasses("[" + w, "]", y);
  }

  lemma FirstPartIsQuoted(q: char, name: string)
    requires IsQuote(q) && q !in name && '.' in name
    ensures TableName(InQuotes(Some(q), name)) == InQuotes(Some(q), name)
  {
    var w := InQuotes(Some(q), name);
    var eq := IndexOf(w, '.', 0);
    var d :| 0 <= d < |name| && name[d] == '.';
    assert w[d + 1] == '.' && w[0] == q;
    assert 1 <= eq <= d + 1;
    var rest := name[..eq - 1];
    assert w[..eq] == [q] + rest;
    assert Split(w, '.')[0] == [q] + rest;
    OpenQuoteStays(q, rest);
    assert !IsBare(PartNames(Split(w, '.'))[0]);
  }

  lemma OpenQuoteStays(q: char, rest: string)
    requires IsQuote(q) && q !in rest
    ensures !IsBare(PartName([q] + rest))
  {
    var p := [q] + rest;
    var b := WhereItStarts("", [q], rest);
    assert "" + [q] + rest == p;
    var t := Trim(p);
    assert t == [q] + rest[..b];
    assert |t| >= 2 ==> t[|t| - 1] == rest[|t| - 2];
    assert PartName(p) == t && t[0] == q;
  }

  // ---------- keys ----------

  lemma WhereItStarts(a: string, core: string, rest: string) returns (b: nat)
    requires AllSpace(a) && core != "" && !IsSpace(core[0]) && !IsSpace(core[|core| - 1])
    ensures b <= |rest| && Trim(a + core + rest) == core + rest[..b]
  {
    var line, n := a + core + rest, |a + core|;
    var i, j := TrimSpan(line);
    assert line[|a|] == core[0] && line[n - 1] == core[|core| - 1];
    assert Trim(line)[0] == line[i];
    assert forall k :: 0 <= k < |a| ==> line[k] == a[k];
    b := j - n;
    assert line[i..j] == core + rest[..b];
  }

  /** What stands before the first = is the key, without its quotes. */
  lemma {:induction false} KeyIsRead(indent: string, quote: Option<char>, key: string, space: string, rest: string)
    requires AllSpace(indent) && AllSpace(space) && '=' !in key
    requires quote.Some? ==> IsQuote(quote.value)
    requires quote.None? ==> key != "" && IsTrimmed(key) && key[0] != '#' && !IsQuote(key[0])
    ensures KeyOf(indent + InQuotes(quote, key) + space + "=" + rest) == key
  {
    var core := InQuotes(quote, key);
    assert core != "" && IsTrimmed(core) && core[0] != '#' && '=' !in core;
    var line := indent + core + space + "=" + rest;
    var b := WhereItStarts(indent, core + space + "=", rest);
    assert line == indent + (core + space + "=") + rest;
    KeyOfTrimmed(line, quote, key, space, rest[..b]);
  }

  lemma KeyOfTrimmed(line: string, quote: Option<char>, key: string, space: string, rest: string)
    requires AllSpace(space) && '=' !in key && (quote.Some? ==> IsQuote(quote.value))
    requires quote.None? ==> key != "" && IsTrimmed(key) && key[0] != '#' && !IsQuote(key[0])
    requires Trim(line) == InQuotes(quote, key) + space + "=" + rest
    ensures KeyOf(line) == key
  {
    hide Trim;
    var core := InQuotes(quote, key);
    var t, n := Trim(line), |core + space|;
    assert t[n] == '=' && t[..n] == core + space && t[0] == core[0];
    assert '=' !in space && '=' !in core;
    assert forall i :: 0 <= i < n ==> t[i] == (core + space)[i];
    assert IndexOf(t, '=', 0) == n;
    SpaceIsTrimmed("", core, space);
    EmptyPlus(core);
    UnquotedIs(quote, key);
  }

  /** A blank line, a comment and a line without = have no key; a line that starts with anything but a
      bracket, or has none that closes, opens no table. */
  lemma {:induction false} NothingThere(indent: string, c: char, rest: string)
    requires AllSpace(indent) && !IsSpace(c)
    ensures KeyOf(indent) == "" && TableHeader(indent).None?
    ensures var line := indent + [c] + rest;
      && (c == '#' || '=' !in line ==> KeyOf(line) == "")
      && (c != '[' || ']' !in line ==> TableHeader(line).None?)
  {
    var line := indent + [c] + rest;
    var b := WhereItStarts(indent, [c], rest);
    var t := Trim(line);
    assert t[0] == c;
    if '=' !in line { assert '=' !in t; }
    if ']' !in line && c == '[' { OnlyWithBracket(line); }
  }

  lemma OnlyWithBracket(line: string)
    requires ']' !in line
    ensures TableHeader(line).None?
  {
    var t := Trim(line);
    if t != "" && t[0] == '[' {
      var u := Uncommented(t);
      assert forall c :: c in u ==> c in t;
      assert u != "" ==> u[|u| - 1] in u;
    }
  }
}
