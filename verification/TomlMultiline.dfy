/** What opens a value that goes on over several lines, and what closes it: such a value is one entry,
    lies in one body, opens no table, and leaves nothing open behind it. */
module TomlMultiline {
  import opened Text
  import opened TomlSyntax
  import opened TomlTables
  import opened TomlPrint
  import opened TomlValues
  import opened TomlEntries

  /** A character that means nothing between values. */
  predicate IsPlain(c: char) { c !in "\"'[]{}#" }

  predicate AllPlain(s: string) { forall i :: 0 <= i < |s| ==> IsPlain(s[i]) }

  /** What stands on a line outside multi-line strings: text that means nothing, quoted values with
      what comes after them, and brackets and braces. */
  datatype Piece =
    | Words(text: string)
    | Value(s: string, after: char)
    | OpenBracket | CloseBracket | OpenBrace | CloseBrace
  {
    predicate Written() { match this case Words(t) => AllPlain(t) case Value(_, c) => IsPlain(c) case _ => true }

    function Text(): string {
      match this
      case Words(t) => t
      case Value(s, c) => Quoted(s) + [c]
      case OpenBracket => "["
      case CloseBracket => "]"
      case OpenBrace => "{"
      case CloseBrace => "}"
    }

    /** How deep in brackets, and in braces, it leaves what was at this depth. */
    function Deeper(brackets: nat, braces: nat): (nat, nat) {
      match this
      case OpenBracket => (brackets + 1, braces)
      case CloseBracket => (if brackets > 0 then brackets - 1 else 0, braces)
      case OpenBrace => (brackets, braces + 1)
      case CloseBrace => (brackets, if braces > 0 then braces - 1 else 0)
      case _ => (brackets, braces)
    }
  }

  function Render(pieces: seq<Piece>): string {
    if pieces == [] then "" else pieces[0].Text() + Render(pieces[1..])
  }

  function Depth(pieces: seq<Piece>, brackets: nat, braces: nat): (nat, nat) {
    if pieces == [] then (brackets, braces)
    else
      var d := pieces[0].Deeper(brackets, braces);
      Depth(pieces[1..], d.0, d.1)
  }

  predicate AllWritten(pieces: seq<Piece>) { forall i :: 0 <= i < |pieces| ==> pieces[i].Written() }

  /** Open in brackets or braces only, to this depth. */
  predicate IsAt(v: OpenValue, brackets: nat, braces: nat) {
    !v.basic && !v.literal && v.brackets == brackets && v.braces == braces
  }

  // ---------- what a line leaves open ----------

  lemma {:induction false} PlainAdvances(v: OpenValue, line: string, i: nat, j: nat)
    requires !v.basic && !v.literal && i <= j <= |line| && forall k :: i <= k < j ==> IsPlain(line[k])
    ensures Advance(v, line, i) == Advance(v, line, j)
    decreases j - i
  {
    if i < j {
      FenceStartsWithQuote(line, i);
      PlainAdvances(v, line, i + 1, j);
    }
  }

  /** A string that is not empty, or has no quote behind it, does not start a fence. */
  lemma QuoteStep(v: OpenValue, line: string, i: nat, k: nat)
    requires !v.basic && !v.literal && i + 2 < |line| && line[i] == '"' && !(line[i + 1] == '"' && line[i + 2] == '"')
    requires ScanQuoted(line, line[i], i + 1) == k
    ensures Advance(v, line, i) == Advance(v, line, k)
  {
    hide ScanQuoted;
    FenceStartsWithQuote(line, i);
    if At(line, i, BASIC_FENCE) { FenceIsThree(line, i); }
  }

  lemma FenceIsThree(line: string, i: nat)
    requires At(line, i, BASIC_FENCE)
    ensures i + 2 < |line| && line[i + 1] == '"' && line[i + 2] == '"'
  {
    assert line[i..i + 3][1] == '"' && line[i..i + 3][2] == '"';
  }

  lemma QuotedStarts(s: string)
    ensures var x := Quoted(s); |x| >= 2 && x[0] == '"' && (x[1] == '"' ==> |x| == 2)
  {
    EscapedStart(s);
  }

  lemma CharsOf(before: string, x: string, after: string, line: string, i: nat)
    requires |x| >= 2 && after != "" && line == before + x + after && i == |before|
    ensures i + |x| < |line| && line[i + 1] == x[1] && line[i + |x|] == after[0]
  {
  }

  lemma ValueAdvancesAt(v: OpenValue, before: string, s: string, after: string, line: string, i: nat)
    requires !v.basic && !v.literal && after != "" && after[0] != '"'
    requires line == before + Quoted(s) + after && i == |before|
    ensures Advance(v, line, i) == Advance(v, line, i + |Quoted(s)|)
  {
    hide Advance, ScanQuoted, Quoted, At;
    QuotedIsSteppedOverWhole(before, s, after);
    QuotedStarts(s);
    CharsOf(before, Quoted(s), after, line, i);
    assert !(line[i + 1] == '"' && line[i + 2] == '"');
    QuoteStep(v, line, i, i + |Quoted(s)|);
  }

  lemma ValueAdvances(v: OpenValue, before: string, s: string, after: string)
    requires !v.basic && !v.literal && after != "" && after[0] != '"'
    ensures var line := before + Quoted(s) + after;
      Advance(v, line, |before|) == Advance(v, line, |before| + |Quoted(s)|)
  {
    hide Advance, ScanQuoted, Quoted, At;
    ValueAdvancesAt(v, before, s, after, before + Quoted(s) + after, |before|);
  }

  lemma BracketAdvances(v: OpenValue, line: string, i: nat)
    requires !v.basic && !v.literal && i < |line| && line[i] in "[]{}"
    ensures Advance(v, line, i) == Advance(CountBracket(v, line[i]), line, i + 1)
  {
    FenceStartsWithQuote(line, i);
  }

  lemma PieceAdvances(v: OpenValue, before: string, p: Piece, after: string, brackets: nat, braces: nat)
      returns (w: OpenValue)
    requires IsAt(v, brackets, braces) && p.Written()
    ensures var d := p.Deeper(brackets, braces); IsAt(w, d.0, d.1)
    ensures w.inlineTable == (v.inlineTable || p.OpenBrace?)
    ensures var line := before + p.Text() + after;
      Advance(v, line, |before|) == Advance(w, line, |before| + |p.Text()|)
  {
    hide Advance, Escaped, CountBracket;
    var line := before + p.Text() + after;
    var i := |before|;
    w := v;
    match p
    case Words(t) =>
      assert forall k :: i <= k < i + |t| ==> line[k] == t[k - i];
      PlainAdvances(v, line, i, i + |t|);
    case Value(s, c) =>
      Regrouped(before, Quoted(s), c, after);
      ValueAdvances(v, before, s, [c] + after);
      var j := i + |Quoted(s)|;
      assert line[j] == c;
      PlainAdvances(v, line, j, j + 1);
    case _ =>
      assert line[i] == p.Text()[0];
      BracketAdvances(v, line, i);
      w := CountBracket(v, line[i]);
      BracketCounts(v, p, brackets, braces);
  }

  lemma BracketCounts(v: OpenValue, p: Piece, brackets: nat, braces: nat)
    requires IsAt(v, brackets, braces) && !p.Words? && !p.Value?
    ensures var d := p.Deeper(brackets, braces); IsAt(CountBracket(v, p.Text()[0]), d.0, d.1)
    ensures CountBracket(v, p.Text()[0]).inlineTable == (v.inlineTable || p.OpenBrace?)
  {
  }

  lemma Regrouped(before: string, x: string, c: char, after: string)
    ensures before + (x + [c]) + after == before + x + ([c] + after)
  {
  }

  /** Pieces leave open just the brackets and braces they leave open, and a brace among them is noted. */
  lemma {:induction false} PiecesAdvance(v: OpenValue, before: string, pieces: seq<Piece>, after: string,
                                         brackets: nat, braces: nat)
      returns (w: OpenValue)
    requires IsAt(v, brackets, braces) && AllWritten(pieces)
    ensures var d := Depth(pieces, brackets, braces); IsAt(w, d.0, d.1)
    ensures w.inlineTable == (v.inlineTable || OpenBrace in pieces)
    ensures var line := before + Render(pieces) + after;
      Advance(v, line, |before|) == Advance(w, line, |before| + |Render(pieces)|)
    decreases |pieces|
  {
    hide Advance;
    if pieces == [] {
      w := v;
    } else {
      var p, rest := pieces[0], pieces[1..];
      var d := p.Deeper(brackets, braces);
      Joined(before, p.Text(), Render(rest), after);
      var u := PieceAdvances(v, before, p, Render(rest) + after, brackets, braces);
      w := PiecesAdvance(u, before + p.Text(), rest, after, d.0, d.1);
    }
  }

  lemma Joined(a: string, b: string, c: string, d: string)
    ensures a + b + (c + d) == a + (b + c) + d && a + b + c + d == a + (b + c) + d && |a + b| == |a| + |b|
  {
  }

  /** A line of pieces, with a comment or without: a comment brings nothing, whatever is in it. */
  lemma LineOfPieces(v: OpenValue, pieces: seq<Piece>, comment: string, brackets: nat, braces: nat)
    requires IsAt(v, brackets, braces) && AllWritten(pieces) && (comment == "" || comment[0] == '#')
    ensures var d := Depth(pieces, brackets, braces);
      var w := Advance(v, Render(pieces) + comment, 0);
      IsAt(w, d.0, d.1) && w.inlineTable == (v.inlineTable || OpenBrace in pieces)
  {
    hide Advance;
    var w := PiecesAdvance(v, "", pieces, comment, brackets, braces);
    EmptyPlus(Render(pieces));
    var line := Render(pieces) + comment;
    if comment != "" {
      assert line[|Render(pieces)|] == '#';
      CommentStep(w, line, |Render(pieces)|);
    } else {
      RightUnit(Render(pieces));
      AtTheEnd(w, line);
    }
  }

  lemma CommentStep(w: OpenValue, line: string, i: nat)
    requires !w.basic && !w.literal && i < |line| && line[i] == '#'
    ensures Advance(w, line, i) == w
  {
    FenceStartsWithQuote(line, i);
  }

  // ---------- fences ----------

  function Fence(basic: bool): (f: string)
    ensures f == if basic then BASIC_FENCE else LITERAL_FENCE
  {
    if basic then "\"\"\"" else "'''"
  }

  /** What a multi-line string's text is made of; in a basic one a backslash takes the character
      behind it along, or hangs at the end of its line. */
  datatype Unit = Char(c: char) | Escape(c: char) | Hanging {
    function Text(): string { match this case Char(c) => [c] case Escape(c) => ['\\', c] case Hanging => "\\" }
  }

  function Spell(units: seq<Unit>): string {
    if units == [] then "" else units[0].Text() + Spell(units[1..])
  }

  /** Before `after` no fence starts at a character that is not escaped. */
  predicate Fits(units: seq<Unit>, basic: bool, after: string) {
    units != [] ==>
      && (match units[0]
          case Char(c) => !(basic && c == '\\') && !At(Spell(units) + after, 0, Fence(basic))
          case Escape(_) => basic
          case Hanging => basic && |units| == 1 && after == "")
      && Fits(units[1..], basic, after)
  }

  /** A line inside: no fence in it that counts. */
  ghost predicate IsInside(t: string, basic: bool) { exists u: seq<Unit> :: Fits(u, basic, "") && Spell(u) == t }

  /** The text on the last line: the first fence that counts is the one behind it. */
  ghost predicate IsEnd(t: string, basic: bool) {
    exists u: seq<Unit> :: Fits(u, basic, Fence(basic)) && Spell(u) == t
  }

  /** Open in a multi-line string. */
  predicate InString(v: OpenValue, basic: bool) { v.basic == basic && v.literal == !basic }

  lemma {:induction false} UnitsAreScanned(p: string, u: seq<Unit>, after: string, more: string, basic: bool)
    requires Fits(u, basic, after) && (after == Fence(basic) || (after == "" && more == ""))
    ensures var line := p + Spell(u) + after + more;
      ScanMultiline(basic, line, |p|) ==
      if after == "" then (|line|, false) else (|p| + |Spell(u)| + 3, true)
    decreases |u|
  {
    hide ScanMultiline, At;
    var line := p + Spell(u) + after + more;
    if u == [] {
      if after != "" { FenceEnds(p, more, basic); }
      RightUnit(p);
      EndOfText(basic, line);
    } else {
      var x := u[0].Text();
      assert p + x + Spell(u[1..]) + after + more == line;
      assert |p + x| == |p| + |x|;
      UnitsAreScanned(p + x, u[1..], after, more, basic);
      StartsWith(p, Spell(u), after, more);
      UnitStep(u, after, line, |p|, basic);
    }
  }

  lemma FenceEnds(p: string, more: string, basic: bool)
    ensures ScanMultiline(basic, p + Fence(basic) + more, |p|) == (|p| + 3, true)
  {
    var line := p + Fence(basic) + more;
    assert line[|p|..|p| + 3] == Fence(basic) && line[|p|] == Fence(basic)[0];
  }

  lemma EndOfText(basic: bool, line: string)
    ensures ScanMultiline(basic, line, |line|) == (|line|, false)
  {
  }

  lemma StartsWith(p: string, x: string, after: string, more: string)
    ensures var line := p + x + after + more; At(line, |p|, x + after) && (more == "" ==> |line| == |p| + |x + after|)
  {
  }

  lemma UnitStep(u: seq<Unit>, after: string, line: string, k: nat, basic: bool)
    requires u != [] && Fits(u, basic, after) && At(line, k, Spell(u) + after)
    requires after == Fence(basic) || (after == "" && |line| == k + |Spell(u)|)
    ensures ScanMultiline(basic, line, k) == ScanMultiline(basic, line, k + |u[0].Text()|)
  {
    var here := Spell(u) + after;
    assert line[k] == line[k..k + |here|][0];
    match u[0]
    case Char(c) =>
      assert here[0] == c;
      if At(line, k, Fence(basic)) { FenceIsHere(here, line, k, basic, after); }
    case Escape(c) =>
      assert here[0] == '\\';
    case Hanging =>
      assert u[1..] == [] && here == "\\";
  }

  lemma FenceIsHere(here: string, line: string, k: nat, basic: bool, after: string)
    requires At(line, k, here) && At(line, k, Fence(basic))
    requires |here| > |after| && (after == Fence(basic) || (after == "" && |line| == k + |here|))
    ensures At(here, 0, Fence(basic))
  {
    assert line[k..k + 3] == here[0..3];
  }

  lemma InsideStaysOpen(p: string, t: string, basic: bool)
    requires IsInside(t, basic)
    ensures ScanMultiline(basic, p + t, |p|) == (|p + t|, false)
  {
    var u :| Fits(u, basic, "") && Spell(u) == t;
    UnitsAreScanned(p, u, "", "", basic);
    RightUnit(p + t);
  }

  lemma EndCloses(t: string, after: string, basic: bool)
    requires IsEnd(t, basic)
    ensures ScanMultiline(basic, t + Fence(basic) + after, 0) == (|t| + 3, true)
  {
    var u :| Fits(u, basic, Fence(basic)) && Spell(u) == t;
    UnitsAreScanned("", u, Fence(basic), after, basic);
    EmptyPlus(t);
  }

  /** A fence behind pieces opens a string; what follows it on the line is inside. */
  lemma FenceOpens(v: OpenValue, pieces: seq<Piece>, basic: bool, t: string, brackets: nat, braces: nat)
    requires IsAt(v, brackets, braces) && AllWritten(pieces) && IsInside(t, basic)
    ensures var d := Depth(pieces, brackets, braces);
      var w := Advance(v, Render(pieces) + Fence(basic) + t, 0);
      InString(w, basic) && w.brackets == d.0 && w.braces == d.1
  {
    hide Advance, ScanMultiline, At, IsInside;
    var p := Render(pieces);
    var line := p + Fence(basic) + t;
    var w := PiecesAdvance(v, "", pieces, Fence(basic) + t, brackets, braces);
    EmptyPlus(p);
    EmptyPlus(p + (Fence(basic) + t));
    Assoc(p, Fence(basic), t);
    FenceStep(w, p, basic, t);
    var o := if basic then w.(basic := true) else w.(literal := true);
    InsideStaysOpen(p + Fence(basic), t, basic);
    RestIsInside(o, line, |p| + 3, basic);
  }

  lemma FenceStep(w: OpenValue, p: string, basic: bool, t: string)
    requires !w.basic && !w.literal
    ensures var line := p + Fence(basic) + t;
      Advance(w, line, |p|) == Advance(if basic then w.(basic := true) else w.(literal := true), line, |p| + 3)
  {
    var line := p + Fence(basic) + t;
    assert line[|p|..|p| + 3] == Fence(basic);
    assert line[|p|] == Fence(basic)[0];
    FenceStartsWithQuote(line, |p|);
  }

  lemma RestIsInside(o: OpenValue, line: string, i: nat, basic: bool)
    requires InString(o, basic) && i <= |line| && ScanMultiline(basic, line, i) == (|line|, false)
    ensures Advance(o, line, i) == o
  {
  }

  lemma InsideGoesOn(v: OpenValue, t: string, basic: bool)
    requires InString(v, basic) && IsInside(t, basic)
    ensures Advance(v, t, 0) == v
  {
    InsideStaysOpen("", t, basic);
    EmptyPlus(t);
  }

  /** The fence closes it, and pieces behind it count as ever. */
  lemma FenceCloses(v: OpenValue, t: string, basic: bool, pieces: seq<Piece>)
    requires InString(v, basic) && IsEnd(t, basic) && AllWritten(pieces)
    ensures var d := Depth(pieces, v.brackets, v.braces); IsAt(Advance(v, t + Fence(basic) + Render(pieces), 0), d.0, d.1)
  {
    hide Advance, At, IsEnd, ScanMultiline;
    var p := Render(pieces);
    var line := t + Fence(basic) + p;
    EndCloses(t, p, basic);
    CloseStep(v, line, |t| + 3, basic);
    var w := PiecesAdvance(CloseString(v), t + Fence(basic), pieces, "", v.brackets, v.braces);
    RightUnit(line);
    AtTheEnd(w, line);
  }

  lemma CloseStep(v: OpenValue, line: string, k: nat, basic: bool)
    requires InString(v, basic) && line != "" && ScanMultiline(basic, line, 0) == (k, true)
    ensures Advance(v, line, 0) == Advance(CloseString(v), line, k)
  {
  }

  lemma AtTheEnd(w: OpenValue, line: string)
    ensures Advance(w, line, |line|) == w
  {
  }

  // ---------- one entry ----------

  /** The lines go on with what is open, and the last one closes it. */
  predicate Closes(lines: seq<string>, open: OpenValue) {
    lines != [] && open.Open() &&
    var next := Advance(open, lines[0], 0);
    if |lines| == 1 then !next.Open() else Closes(lines[1..], next)
  }

  lemma {:induction false} ClosesIsContinued(lines: seq<string>, rest: seq<string>, open: OpenValue)
    requires Closes(lines, open)
    ensures Continued(lines + rest, open) == |lines| && Plain(lines, open) && !After(lines, open).Open()
  {
    ConsConcat(lines, rest);
    var next := Advance(open, lines[0], 0);
    if |lines| == 1 {
      assert lines[1..] == [];
      EmptyPlus(rest);
    } else {
      ClosesIsContinued(lines[1..], rest, next);
    }
  }

  function KeyLine(key: string, value: string): string { key + " = " + value }

  lemma SpaceEnds(line: string, b: nat, k: nat)
    requires b <= |line| && AllSpace(line[b..]) && k < |line| && !IsSpace(line[k])
    ensures k < b
  {
    forall j | b <= j < |line| ensures IsSpace(line[j]) {
      assert line[b..][j - b] == line[j];
    }
  }

  lemma KeyLineHasItsKey(key: string, value: string)
    requires IsBare(key)
    ensures KeyOf(KeyLine(key, value)) == key && TableHeader(KeyLine(key, value)).None?
  {
    var line := KeyLine(key, value);
    assert line[0] == key[0] && IsBareChar(line[0]) && line[|key| + 1] == '=';
    var a, b := TrimParts(line);
    SpaceEnds(line, b, |key| + 1);
    var t := Trim(line);
    assert t == line[..b] && t[|key| + 1] == '=';
    var eq := IndexOf(t, '=', 0);
    assert forall j :: 0 <= j < |key| ==> t[j] == key[j] && IsBareChar(key[j]);
    assert t[|key|] == ' ';
    assert eq == |key| + 1;
    assert t[..eq] == key + " ";
    TrimsToKey(key);
  }

  lemma TrimsToKey(key: string)
    requires IsBare(key)
    ensures Trim(key + " ") == key && UnquotedKey(key) == key
  {
    var k := key + " ";
    assert k[..|k| - 1] == key && k[0] == key[0] && IsBareChar(key[0]) && IsBareChar(key[|key| - 1]);
  }

  /** Such lines, wherever they stand with nothing open: one entry, in one body, no table opened,
      nothing left open; and the filter keeps all of it or nothing. */
  lemma OneEntry(key: string, first: string, more: seq<string>, rest: seq<string>, cur: Section, known: set<string>)
    requires IsBare(key) && Closes(more, Advance(CLOSED, KeyLine(key, first), 0))
    ensures var lines := [KeyLine(key, first)] + more;
      && Entries(lines + rest) == [Entry(key, lines)] + Entries(rest)
      && !After(lines, CLOSED).Open()
      && Sections(lines + rest, cur, CLOSED) == Sections(rest, cur.(lines := cur.lines + lines), After(lines, CLOSED))
      && Kept(lines + rest, known, false, CLOSED) == (if key in known then [] else lines) + Kept(rest, known, false, CLOSED)
  {
    var line := KeyLine(key, first);
    var lines := [line] + more;
    var open := Advance(CLOSED, line, 0);
    KeyLineHasItsKey(key, first);
    ClosesIsContinued(more, rest, open);
    assert lines[1..] == more && (lines + rest)[1..] == more + rest && (lines + rest)[0] == line;
    assert (lines + rest)[..|lines|] == lines && (lines + rest)[|lines|..] == rest;
    assert Plain(lines, CLOSED) && After(lines, CLOSED) == After(more, open);
    PlainRun(lines, rest, cur, CLOSED);
    FilterKeepsWholeEntries(lines + rest, known);
    FilterKeepsWholeEntries(rest, known);
    assert ([Entry(key, lines)] + Entries(rest))[1..] == Entries(rest);
  }

  // ---------- the three forms ----------

  /** A string between fences, over any number of lines. */
  lemma StringOverLines(key: string, basic: bool, first: string, mid: seq<string>, last: string, rest: seq<string>,
                        cur: Section, known: set<string>)
    requires IsBare(key) && IsInside(first, basic) && IsEnd(last, basic) && forall l :: l in mid ==> IsInside(l, basic)
    ensures var lines := [KeyLine(key, Fence(basic) + first)] + (mid + [last + Fence(basic)]);
      && Entries(lines + rest) == [Entry(key, lines)] + Entries(rest)
      && !After(lines, CLOSED).Open()
      && Sections(lines + rest, cur, CLOSED) == Sections(rest, cur.(lines := cur.lines + lines), After(lines, CLOSED))
      && Kept(lines + rest, known, false, CLOSED) == (if key in known then [] else lines) + Kept(rest, known, false, CLOSED)
  {
    var line := KeyLine(key, Fence(basic) + first);
    KeyIsPlain(key);
    FenceOpens(CLOSED, [Words(key + " = ")], basic, first, 0, 0);
    assert Render([Words(key + " = ")]) == key + " = " by { assert [Words(key + " = ")][1..] == []; RightUnit(key + " = "); }
    Assoc(key + " = ", Fence(basic), first);
    StringCloses(mid, last, Advance(CLOSED, line, 0), basic);
    OneEntry(key, Fence(basic) + first, mid + [last + Fence(basic)], rest, cur, known);
  }

  lemma KeyIsPlain(key: string)
    requires IsBare(key)
    ensures AllWritten([Words(key + " = ")])
  {
  }

  lemma {:induction false} StringCloses(mid: seq<string>, last: string, open: OpenValue, basic: bool)
    requires InString(open, basic) && open.brackets == 0 && open.braces == 0
    requires IsEnd(last, basic) && forall l :: l in mid ==> IsInside(l, basic)
    ensures Closes(mid + [last + Fence(basic)], open)
  {
    var end := last + Fence(basic);
    if mid == [] {
      EmptyPlus([end]);
      FenceCloses(open, last, basic, []);
      RightUnit(end);
    } else {
      ConsConcat(mid, [end]);
      InsideGoesOn(open, mid[0], basic);
      StringCloses(mid[1..], last, open, basic);
    }
  }

  /** How deep the lines leave what was at this depth, each line's pieces in turn. */
  predicate ClosesAtTheEnd(lines: seq<seq<Piece>>, brackets: nat, braces: nat) {
    lines != [] && (brackets > 0 || braces > 0) &&
    var d := Depth(lines[0], brackets, braces);
    if |lines| == 1 then d == (0, 0) else ClosesAtTheEnd(lines[1..], d.0, d.1)
  }

  function RenderAll(lines: seq<seq<Piece>>): (r: seq<string>)
    ensures |r| == |lines| && forall i :: 0 <= i < |r| ==> r[i] == Render(lines[i])
  {
    if lines == [] then [] else [Render(lines[0])] + RenderAll(lines[1..])
  }

  lemma {:induction false} PiecesClose(lines: seq<seq<Piece>>, open: OpenValue, brackets: nat, braces: nat)
    requires IsAt(open, brackets, braces) && ClosesAtTheEnd(lines, brackets, braces)
    requires forall i :: 0 <= i < |lines| ==> AllWritten(lines[i])
    ensures Closes(RenderAll(lines), open)
  {
    LineOfPieces(open, lines[0], "", brackets, braces);
    RightUnit(Render(lines[0]));
    var d := Depth(lines[0], brackets, braces);
    assert RenderAll(lines)[1..] == RenderAll(lines[1..]);
    if |lines| > 1 { PiecesClose(lines[1..], Advance(open, Render(lines[0]), 0), d.0, d.1); }
  }

  /** A value in brackets or braces, nested as it may be, over several lines until the last closes. */
  lemma BracketsOverLines(key: string, first: seq<Piece>, more: seq<seq<Piece>>, rest: seq<string>, cur: Section,
                          known: set<string>)
    requires IsBare(key) && AllWritten(first) && forall i :: 0 <= i < |more| ==> AllWritten(more[i])
    requires var d := Depth(first, 0, 0); ClosesAtTheEnd(more, d.0, d.1)
    ensures var lines := [KeyLine(key, Render(first))] + RenderAll(more);
      && Entries(lines + rest) == [Entry(key, lines)] + Entries(rest)
      && !After(lines, CLOSED).Open()
      && Sections(lines + rest, cur, CLOSED) == Sections(rest, cur.(lines := cur.lines + lines), After(lines, CLOSED))
      && Kept(lines + rest, known, false, CLOSED) == (if key in known then [] else lines) + Kept(rest, known, false, CLOSED)
  {
    var d := Depth(first, 0, 0);
    var line := KeyLine(key, Render(first));
    var pieces := [Words(key + " = ")] + first;
    KeyIsPlain(key);
    assert pieces[0] == Words(key + " = ") && pieces[1..] == first;
    assert forall i :: 1 <= i < |pieces| ==> pieces[i] == first[i - 1];
    LineOfPieces(CLOSED, pieces, "", 0, 0);
    RightUnit(Render(pieces));
    PiecesClose(more, Advance(CLOSED, line, 0), d.0, d.1);
    OneEntry(key, Render(first), RenderAll(more), rest, cur, known);
  }
}
