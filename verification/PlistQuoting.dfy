/** The launch agent that starts the program at login on macOS, and the parser that reads its
    path back. */
module PlistQuoting {
  import opened Text
  import opened LauncherQuoting

  // ---------- escaping ----------

  function XmlEscapedChar(c: char): string {
    if c == '&' then "&amp;" else if c == '<' then "&lt;" else if c == '>' then "&gt;" else [c]
  }

  function XmlEscaped(s: string): string {
    if s == "" then "" else XmlEscapedChar(s[0]) + XmlEscaped(s[1..])
  }

  /** Each of the three entities where it stands, read once from the left. */
  function XmlUnescaped(s: string): string
    decreases |s|
  {
    if s == "" then ""
    else if At(s, 0, "&lt;") then "<" + XmlUnescaped(s[4..])
    else if At(s, 0, "&gt;") then ">" + XmlUnescaped(s[4..])
    else if At(s, 0, "&amp;") then "&" + XmlUnescaped(s[5..])
    else [s[0]] + XmlUnescaped(s[1..])
  }

  method PlistEscaped(s: string) returns (out: string)
    ensures out == XmlEscaped(s)
  {
    out := s;
    out := ReplaceAll(out, "&", "&amp;");
    out := ReplaceAll(out, "<", "&lt;");
    out := ReplaceAll(out, ">", "&gt;");
    ThreeReplacements(s);
  }

  lemma {:induction false} ThreeReplacements(s: string)
    ensures ReplaceAll(ReplaceAll(ReplaceAll(s, "&", "&amp;"), "<", "&lt;"), ">", "&gt;") == XmlEscaped(s)
  {
    if s != "" {
      var x, rest := [s[0]], s[1..];
      Cons(s);
      var a := ReplaceAll(rest, "&", "&amp;");
      var b := ReplaceAll(a, "<", "&lt;");
      ReplacePart(x, rest, '&', "&amp;");
      ReplacePart(ReplaceAll(x, "&", "&amp;"), a, '<', "&lt;");
      ReplacePart(ReplaceAll(ReplaceAll(x, "&", "&amp;"), "<", "&lt;"), b, '>', "&gt;");
      ThreeReplacements(rest);
      OneEntity(s[0]);
    }
  }

  lemma OneEntity(x: char)
    ensures ReplaceAll(ReplaceAll(ReplaceAll([x], "&", "&amp;"), "<", "&lt;"), ">", "&gt;") == XmlEscapedChar(x)
  {
    ReplaceOne(x, '&', "&amp;");
    ReplaceOne(x, '<', "&lt;");
    ReplaceOne(x, '>', "&gt;");
    NothingToReplace("&amp;", '<', "&lt;");
    NothingToReplace("&amp;", '>', "&gt;");
    NothingToReplace("&lt;", '>', "&gt;");
  }

  lemma {:induction false} NothingToReplace(s: string, c: char, with: string)
    requires c !in s
    ensures ReplaceAll(s, [c], with) == s
  {
    if s != "" {
      NothingToReplace(s[1..], c, with);
      assert s[0..1] == [s[0]];
      Cons(s);
    }
  }

  /** The three replacements of the reader, in its order. */
  function Undo(s: string): string {
    ReplaceAll(ReplaceAll(ReplaceAll(s, "&lt;", "<"), "&gt;", ">"), "&amp;", "&")
  }

  lemma FirstReplaced(s: string, pat: string, w: char)
    requires pat != ""
    ensures At(s, 0, pat) ==> ReplaceAll(s, pat, [w]) != "" && ReplaceAll(s, pat, [w])[0] == w
  {
  }

  /** A replacement brings nothing that starts with other characters than it writes. */
  lemma {:induction false} NothingBrought(s: string, pat: string, w: char, p: string)
    requires pat != "" && w !in p && At(ReplaceAll(s, pat, [w]), 0, p)
    ensures At(s, 0, p)
    decreases |p|
  {
    var r := ReplaceAll(s, pat, [w]);
    if p != "" {
      assert r[0] == r[0..|p|][0] == p[0];
      FirstReplaced(s, pat, w);
      if !At(s, 0, pat) {
        var tail := ReplaceAll(s[1..], pat, [w]);
        assert r[1..] == tail;
        assert tail[0..|p| - 1] == r[0..|p|][1..];
        NothingBrought(s[1..], pat, w, p[1..]);
        Cons(p);
        assert s[0..|p|] == [s[0]] + s[1..][0..|p| - 1];
      }
    }
  }

  /** Text in which the pattern starts nowhere is left, and what follows is replaced alone. */
  lemma {:induction false} Skipped(chunk: string, rest: string, pat: string, with: string)
    requires pat != "" && pat[0] == '&' && !At(chunk + rest, 0, pat)
    requires chunk != "" && forall k :: 1 <= k < |chunk| ==> chunk[k] != '&'
    ensures ReplaceAll(chunk + rest, pat, with) == chunk + ReplaceAll(rest, pat, with)
  {
    var s := chunk + rest;
    ConsConcat(chunk, rest);
    Cons(chunk);
    var front := [chunk[0]];
    if |chunk| == 1 {
      assert chunk[1..] + rest == rest;
    } else {
      if |chunk[1..] + rest| >= |pat| {
        assert (chunk[1..] + rest)[0..|pat|][0] == chunk[1];
      }
      Skipped(chunk[1..], rest, pat, with);
      Assoc(front, chunk[1..], ReplaceAll(rest, pat, with));
    }
  }

  /** The three replacements in their order are the one reading from the left. */
  lemma {:induction false} UndoIsUnescaped(s: string)
    ensures Undo(s) == XmlUnescaped(s)
    decreases |s|
  {
    if s == "" {
    } else if At(s, 0, "&lt;") {
      UndoIsUnescaped(s[4..]);
      UndoOfEntity("&lt;", s[4..]);
      assert s == "&lt;" + s[4..];
    } else if At(s, 0, "&gt;") {
      UndoIsUnescaped(s[4..]);
      UndoOfEntity("&gt;", s[4..]);
      assert s == "&gt;" + s[4..];
    } else if At(s, 0, "&amp;") {
      UndoIsUnescaped(s[5..]);
      UndoOfEntity("&amp;", s[5..]);
      assert s == "&amp;" + s[5..];
    } else {
      UndoIsUnescaped(s[1..]);
      UndoOfOther(s);
    }
  }

  lemma UndoOfEntity(e: string, rest: string)
    requires e == "&lt;" || e == "&gt;" || e == "&amp;"
    ensures Undo(e + rest) == (if e == "&lt;" then "<" else if e == "&gt;" then ">" else "&") + Undo(rest)
  {
    var a := ReplaceAll(rest, "&lt;", "<");
    var b := ReplaceAll(a, "&gt;", ">");
    EntityStep(e, rest, "&lt;", "<");
    if e == "&lt;" {
      Skipped("<", a, "&gt;", ">");
      Skipped("<", b, "&amp;", "&");
    } else {
      EntityStep(e, a, "&gt;", ">");
      if e == "&gt;" {
        Skipped(">", b, "&amp;", "&");
      } else {
        EntityStep(e, b, "&amp;", "&");
      }
    }
  }

  lemma EntityStep(e: string, rest: string, pat: string, with: string)
    requires e == "&lt;" || e == "&gt;" || e == "&amp;"
    requires pat == "&lt;" || pat == "&gt;" || pat == "&amp;"
    ensures ReplaceAll(e + rest, pat, with) == (if e == pat then with else e) + ReplaceAll(rest, pat, with)
  {
    var s := e + rest;
    assert s[0..|e|] == e && s[|e|..] == rest;
    if e != pat {
      if |pat| <= |s| { assert s[0..|pat|][1] == s[1] == e[1]; }
      Skipped(e, rest, pat, with);
    }
  }

  lemma UndoOfOther(s: string)
    requires s != "" && !At(s, 0, "&lt;") && !At(s, 0, "&gt;") && !At(s, 0, "&amp;")
    ensures Undo(s) == [s[0]] + Undo(s[1..])
  {
    var a := ReplaceAll(s[1..], "&lt;", "<");
    var b := ReplaceAll(a, "&gt;", ">");
    var x := [s[0]];
    assert ReplaceAll(s, "&lt;", "<") == x + a;
    if At(x + a, 0, "&gt;") { NothingBrought(s, "&lt;", '<', "&gt;"); }
    Skipped(x, a, "&gt;", ">");
    if At(x + b, 0, "&amp;") {
      NothingBrought(x + a, "&gt;", '>', "&amp;");
      NothingBrought(s, "&lt;", '<', "&amp;");
    }
    Skipped(x, b, "&amp;", "&");
  }

  lemma {:induction false} UnescapeUndoesEscape(s: string)
    ensures XmlUnescaped(XmlEscaped(s)) == s
  {
    if s != "" {
      UnescapeUndoesEscape(s[1..]);
      UnescapeOne(s[0], XmlEscaped(s[1..]));
      Cons(s);
    }
  }

  lemma UnescapeOne(x: char, rest: string)
    ensures XmlUnescaped(XmlEscapedChar(x) + rest) == [x] + XmlUnescaped(rest)
  {
    var e := XmlEscapedChar(x);
    var s := e + rest;
    assert s[0..|e|] == e && s[|e|..] == rest;
    assert |s| >= 4 ==> s[0..4][0] == s[0] && s[0..4][1] == s[1];
    assert |s| >= 5 ==> s[0..5][0] == s[0];
  }

  lemma {:induction false} EscapedHasNoTag(s: string)
    ensures '<' !in XmlEscaped(s)
  {
    if s != "" { EscapedHasNoTag(s[1..]); }
  }

  // ---------- reading the plist ----------

  /** Where `pat` first is in `s` at or after `from`. */
  function Find(s: string, pat: string, from: nat): (r: Option<nat>)
    ensures match r
      case None => forall q :: from <= q <= |s| ==> !At(s, q, pat)
      case Some(k) => from <= k <= |s| && At(s, k, pat) && forall q :: from <= q < k ==> !At(s, q, pat)
    decreases if from <= |s| then |s| - from + 1 else 0
  {
    if from > |s| then None else if At(s, from, pat) then Some(from) else Find(s, pat, from + 1)
  }

  const ARRAY: string := "<array>"
  const OPEN: string := "<string>"
  const CLOSE: string := "</string>"

  function ProgramFromPlist(xml: string): string {
    match Find(xml, ARRAY, 0)
    case None => ""
    case Some(start) =>
      match Find(xml, OPEN, start)
      case None => ""
      case Some(open) =>
        var from := open + |OPEN|;
        match Find(xml, CLOSE, from)
        case None => ""
        case Some(close) => Undo(xml[from..close])
  }

  const XML: string := "?xml version=\"1.0\" encoding=\"UTF-8\"?>\n"
  const DOCTYPE: string := "!DOCTYPE plist PUBLIC " + "\"-//Apple//DTD PLIST 1.0//EN\" "
    + "\"http://www.apple.com/" + "DTDs/PropertyList-1.0.dtd\">\n"

  /** What the plist says before the program's arguments, each text behind the `<` of its tag. */
  const PLIST_HEAD: seq<string> := [
    XML, DOCTYPE, "plist version=\"1.0\">", "dict>\n  ", "key>Label", "/key>", "string>com.freetunnel.app",
    "/string>\n  ", "key>ProgramArguments", "/key>"]
  const PLIST_END: string := "</array>\n  <key>RunAtLoad</key><true/>\n</dict></plist>\n"

  function Tags(parts: seq<string>): string {
    if parts == [] then "" else "<" + parts[0] + Tags(parts[1..])
  }

  function Plist(path: string): string {
    Tags(PLIST_HEAD) + (ARRAY + OPEN + XmlEscaped(path) + (CLOSE + PLIST_END))
  }

  /** A tag that is not the array's, and text without another tag. */
  predicate IsOther(text: string) { text != "" && text[0] != 'a' && '<' !in text }

  lemma XmlIsOther()
    ensures IsOther(XML)
  {
  }

  lemma DoctypeIsOther()
    ensures IsOther(DOCTYPE)
  {
  }

  lemma ShortTextsAreOther(t: string)
    requires t in PLIST_HEAD && t != XML && t != DOCTYPE
    ensures IsOther(t)
  {
    hide XML, DOCTYPE;
  }

  lemma HeadHasNoArray()
    ensures forall p :: p in PLIST_HEAD ==> IsOther(p)
  {
    hide IsOther, XML, DOCTYPE, PLIST_HEAD;
    XmlIsOther();
    DoctypeIsOther();
    forall p | p in PLIST_HEAD ensures IsOther(p) {
      if p != XML && p != DOCTYPE { ShortTextsAreOther(p); }
    }
  }

  lemma StartsWith(s: string, q: nat, pat: string)
    requires |pat| > 1 && At(s, q, pat)
    ensures s[q] == pat[0] && s[q + 1] == pat[1]
  {
  }

  /** No array tag starts in a tag that is another's. */
  lemma NotInTag(text: string, rest: string, q: nat)
    requires IsOther(text) && q <= |text|
    ensures !At("<" + text + rest, q, ARRAY)
  {
    hide At;
    var s := "<" + text + rest;
    assert s[0] == '<' && s[1] == text[0] && (q > 0 ==> s[q] == text[q - 1]);
    if At(s, q, ARRAY) { StartsWith(s, q, ARRAY); }
  }

  lemma {:induction false} NoArrayBefore(parts: seq<string>, rest: string, q: nat)
    requires (forall p :: p in parts ==> IsOther(p)) && q < |Tags(parts)|
    ensures !At(Tags(parts) + rest, q, ARRAY)
    decreases |parts|
  {
    hide IsOther;
    var s, text := Tags(parts) + rest, parts[0];
    assert text in parts;
    var tag, t := "<" + text, Tags(parts[1..]) + rest;
    Assoc(tag, Tags(parts[1..]), rest);
    if q <= |text| {
      NotInTag(text, t, q);
    } else {
      NoArrayBefore(parts[1..], rest, q - |tag|);
      AtBehind(tag, t, q, ARRAY);
    }
  }

  lemma AtBehind(front: string, s: string, q: nat, pat: string)
    requires |front| <= q
    ensures At(front + s, q, pat) <==> At(s, q - |front|, pat)
  {
  }

  lemma AtMiddle(x: string, y: string, z: string)
    ensures At(x + y + z, |x|, y) && (x + y + z)[|x|..|x| + |y|] == y
  {
  }

  lemma Regroup(a: string, b: string, c: string, d: string, e: string)
    ensures a + (b + c + d + e) == a + b + (c + d + e)
    ensures a + (b + c + d + e) == (a + b) + c + (d + e)
    ensures a + (b + c + d + e) == (a + b + c) + d + e
  {
  }

  /** The plist gives every path back. */
  lemma PlistIsReadBack(path: string)
    ensures ProgramFromPlist(Plist(path)) == path
  {
    hide Tags, Undo, XmlEscaped, Find, PLIST_HEAD, PLIST_END;
    var head, esc, end := Tags(PLIST_HEAD), XmlEscaped(path), CLOSE + PLIST_END;
    EscapedHasNoTag(path);
    ArrayIsFound(OPEN + esc + end);
    Regroup(head, ARRAY, OPEN, esc, end);
    Assoc(head, ARRAY, OPEN + esc + end);
    OpenIsFound(head, esc + end);
    EndIsFound(head + ARRAY + OPEN, esc, CLOSE, PLIST_END);
    UndoIsUnescaped(esc);
    UnescapeUndoesEscape(path);
  }

  lemma ArrayIsFound(rest: string)
    ensures Find(Tags(PLIST_HEAD) + ARRAY + rest, ARRAY, 0) == Some(|Tags(PLIST_HEAD)|)
  {
    hide At, Tags, IsOther, Find, PLIST_HEAD;
    var head := Tags(PLIST_HEAD);
    HeadHasNoArray();
    Assoc(head, ARRAY, rest);
    forall q | 0 <= q < |head| ensures !At(head + ARRAY + rest, q, ARRAY) {
      NoArrayBefore(PLIST_HEAD, ARRAY + rest, q);
    }
    AtMiddle(head, ARRAY, rest);
  }

  lemma OpenIsFound(head: string, rest: string)
    ensures Find(head + ARRAY + OPEN + rest, OPEN, |head|) == Some(|head| + |ARRAY|)
  {
    hide At, Find;
    var xml, start := head + ARRAY + OPEN + rest, |head|;
    AtMiddle(head + ARRAY, OPEN, rest);
    forall q | start <= q < start + |ARRAY| ensures !At(xml, q, OPEN) {
      assert xml[q] == ARRAY[q - start] && xml[start + 1] == ARRAY[1];
      if At(xml, q, OPEN) { StartsWith(xml, q, OPEN); }
    }
  }

  lemma FirstIs(s: string, pat: string, from: nat, k: nat)
    requires from <= k && At(s, k, pat) && forall q :: from <= q < k ==> !At(s, q, pat)
    ensures Find(s, pat, from) == Some(k)
  {
  }

  lemma {:induction false} EndIsFound(head: string, middle: string, pat: string, rest: string)
    requires |pat| > 1 && pat[0] !in middle
    ensures var s := head + middle + (pat + rest);
      Find(s, pat, |head|) == Some(|head| + |middle|) && s[|head|..|head| + |middle|] == middle
  {
    hide At, Find;
    NothingInside(head, middle, pat + rest, pat);
    AtTheEnd(head + middle, pat, rest);
    MiddleIs(head, middle, pat + rest);
    FirstIs(head + middle + (pat + rest), pat, |head|, |head + middle|);
  }

  lemma {:induction false} AtTheEnd(front: string, pat: string, rest: string)
    ensures At(front + (pat + rest), |front|, pat)
  {
    Assoc(front, pat, rest);
    AtMiddle(front, pat, rest);
  }

  lemma {:induction false} MiddleIs(head: string, middle: string, rest: string)
    ensures |head + middle| == |head| + |middle| && (head + middle + rest)[|head|..|head| + |middle|] == middle
  {
  }

  /** A pattern that starts with a character the middle does not have does not start there. */
  lemma {:induction false} NothingInside(head: string, middle: string, rest: string, pat: string)
    requires |pat| > 1 && pat[0] !in middle
    ensures forall q :: |head| <= q < |head| + |middle| ==> !At(head + middle + rest, q, pat)
  {
  }
}
