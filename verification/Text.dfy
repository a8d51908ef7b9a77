/** Strings as the parsers use them: white space, lines, prefixes. */
module Text {

  datatype Option<T> = None | Some(value: T)

  predicate InRanges(c: char, ranges: seq<(char, char)>) {
    ranges != [] && (ranges[0].0 <= c <= ranges[0].1 || InRanges(c, ranges[1..]))
  }

  const WIDE_SPACES: seq<(char, char)> := [
    ('\U{85}', '\U{85}'), ('\U{A0}', '\U{A0}'), ('\U{1680}', '\U{1680}'), ('\U{2000}', '\U{200A}'),
    ('\U{2028}', '\U{2029}'), ('\U{202F}', '\U{202F}'), ('\U{205F}', '\U{205F}'), ('\U{3000}', '\U{3000}')]

  /** QChar::isSpace(). */
  predicate IsSpace(c: char) {
    '\t' <= c <= '\r' || c == ' ' || (c >= '\U{85}' && InRanges(c, WIDE_SPACES))
  }

  predicate AllSpace(s: string) {
    forall i :: 0 <= i < |s| ==> IsSpace(s[i])
  }

  predicate IsTrimmed(s: string) {
    s == "" || (!IsSpace(s[0]) && !IsSpace(s[|s| - 1]))
  }

  /** QString::trimmed(). */
  function Trim(s: string): (r: string)
    ensures IsTrimmed(r) && |r| <= |s|
    ensures IsTrimmed(s) ==> r == s
    ensures r == "" <==> AllSpace(s)
    ensures forall c :: c in r ==> c in s
  {
    if s == "" then ""
    else if IsSpace(s[0]) then Trim(s[1..])
    else if IsSpace(s[|s| - 1]) then Trim(s[..|s| - 1])
    else s
  }

  /** What trimmed() leaves is what stands between the outer white space. */
  lemma {:induction false} TrimParts(s: string) returns (a: nat, b: nat)
    ensures a <= b <= |s| && Trim(s) == s[a..b] && AllSpace(s[..a]) && AllSpace(s[b..])
    ensures s != "" && !IsSpace(s[0]) ==> a == 0
    decreases |s|
  {
    if s == "" {
      a, b := 0, 0;
    } else if IsSpace(s[0]) {
      a, b := TrimParts(s[1..]);
      DropFirst(s, a, b);
      a, b := a + 1, b + 1;
    } else if IsSpace(s[|s| - 1]) {
      a, b := TrimParts(s[..|s| - 1]);
      DropLast(s, a, b);
    } else {
      a, b := 0, |s|;
      assert s[a..b] == s;
    }
  }

  lemma DropFirst(s: string, a: nat, b: nat)
    requires s != "" && a <= b <= |s| - 1
    ensures s[1..][a..b] == s[a + 1..b + 1] && s[1..][b..] == s[b + 1..] && s[..a + 1] == [s[0]] + s[1..][..a]
  {
  }

  lemma DropLast(s: string, a: nat, b: nat)
    requires s != "" && a <= b <= |s| - 1
    ensures s[..|s| - 1][a..b] == s[a..b] && s[..|s| - 1][..a] == s[..a]
    ensures s[b..] == s[..|s| - 1][b..] + [s[|s| - 1]]
  {
  }

  /** `pat` is written in `s` at `i`. */
  predicate At(s: string, i: nat, pat: string) {
    i + |pat| <= |s| && s[i..i + |pat|] == pat
  }

  /** Where `c` first is in `s` at or after `i`; |s| when it is not. */
  function IndexOf(s: string, c: char, i: nat): (k: nat)
    requires i <= |s|
    ensures i <= k <= |s|
    ensures k < |s| ==> s[k] == c
    ensures forall j :: i <= j < k ==> s[j] != c
    decreases |s| - i
  {
    if i == |s| || s[i] == c then i else IndexOf(s, c, i + 1)
  }

  /** QString::split() at one character, empty parts kept. */
  function Split(s: string, c: char): (parts: seq<string>)
    ensures |parts| >= 1
    ensures forall p :: p in parts ==> c !in p
    decreases |s|
  {
    var k := IndexOf(s, c, 0);
    if k == |s| then [s] else [s[..k]] + Split(s[k + 1..], c)
  }

  /** QStringList::join() with one character. */
  function Join(parts: seq<string>, c: char): string
    requires |parts| >= 1
  {
    if |parts| == 1 then parts[0] else parts[0] + [c] + Join(parts[1..], c)
  }

  function Lines(s: string): (r: seq<string>)
    ensures |r| >= 1 && forall p :: p in r ==> '\n' !in p
  {
    Split(s, '\n')
  }

  /** Each line with its line break. */
  function Unlines(lines: seq<string>): string {
    if lines == [] then "" else lines[0] + "\n" + Unlines(lines[1..])
  }

  ghost predicate AreLines(lines: seq<string>) {
    forall l :: l in lines ==> '\n' !in l
  }

  predicate NoDuplicates<T(==)>(s: seq<T>) {
    forall i, j :: 0 <= i < j < |s| ==> s[i] != s[j]
  }

  lemma Assoc<T>(a: seq<T>, b: seq<T>, c: seq<T>)
    ensures a + b + c == a + (b + c)
  {
  }

  lemma RightUnit<T>(s: seq<T>)
    ensures s + [] == s && [] + s == s
  {
  }

  lemma EmptyPlus<T>(s: seq<T>)
    ensures [] + s == s
  {
  }

  lemma Cons<T>(xs: seq<T>)
    requires xs != []
    ensures [xs[0]] + xs[1..] == xs
  {
  }

  lemma ConsConcat<T>(xs: seq<T>, ys: seq<T>)
    requires xs != []
    ensures xs + ys != [] && (xs + ys)[0] == xs[0] && (xs + ys)[1..] == xs[1..] + ys
  {
  }

  lemma SliceOfSlice<T>(s: seq<T>, i: nat, j: nat, a: nat, b: nat)
    requires i <= j <= |s| && a <= b <= j - i
    ensures s[i..j][a..b] == s[i + a..i + b]
  {
    var x := s[i..j];
    assert forall k :: 0 <= k < b - a ==> x[a..b][k] == s[i + a..i + b][k];
  }

  ghost predicate TailAll<T>(s: seq<T>, p: T -> bool) {
    forall k :: 1 <= k < |s| ==> p(s[k])
  }

  lemma TailAllCons<T>(x: T, rest: seq<T>, p: T -> bool)
    requires |rest| >= 1 && p(rest[0]) && TailAll(rest, p)
    ensures TailAll([x] + rest, p)
  {
  }

  lemma Tail<T>(s: seq<T>, k: nat)
    requires k < |s|
    ensures s[k..] == [s[k]] + s[k + 1..] && s[k..][1..] == s[k + 1..]
  {
  }

  lemma {:induction false} SplitOfConcat(a: string, c: char, b: string)
    requires c !in a
    ensures Split(a + [c] + b, c) == [a] + Split(b, c)
    ensures Split(a, c) == [a]
  {
    var s := a + [c] + b;
    var k := IndexOf(s, c, 0);
    assert s[|a|] == c;
    assert forall j :: 0 <= j < |a| ==> s[j] == a[j];
    assert k == |a|;
    assert s[..k] == a && s[k + 1..] == b;
  }

  lemma {:induction false} SplitOfJoin(parts: seq<string>, c: char)
    requires |parts| >= 1 && forall p :: p in parts ==> c !in p
    ensures Split(Join(parts, c), c) == parts
  {
    if |parts| == 1 {
      SplitOfConcat(parts[0], c, "");
    } else {
      SplitOfJoin(parts[1..], c);
      SplitOfConcat(parts[0], c, Join(parts[1..], c));
    }
  }

  lemma LinesJoined(xs: seq<string>, ys: seq<string>)
    requires AreLines(xs) && AreLines(ys)
    ensures AreLines(xs + ys)
  {
  }

  /** A text, with its last line ended, is its lines. */
  lemma {:induction false} UnlinesOfLines(s: string)
    ensures Unlines(Lines(s)) == s + "\n"
    decreases |s|
  {
    var k := IndexOf(s, '\n', 0);
    if k < |s| {
      var rest := s[k + 1..];
      UnlinesOfLines(rest);
      var ls := Lines(s);
      assert ls == [s[..k]] + Lines(rest);
      assert ls[1..] == Lines(rest);
      assert s == s[..k] + "\n" + rest;
      assert Unlines(ls) == s[..k] + "\n" + (rest + "\n");
    } else {
      assert Lines(s) == [s] && [s][1..] == [];
    }
  }

  lemma {:induction false} LinesAfter(xs: seq<string>, s: string)
    requires AreLines(xs)
    ensures Lines(Unlines(xs) + s) == xs + Lines(s)
  {
    if xs == [] {
      assert Unlines(xs) + s == s;
    } else {
      var rest := Unlines(xs[1..]) + s;
      LinesAfter(xs[1..], s);
      calc {
        Lines(Unlines(xs) + s);
        { assert Unlines(xs) + s == xs[0] + ['\n'] + rest; }
        Split(xs[0] + ['\n'] + rest, '\n');
        { assert xs[0] in xs; SplitOfConcat(xs[0], '\n', rest); }
        [xs[0]] + Split(rest, '\n');
        [xs[0]] + (xs[1..] + Lines(s));
        { assert xs == [xs[0]] + xs[1..]; }
        xs + Lines(s);
      }
    }
  }

  lemma {:induction false} UnlinesConcat(xs: seq<string>, ys: seq<string>)
    ensures Unlines(xs + ys) == Unlines(xs) + Unlines(ys)
  {
    if xs == [] {
      assert xs + ys == ys;
    } else {
      assert (xs + ys)[1..] == xs[1..] + ys;
      UnlinesConcat(xs[1..], ys);
    }
  }
}
