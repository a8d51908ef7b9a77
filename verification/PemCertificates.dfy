/** The certificates of a PEM text (section 2 of RFC 7468): the block scanner, what it
    keeps, and the text left with the certificates only. */
module PemCertificates {
  import opened Text
  import opened DerCertificates

  const BEGIN: string := "-----BEGIN "
  const END: string := "-----END "
  const DASHES: string := "-----"

  // ---------- one block ----------

  predicate IsAsciiSpace(c: char) { '\t' <= c <= '\r' || c == ' ' }

  predicate IsLabelChar(c: char) { 'A' <= c <= 'Z' || '0' <= c <= '9' || c == ' ' }

  predicate IsBodyChar(c: char) {
    'A' <= c <= 'Z' || 'a' <= c <= 'z' || '0' <= c <= '9' || c == '+' || c == '/' || c == '=' || IsAsciiSpace(c)
  }

  /** Where the run of such characters from `i` ends. */
  function RunEnd(text: string, i: nat, p: char -> bool): (k: nat)
    requires i <= |text|
    ensures i <= k <= |text|
    ensures forall j :: i <= j < k ==> p(text[j])
    ensures k < |text| ==> !p(text[k])
    decreases |text| - i
  {
    if i < |text| && p(text[i]) then RunEnd(text, i + 1, p) else i
  }

  datatype Block = Block(start: nat, end: nat, kind: string, body: string)

  /** The block that starts at `p`: BEGIN, a label, a body, and END with the same label. */
  function BlockAt(text: string, p: nat): (r: Option<Block>)
    ensures r.Some? ==> p == r.value.start < r.value.end <= |text|
  {
    if !At(text, p, BEGIN) then None
    else
      var a := p + |BEGIN|;
      var b := RunEnd(text, a, IsLabelChar);
      if b == a || !At(text, b, DASHES) then None
      else
        var c := b + |DASHES|;
        var d := RunEnd(text, c, IsBodyChar);
        var tail := END + text[a..b] + DASHES;
        if At(text, d, tail) then Some(Block(p, d + |tail|, text[a..b], text[c..d])) else None
  }

  /** The block with this label and body, as it is written. */
  function Written(kind: string, body: string): string {
    BEGIN + kind + DASHES + body + (END + kind + DASHES)
  }

  predicate WellFormed(kind: string, body: string) {
    && kind != "" && (forall i :: 0 <= i < |kind| ==> IsLabelChar(kind[i]))
    && forall i :: 0 <= i < |body| ==> IsBodyChar(body[i])
  }

  lemma BlockIsWritten(text: string, p: nat)
    requires BlockAt(text, p).Some?
    ensures var b := BlockAt(text, p).value; WellFormed(b.kind, b.body) && text[p..b.end] == Written(b.kind, b.body)
  {
    hide RunEnd;
    var a := p + |BEGIN|;
    var b := RunEnd(text, a, IsLabelChar);
    var c := b + |DASHES|;
    var d := RunEnd(text, c, IsBodyChar);
    FiveParts(text, p, a, b, c, d, BlockAt(text, p).value.end);
    RunIsAll(text, a, IsLabelChar);
    RunIsAll(text, c, IsBodyChar);
  }

  lemma RunIsAll(text: string, i: nat, p: char -> bool)
    requires i <= |text|
    ensures var run := text[i..RunEnd(text, i, p)]; forall k :: 0 <= k < |run| ==> p(run[k])
  {
  }

  lemma FiveParts<T>(s: seq<T>, p: nat, a: nat, b: nat, c: nat, d: nat, e: nat)
    requires p <= a <= b <= c <= d <= e <= |s|
    ensures s[p..e] == s[p..a] + s[a..b] + s[b..c] + s[c..d] + s[d..e]
  {
    Glue(s, p, a, b);
    Glue(s, p, b, c);
    Glue(s, p, c, d);
    Glue(s, p, d, e);
  }

  lemma Glue<T>(s: seq<T>, i: nat, j: nat, k: nat)
    requires i <= j <= k <= |s|
    ensures s[i..k] == s[i..j] + s[j..k]
  {
  }

  /** Where two strings are written one after the other, each is at its place. */
  lemma PartsPlaced(text: string, p: nat, x: string, y: string)
    requires At(text, p, x + y)
    ensures At(text, p, x) && At(text, p + |x|, y)
  {
    SliceOfSlice(text, p, p + |x + y|, 0, |x|);
    SliceOfSlice(text, p, p + |x + y|, |x|, |x + y|);
    assert (x + y)[0..|x|] == x && (x + y)[|x|..|x + y|] == y;
  }

  lemma PlacedRun(text: string, i: nat, x: string, p: char -> bool)
    requires At(text, i, x) && (forall k :: 0 <= k < |x| ==> p(x[k])) && At(text, i + |x|, DASHES) && !p('-')
    ensures RunEnd(text, i, p) == i + |x|
  {
    var k := i + |x|;
    assert text[k] == text[k..k + |DASHES|][0] == '-';
    assert forall j :: i <= j < k ==> text[j] == text[i..k][j - i];
  }

  lemma FivePlaced(text: string, p: nat, x: string, y: string, z: string, v: string, w: string)
    requires At(text, p, x + y + z + v + w)
    ensures At(text, p, x) && At(text, p + |x|, y) && At(text, p + |x| + |y|, z)
    ensures At(text, p + |x| + |y| + |z|, v) && At(text, p + |x| + |y| + |z| + |v|, w)
  {
    hide At;
    PartsPlaced(text, p, x + y + z + v, w);
    PartsPlaced(text, p, x + y + z, v);
    PartsPlaced(text, p, x + y, z);
    PartsPlaced(text, p, x, y);
  }

  lemma Placed(text: string, p: nat, kind: string, body: string)
    requires WellFormed(kind, body) && At(text, p, Written(kind, body))
    ensures var a := p + |BEGIN|;
      var b := a + |kind|;
      var c := b + |DASHES|;
      var d := c + |body|;
      && At(text, p, BEGIN) && At(text, a, kind) && At(text, b, DASHES) && At(text, c, body)
      && RunEnd(text, a, IsLabelChar) == b && RunEnd(text, c, IsBodyChar) == d
      && At(text, d, END + kind + DASHES)
  {
    hide At, RunEnd;
    var tail := END + kind + DASHES;
    FivePlaced(text, p, BEGIN, kind, DASHES, body, tail);
    assert tail == DASHES + ("END " + kind + DASHES);
    PartsPlaced(text, p + |BEGIN| + |kind| + |DASHES| + |body|, DASHES, "END " + kind + DASHES);
    PlacedRun(text, p + |BEGIN|, kind, IsLabelChar);
    PlacedRun(text, p + |BEGIN| + |kind| + |DASHES|, body, IsBodyChar);
  }

  /** What is written as a block is found as that block, whatever stands around it. */
  lemma WrittenIsABlock(text: string, p: nat, kind: string, body: string)
    requires WellFormed(kind, body) && At(text, p, Written(kind, body))
    ensures BlockAt(text, p) == Some(Block(p, p + |Written(kind, body)|, kind, body))
  {
    Placed(text, p, kind, body);
    hide RunEnd;
  }

  /** A block does not depend on what stands before and after it. */
  lemma BlockElsewhere(text: string, p: nat, before: string, after: string)
    requires BlockAt(text, p).Some?
    ensures var b := BlockAt(text, p).value;
      var n := |before|;
      BlockAt(before + text[p..b.end] + after, n) == Some(Block(n, n + (b.end - p), b.kind, b.body))
  {
    hide BlockAt, Written, WellFormed;
    BlockIsWritten(text, p);
    var b := BlockAt(text, p).value;
    var w := Written(b.kind, b.body);
    Within(before, w, after, 0, |w|);
    assert w[0..|w|] == w;
    WrittenIsABlock(before + w + after, |before|, b.kind, b.body);
  }

  /** The first block at or after `from`, as the expression finds it. */
  function NextBlock(text: string, from: nat): (r: Option<Block>)
    requires from <= |text|
    ensures match r
      case None => forall q :: from <= q < |text| ==> BlockAt(text, q).None?
      case Some(b) =>
        (from <= b.start && BlockAt(text, b.start) == r && forall q :: from <= q < b.start ==> BlockAt(text, q).None?)
    decreases |text| - from
  {
    if from == |text| then None
    else
      match BlockAt(text, from)
      case Some(b) => Some(b)
      case None => NextBlock(text, from + 1)
  }

  lemma BlockShifts(text: string, k: nat, p: nat)
    requires k <= |text| && p <= |text| - k
    ensures match BlockAt(text[k..], p)
      case None => BlockAt(text, k + p).None?
      case Some(b) => BlockAt(text, k + p) == Some(Block(k + p, k + b.end, b.kind, b.body))
  {
    hide BlockAt, Written, WellFormed;
    var u := text[k..];
    if BlockAt(u, p).Some? {
      var b := BlockAt(u, p).value;
      BlockIsWritten(u, p);
      SliceOfSlice(text, k, |text|, p, b.end);
      WrittenIsABlock(text, k + p, b.kind, b.body);
    } else if BlockAt(text, k + p).Some? {
      var b := BlockAt(text, k + p).value;
      BlockIsWritten(text, k + p);
      SliceOfSlice(text, k, |text|, p, b.end - k);
      WrittenIsABlock(u, p, b.kind, b.body);
      assert false;
    }
  }

  lemma NextShifts(text: string, k: nat)
    requires k <= |text|
    ensures match NextBlock(text[k..], 0)
      case None => NextBlock(text, k).None?
      case Some(b) => NextBlock(text, k) == Some(Block(k + b.start, k + b.end, b.kind, b.body))
  {
    hide BlockAt, Written, WellFormed;
    forall q | k <= q <= |text| ensures BlockAt(text, q).Some? <==> BlockAt(text[k..], q - k).Some? {
      BlockShifts(text, k, q - k);
    }
    match NextBlock(text[k..], 0)
    case None =>
    case Some(b) => BlockShifts(text, k, b.start);
  }

  // ---------- what is kept ----------

  type Decoder = string -> Option<seq<byte>>

  function WithoutSpaces(s: string): (r: string)
    ensures |r| <= |s|
  {
    if s == "" then "" else (if IsAsciiSpace(s[0]) then "" else [s[0]]) + WithoutSpaces(s[1..])
  }

  /** The certificates a block holds; nothing when it is no certificate block. */
  function BlockDer(kind: string, body: string, decode: Decoder): (r: seq<byte>)
    ensures r != [] ==> Accepted(r)
  {
    var digits := WithoutSpaces(body);
    if kind != "CERTIFICATE" && kind != "X509 CERTIFICATE" then []
    else if |digits| % 4 == 1 then []
    else
      match decode(digits)
      case None => []
      case Some(der) => if Accepted(der) then der else []
  }

  /** A decoder makes no more bytes than it is given characters. */
  ghost predicate Shrinks(decode: Decoder) {
    forall s :: decode(s).Some? ==> |decode(s).value| <= |s|
  }

  method CertificateBlockDer(kind: string, body: string, decode: Decoder) returns (der: seq<byte>)
    requires Shrinks(decode) && |body| <= MAX_SIZE
    ensures der == BlockDer(kind, body, decode)
  {
    if kind != "CERTIFICATE" && kind != "X509 CERTIFICATE" {
      return [];
    }
    var digits := WithoutSpaces(body);
    if |digits| % 4 == 1 {
      return [];
    }
    var decoded := decode(digits);
    if decoded.None? {
      return [];
    }
    var accepted := CertificatesBackToBack(decoded.value);
    return if accepted then decoded.value else [];
  }

  datatype Pem = Pem(blocks: seq<string>, der: seq<byte>, dropped: bool)

  /** What the text holds: the blocks kept, as written, their bytes, and whether anything
      else than white space stands in it. */
  function Read(text: string, decode: Decoder): Pem
    decreases |text|
  {
    match NextBlock(text, 0)
    case None => Pem([], [], !AllSpace(text))
    case Some(b) =>
      var der := BlockDer(b.kind, b.body, decode);
      var rest := Read(text[b.end..], decode);
      Pem((if der == [] then [] else [text[b.start..b.end]]) + rest.blocks, der + rest.der,
          der == [] || !AllSpace(text[..b.start]) || rest.dropped)
  }

  function Both(p: Pem, q: Pem): Pem {
    Pem(p.blocks + q.blocks, p.der + q.der, p.dropped || q.dropped)
  }

  method ReadPemCertificates(pem: string, decode: Decoder) returns (out: Pem)
    requires Shrinks(decode) && |pem| <= MAX_SIZE
    ensures out == Read(pem, decode)
  {
    hide BlockAt, BlockDer, Read, Written, WellFormed;
    out := Pem([], [], false);
    var last := 0;
    EmptyPlus(Read(pem, decode).blocks);
    EmptyPlus(Read(pem, decode).der);
    assert pem[0..] == pem;
    while NextBlock(pem, last).Some?
      invariant last <= |pem|
      invariant Both(out, Read(pem[last..], decode)) == Read(pem, decode)
      decreases |pem| - last
    {
      var b := NextBlock(pem, last).value;
      BodyFits(pem, b.start);
      var der := CertificateBlockDer(b.kind, b.body, decode);
      ReadNext(pem, last, decode);
      BothAssoc(out, One(pem, last, b, decode), Read(pem[b.end..], decode));
      RightUnit(out.blocks);
      RightUnit(out.der);
      if der == [] {
        out := out.(dropped := true);
      } else {
        out := Pem(out.blocks + [pem[b.start..b.end]], out.der + der, out.dropped);
      }
      if Trim(pem[last..b.start]) != "" {
        out := out.(dropped := true);
      }
      last := b.end;
    }
    ReadLast(pem, last, decode);
    RightUnit(out.blocks);
    RightUnit(out.der);
    if Trim(pem[last..]) != "" {
      out := out.(dropped := true);
    }
  }

  lemma BodyFits(text: string, p: nat)
    requires BlockAt(text, p).Some?
    ensures |BlockAt(text, p).value.body| <= |text|
  {
  }

  /** What a block, and the text between `last` and it, add. */
  function One(text: string, last: nat, b: Block, decode: Decoder): Pem
    requires last <= b.start <= b.end <= |text|
  {
    var der := BlockDer(b.kind, b.body, decode);
    Pem(if der == [] then [] else [text[b.start..b.end]], der, der == [] || !AllSpace(text[last..b.start]))
  }

  lemma ReadLast(text: string, last: nat, decode: Decoder)
    requires last <= |text| && NextBlock(text, last).None?
    ensures Read(text[last..], decode) == Pem([], [], !AllSpace(text[last..]))
  {
    hide BlockAt;
    NextShifts(text, last);
  }

  lemma ReadFirst(text: string, decode: Decoder)
    requires NextBlock(text, 0).Some?
    ensures var b := NextBlock(text, 0).value;
      Read(text, decode) == Both(One(text, 0, b, decode), Read(text[b.end..], decode))
  {
  }

  lemma ReadNext(text: string, last: nat, decode: Decoder)
    requires last <= |text| && NextBlock(text, last).Some?
    ensures var b := NextBlock(text, last).value;
      Read(text[last..], decode) == Both(One(text, last, b, decode), Read(text[b.end..], decode))
  {
    hide BlockAt, BlockDer, AllSpace, Read;
    var u := text[last..];
    NextShifts(text, last);
    ReadFirst(u, decode);
    var b := NextBlock(u, 0).value;
    DropThenSlice(text, last, b.start, b.end);
    DropThenSlice(text, last, 0, b.start);
  }

  lemma DropThenSlice<T>(s: seq<T>, k: nat, i: nat, j: nat)
    requires i <= j && k + j <= |s|
    ensures s[k..][i..j] == s[k + i..k + j] && s[k..][j..] == s[k + j..]
  {
  }

  lemma BothAssoc(p: Pem, q: Pem, r: Pem)
    ensures Both(Both(p, q), r) == Both(p, Both(q, r))
  {
  }

  /** certificatesOnly(): the text itself when there is nothing to drop, or the blocks kept,
      each on lines of its own. */
  function CertificatesOnly(pem: string, decode: Decoder): string {
    var found := Read(pem, decode);
    if !found.dropped then pem else Unlines(found.blocks)
  }

  method KeepCertificatesOnly(pem: string, decode: Decoder) returns (text: string, dropped: bool)
    requires Shrinks(decode) && |pem| <= MAX_SIZE
    ensures text == CertificatesOnly(pem, decode) && dropped == Read(pem, decode).dropped
  {
    var found := ReadPemCertificates(pem, decode);
    dropped := found.dropped;
    if !found.dropped {
      text := pem;
    } else if found.blocks == [] {
      text := "";
    } else {
      text := Join(found.blocks, '\n') + "\n";
      JoinedIsUnlines(found.blocks);
    }
  }

  lemma {:induction false} JoinedIsUnlines(lines: seq<string>)
    requires lines != []
    ensures Join(lines, '\n') + "\n" == Unlines(lines)
  {
    if |lines| == 1 {
      RightUnit(lines[0] + "\n");
    } else {
      JoinedIsUnlines(lines[1..]);
      Assoc(lines[0] + "\n", Join(lines[1..], '\n'), "\n");
    }
  }

  // ---------- a projection on text ----------

  /** The text is one block, and it holds certificates. */
  predicate IsKept(block: string, decode: Decoder) {
    match BlockAt(block, 0)
    case None => false
    case Some(b) => b.end == |block| && BlockDer(b.kind, b.body, decode) != []
  }

  function DerOf(block: string, decode: Decoder): seq<byte> {
    match BlockAt(block, 0)
    case None => []
    case Some(b) => BlockDer(b.kind, b.body, decode)
  }

  function Ders(blocks: seq<string>, decode: Decoder): seq<byte> {
    if blocks == [] then [] else DerOf(blocks[0], decode) + Ders(blocks[1..], decode)
  }

  ghost predicate AllKept(blocks: seq<string>, decode: Decoder) {
    forall b :: b in blocks ==> IsKept(b, decode)
  }

  /** gap, block, gap, …, block, gap. */
  function Interleaved(gaps: seq<string>, blocks: seq<string>): string
    requires |gaps| == |blocks| + 1
    decreases |blocks|
  {
    if blocks == [] then gaps[0] else gaps[0] + blocks[0] + Interleaved(gaps[1..], blocks[1..])
  }

  ghost predicate AllGapsSpace(gaps: seq<string>) {
    forall g :: g in gaps ==> AllSpace(g)
  }

  lemma DashIsNoSpace(text: string, p: nat)
    requires BlockAt(text, p).Some?
    ensures text[p] == '-' && !IsSpace(text[p])
  {
  }

  lemma NoBlockInSpace(gap: string, rest: string)
    requires AllSpace(gap)
    ensures forall q :: 0 <= q < |gap| ==> BlockAt(gap + rest, q).None?
  {
    hide BlockAt, IsSpace;
    forall q | 0 <= q < |gap| ensures BlockAt(gap + rest, q).None? {
      assert (gap + rest)[q] == gap[q];
      if BlockAt(gap + rest, q).Some? { DashIsNoSpace(gap + rest, q); }
    }
  }

  /** Behind white space, a kept block is the next one read. */
  lemma KeptIsRead(gap: string, block: string, rest: string, decode: Decoder)
    requires AllSpace(gap) && IsKept(block, decode)
    ensures Read(gap + block + rest, decode) == Both(Pem([block], DerOf(block, decode), false), Read(rest, decode))
  {
    hide BlockAt, BlockDer, AllSpace, Read;
    var text := gap + block + rest;
    var n := |gap|;
    assert block[0..|block|] == block;
    BlockElsewhere(block, 0, gap, rest);
    NoBlockInSpace(gap, block + rest);
    Assoc(gap, block, rest);
    ReadFirst(text, decode);
    Cut(gap, block, rest);
  }

  lemma Cut<T>(x: seq<T>, y: seq<T>, z: seq<T>)
    ensures var s := x + y + z;
      s[0..|x|] == x && s[|x|..|x| + |y|] == y && s[|x| + |y|..] == z
  {
  }

  /** Certificate blocks with nothing but white space around them are read as they are. */
  lemma {:induction false} InterleavedIsRead(gaps: seq<string>, blocks: seq<string>, decode: Decoder)
    requires |gaps| == |blocks| + 1 && AllGapsSpace(gaps) && AllKept(blocks, decode)
    ensures Read(Interleaved(gaps, blocks), decode) == Pem(blocks, Ders(blocks, decode), false)
    decreases |blocks|
  {
    assert gaps[0] in gaps;
    if blocks == [] {
      SpaceHoldsNothing(gaps[0], decode);
    } else {
      assert blocks[0] in blocks;
      InterleavedIsRead(gaps[1..], blocks[1..], decode);
      KeptIsRead(gaps[0], blocks[0], Interleaved(gaps[1..], blocks[1..]), decode);
      Cons(blocks);
    }
  }

  lemma SpaceHoldsNothing(gap: string, decode: Decoder)
    requires AllSpace(gap)
    ensures Read(gap, decode) == Pem([], [], false)
  {
    if NextBlock(gap, 0).Some? { DashIsNoSpace(gap, NextBlock(gap, 0).value.start); }
  }

  /** The kept blocks of the text, with what stands between them. */
  ghost predicate Splits(text: string, gaps: seq<string>, found: Pem, decode: Decoder) {
    && |gaps| == |found.blocks| + 1 && text == Interleaved(gaps, found.blocks)
    && AllKept(found.blocks, decode) && found.der == Ders(found.blocks, decode)
    && (found.dropped <==> !AllGapsSpace(gaps))
  }

  /** What is kept is in the text as written and in order; what stands between is all white
      space just when nothing was dropped. */
  lemma {:induction false} KeptAsWritten(text: string, decode: Decoder) returns (gaps: seq<string>)
    ensures Splits(text, gaps, Read(text, decode), decode)
    decreases |text|
  {
    hide BlockAt, BlockDer, AllSpace, Splits;
    assert text[0..] == text;
    match NextBlock(text, 0)
    case None =>
      ReadLast(text, 0, decode);
      gaps := [text];
      NothingFound(text, decode);
    case Some(b) =>
      ReadNext(text, 0, decode);
      var rest := KeptAsWritten(text[b.end..], decode);
      gaps := OneMore(text, b, rest, Read(text[b.end..], decode), decode);
  }

  lemma NothingFound(text: string, decode: Decoder)
    ensures Splits(text, [text], Pem([], [], !AllSpace(text)), decode)
  {
  }

  lemma OneMore(text: string, b: Block, gaps: seq<string>, found: Pem, decode: Decoder) returns (gaps': seq<string>)
    requires b.start <= |text| && BlockAt(text, b.start) == Some(b) && Splits(text[b.end..], gaps, found, decode)
    ensures Splits(text, gaps', Both(One(text, 0, b, decode), found), decode)
  {
    hide BlockAt, BlockDer, AllSpace, Splits;
    Glue(text, 0, b.start, b.end);
    Glue(text, 0, b.end, |text|);
    assert text[0..|text|] == text && text[0..b.start] == text[..b.start] && text[0..b.end] == text[..b.end];
    var block := text[b.start..b.end];
    if BlockDer(b.kind, b.body, decode) != [] {
      BlockElsewhere(text, b.start, "", "");
      RightUnit(block);
      gaps' := KeptMore(text[..b.start], block, text[b.end..], gaps, found, decode);
    } else {
      DashIsNoSpace(text, b.start);
      gaps' := DroppedMore(text[..b.end], b.start, text[b.end..], gaps, found, decode);
    }
  }

  lemma KeptMore(gap: string, block: string, rest: string, gaps: seq<string>, found: Pem, decode: Decoder)
      returns (gaps': seq<string>)
    requires IsKept(block, decode) && Splits(rest, gaps, found, decode)
    ensures Splits(gap + block + rest, gaps', Both(Pem([block], DerOf(block, decode), !AllSpace(gap)), found), decode)
  {
    hide IsKept, DerOf, AllSpace;
    gaps' := [gap] + gaps;
    assert ([block] + found.blocks)[1..] == found.blocks && gaps'[1..] == gaps;
    SpaceInFront(gap, gaps);
  }

  lemma DroppedMore(gap: string, i: nat, rest: string, gaps: seq<string>, found: Pem, decode: Decoder)
      returns (gaps': seq<string>)
    requires i < |gap| && !IsSpace(gap[i]) && Splits(rest, gaps, found, decode)
    ensures Splits(gap + rest, gaps', Both(Pem([], [], true), found), decode)
  {
    hide IsKept, AllSpace, IsSpace;
    gaps' := [gap + gaps[0]] + gaps[1..];
    EmptyPlus(found.blocks);
    EmptyPlus(found.der);
    FirstGapGrows(gap, gaps, found.blocks);
    NotAllSpace(gaps', i);
  }

  lemma NotAllSpace(gaps: seq<string>, i: nat)
    requires |gaps| > 0 && i < |gaps[0]| && !IsSpace(gaps[0][i])
    ensures !AllGapsSpace(gaps)
  {
    assert gaps[0] in gaps;
  }

  lemma SpaceInFront(gap: string, gaps: seq<string>)
    ensures AllGapsSpace([gap] + gaps) <==> AllSpace(gap) && AllGapsSpace(gaps)
  {
  }

  lemma FirstGapGrows(x: string, gaps: seq<string>, blocks: seq<string>)
    requires |gaps| == |blocks| + 1
    ensures Interleaved([x + gaps[0]] + gaps[1..], blocks) == x + Interleaved(gaps, blocks)
  {
  }

  ghost predicate OnlyCertificates(text: string, gaps: seq<string>, blocks: seq<string>, decode: Decoder) {
    |gaps| == |blocks| + 1 && text == Interleaved(gaps, blocks) && AllGapsSpace(gaps) && AllKept(blocks, decode)
  }

  /** Nothing is dropped from just the texts that are certificate blocks and white space. */
  lemma DroppedIffSomethingElse(text: string, decode: Decoder)
    ensures !Read(text, decode).dropped <==> exists gaps, blocks :: OnlyCertificates(text, gaps, blocks, decode)
  {
    var gaps := KeptAsWritten(text, decode);
    var found := Read(text, decode);
    if !found.dropped {
      assert OnlyCertificates(text, gaps, found.blocks, decode);
    }
    if gaps', blocks :| OnlyCertificates(text, gaps', blocks, decode) {
      InterleavedIsRead(gaps', blocks, decode);
    }
  }

  lemma {:induction false} UnlinesIsRead(gap: string, blocks: seq<string>, decode: Decoder)
    requires AllSpace(gap) && AllKept(blocks, decode)
    ensures Read(gap + Unlines(blocks), decode) == Pem(blocks, Ders(blocks, decode), false)
    decreases |blocks|
  {
    if blocks == [] {
      RightUnit(gap);
      SpaceHoldsNothing(gap, decode);
    } else {
      var rest := "\n" + Unlines(blocks[1..]);
      assert blocks[0] in blocks;
      UnlinesIsRead("\n", blocks[1..], decode);
      KeptIsRead(gap, blocks[0], rest, decode);
      Assoc(blocks[0], "\n", Unlines(blocks[1..]));
      Assoc(gap, blocks[0], rest);
      Cons(blocks);
    }
  }

  /** Keeping the certificates only loses no certificate, adds none, and done again changes
      nothing. */
  lemma CertificatesOnlyIsAProjection(pem: string, decode: Decoder)
    ensures var only := CertificatesOnly(pem, decode);
      && CertificatesOnly(only, decode) == only
      && Read(only, decode) == Read(pem, decode).(dropped := false)
  {
    var found := Read(pem, decode);
    if found.dropped {
      var _ := KeptAsWritten(pem, decode);
      UnlinesIsRead("", found.blocks, decode);
      EmptyPlus(Unlines(found.blocks));
    }
  }

  /** The bytes read are a chain of certificates, or none. */
  lemma {:induction false} WhatIsReadIsAChain(pem: string, decode: Decoder)
    ensures BackToBack(Read(pem, decode).der)
    decreases |pem|
  {
    match NextBlock(pem, 0)
    case None =>
    case Some(b) =>
      WhatIsReadIsAChain(pem[b.end..], decode);
      BehindAChain(BlockDer(b.kind, b.body, decode), Read(pem[b.end..], decode).der);
  }
}
