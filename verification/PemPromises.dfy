/** What is read of a PEM text block by block: certificates in strict base64 under either of their two
    labels, and nothing else (section 2 of RFC 7468). */
module PemPromises {
  import opened Text
  import opened DerCertificates
  import opened PemCertificates

  /** Lines of base64 digits, and the digits on them. */
  predicate DigitLines(lines: seq<string>) {
    forall l :: l in lines ==> forall i :: 0 <= i < |l| ==>
      'A' <= l[i] <= 'Z' || 'a' <= l[i] <= 'z' || '0' <= l[i] <= '9' || l[i] == '+' || l[i] == '/' || l[i] == '='
  }

  function Digits(lines: seq<string>): string {
    if lines == [] then "" else lines[0] + Digits(lines[1..])
  }

  /** A block, its body on lines. */
  datatype PemBlock = PemBlock(kind: string, lines: seq<string>) {
    function Text(): string {
      "-----BEGIN " + kind + "-----" + ("\n" + Unlines(lines)) + ("-----END " + kind + "-----")
    }

    predicate Written() {
      && kind != "" && DigitLines(lines)
      && forall i :: 0 <= i < |kind| ==> 'A' <= kind[i] <= 'Z' || '0' <= kind[i] <= '9' || kind[i] == ' '
    }

    /** It holds these certificates: under a certificate's label, whole groups of digits but for one
        digit too many, which decode to certificates back to back. */
    predicate Holds(der: seq<byte>, decode: Decoder) {
      && (kind == "CERTIFICATE" || kind == "X509 CERTIFICATE")
      && |Digits(lines)| % 4 != 1 && decode(Digits(lines)) == Some(der) && Accepted(der)
    }
  }

  lemma {:induction false} SpacesGo(lines: seq<string>)
    requires DigitLines(lines)
    ensures WithoutSpaces(Unlines(lines)) == Digits(lines)
  {
    if lines != [] {
      hide DigitLines;
      LineGoes(lines);
      SpacesGo(lines[1..]);
      SpacesOfBoth(lines[0] + "\n", Unlines(lines[1..]));
    }
  }

  lemma LineGoes(lines: seq<string>)
    requires lines != [] && DigitLines(lines)
    ensures DigitLines(lines[1..]) && WithoutSpaces(lines[0] + "\n") == lines[0]
  {
    assert lines[0] in lines;
    DigitsStay(lines[0]);
    SpacesOfBoth(lines[0], "\n");
    assert "\n"[1..] == "";
    RightUnit(lines[0]);
  }

  lemma {:induction false} BodyIsOne(lines: seq<string>)
    requires DigitLines(lines)
    ensures forall i :: 0 <= i < |Unlines(lines)| ==> IsBodyChar(Unlines(lines)[i])
  {
    if lines != [] {
      assert lines[0] in lines;
      BodyIsOne(lines[1..]);
    }
  }

  lemma {:induction false} DigitsStay(l: string)
    requires forall i :: 0 <= i < |l| ==> !IsAsciiSpace(l[i])
    ensures WithoutSpaces(l) == l
  {
    if l != "" { DigitsStay(l[1..]); }
  }

  lemma {:induction false} SpacesOfBoth(a: string, b: string)
    ensures WithoutSpaces(a + b) == WithoutSpaces(a) + WithoutSpaces(b)
  {
    if a == "" {
      EmptyPlus(b);
      EmptyPlus(WithoutSpaces(b));
    } else {
      ConsConcat(a, b);
      SpacesOfBoth(a[1..], b);
      Assoc(if IsAsciiSpace(a[0]) then "" else [a[0]], WithoutSpaces(a[1..]), WithoutSpaces(b));
    }
  }

  lemma BodyOf(p: PemBlock)
    requires p.Written()
    ensures var body := "\n" + Unlines(p.lines);
      WellFormed(p.kind, body) && p.Text() == Written(p.kind, body) && WithoutSpaces(body) == Digits(p.lines)
  {
    SpacesGo(p.lines);
    BodyIsOne(p.lines);
    SpacesOfBoth("\n", Unlines(p.lines));
    assert "\n"[1..] == "";
    EmptyPlus(Digits(p.lines));
  }

  /** What a block adds to what is read: itself and its certificates, or that something was dropped. */
  lemma BlockIsRead(gap: string, p: PemBlock, rest: string, decode: Decoder)
    requires AllSpace(gap) && p.Written()
    ensures var read := Read(gap + p.Text() + rest, decode); var more := Read(rest, decode);
      && (forall der :: p.Holds(der, decode) ==>
            read == Pem([p.Text()] + more.blocks, der + more.der, more.dropped))
      && ((forall der :: !p.Holds(der, decode)) ==> read == Pem(more.blocks, more.der, true))
  {
    hide BlockAt, AllSpace, Read, WellFormed, Written, Accepted;
    var text := gap + p.Text() + rest;
    var body := "\n" + Unlines(p.lines);
    BodyOf(p);
    WrittenAt(text, gap, p.kind, body, rest);
    Assoc(gap, p.Text(), rest);
    NoBlockInSpace(gap, p.Text() + rest);
    ReadFirst(text, decode);
    Cut(gap, p.Text(), rest);
    var b := BlockAt(text, |gap|).value;
    var der := BlockDer(b.kind, b.body, decode);
    EmptyPlus(Read(rest, decode).blocks);
    EmptyPlus(Read(rest, decode).der);
    if decode(Digits(p.lines)).Some? { assert der != [] ==> p.Holds(decode(Digits(p.lines)).value, decode); }
    NothingIsNotAccepted();
  }

  lemma NothingIsNotAccepted()
    ensures !Accepted([])
  {
  }

  lemma WrittenAt(text: string, gap: string, kind: string, body: string, rest: string)
    requires WellFormed(kind, body) && text == gap + Written(kind, body) + rest
    ensures BlockAt(text, |gap|) == Some(Block(|gap|, |gap| + |Written(kind, body)|, kind, body))
  {
    hide BlockAt, WellFormed, Written;
    var w := Written(kind, body);
    Within(gap, w, rest, 0, |w|);
    assert w[0..|w|] == w;
    WrittenIsABlock(text, |gap|, kind, body);
  }

  /** Blocks one after another, the first behind this gap, the others each on lines of its own. */
  function TextOf(blocks: seq<PemBlock>, gap: string): string {
    if blocks == [] then gap else gap + blocks[0].Text() + TextOf(blocks[1..], "\n")
  }

  function All(ders: seq<seq<byte>>): seq<byte> {
    if ders == [] then [] else ders[0] + All(ders[1..])
  }

  function Texts(blocks: seq<PemBlock>): seq<string> {
    if blocks == [] then [] else [blocks[0].Text()] + Texts(blocks[1..])
  }

  /** A file of certificate blocks gives their certificates, in order, and drops nothing. */
  lemma {:induction false} CertificatesAreRead(blocks: seq<PemBlock>, ders: seq<seq<byte>>, gap: string, decode: Decoder)
    requires |ders| == |blocks| && AllSpace(gap)
    requires forall i :: 0 <= i < |blocks| ==> blocks[i].Written() && blocks[i].Holds(ders[i], decode)
    ensures Read(TextOf(blocks, gap), decode) == Pem(Texts(blocks), All(ders), false)
  {
    hide Read, Accepted;
    if blocks == [] {
      SpaceHoldsNothing(gap, decode);
    } else {
      CertificatesAreRead(blocks[1..], ders[1..], "\n", decode);
      BlockIsRead(gap, blocks[0], TextOf(blocks[1..], "\n"), decode);
    }
  }
}
