/** Certificates in DER, told by their shape, and chains of them written back to back. */
module DerCertificates {
  import opened Text

  type byte = x: int | 0 <= x < 0x100

  newtype int32 = x: int | -0x8000_0000 <= x < 0x8000_0000
  newtype int64 = x: int | -0x8000_0000_0000_0000 <= x < 0x8000_0000_0000_0000

  const SEQUENCE: byte := 0x30
  const BIT_STRING: byte := 0x03
  const FIELDS: seq<byte> := [SEQUENCE, SEQUENCE, BIT_STRING]

  /** Positions are ints in the source; no chain is larger. */
  const MAX_SIZE: nat := 0x7FFF_FFFF - 4

  // ---------- one element ----------

  /** Where an element's content starts and where the element ends. */
  datatype Element = Element(content: nat, end: nat)

  /** The bytes as one big-endian number. */
  function Number(bytes: seq<byte>): nat {
    if bytes == [] then 0 else Number(bytes[..|bytes| - 1]) * 256 + bytes[|bytes| - 1]
  }

  /** How many bytes the length takes after its first one; None for the indefinite form and
      for more than four. */
  function LengthBytes(first: byte): (r: Option<nat>)
    ensures r.Some? ==> r.value <= 4
  {
    if first < 0x80 then Some(0)
    else if first == 0x80 || first > 0x84 then None
    else Some(first - 0x80)
  }

  /** The element with this tag at `pos`: tag, definite length, content (section 8.1.3 of X.690). */
  function ElementAt(der: seq<byte>, pos: nat, tag: byte): (r: Option<Element>)
    ensures r.Some? ==> pos + 2 <= r.value.content <= r.value.end <= |der|
  {
    if pos + 2 > |der| || der[pos] != tag then None
    else
      var first := der[pos + 1];
      var more := LengthBytes(first);
      if more.None? || pos + 2 + more.value > |der| then None
      else
        var content := pos + 2 + more.value;
        var end := content + if first < 0x80 then first else Number(der[pos + 2..content]);
        if end > |der| then None else Some(Element(content, end))
  }

  /** Computed in the source's integer widths without leaving them; -1 for no element. */
  method DerElementEnd(der: seq<byte>, pos: int32, tag: byte) returns (end: int32, content: int32)
    requires |der| <= MAX_SIZE && 0 <= pos as int <= |der|
    ensures match ElementAt(der, pos as int, tag)
      case None => end == -1
      case Some(e) => end as int == e.end && content as int == e.content
  {
    content := 0;
    var size := |der| as int64;
    if (pos + 2) as int64 > size || der[pos] != tag {
      return -1, 0;
    }
    var first := der[pos + 1];
    var header: int32 := 2;
    var length := first as int64;
    if first >= 0x80 {
      var count := (first - 0x80) as int32;
      if count == 0 || count > 4 || (pos + 2 + count) as int64 > size {
        return -1, 0;
      }
      length := 0;
      ghost var start := pos as int + 2;
      for i: int32 := 0 to count
        invariant length as int == Number(der[start..start + i as int]) < Power(i as int)
      {
        TakeNumber(der, start, i as int);
        length := length * 256 + der[pos + 2 + i] as int64;
      }
      header := 2 + count;
    }
    var last := pos as int64 + header as int64 + length;
    if last > size {
      return -1, 0;
    }
    return last as int32, pos + header;
  }

  /** 256 to the power of i, as far as it is needed. */
  function Power(i: nat): nat {
    if i == 0 then 1 else if i == 1 then 0x100 else if i == 2 then 0x1_0000
    else if i == 3 then 0x100_0000 else 0x1_0000_0000
  }

  lemma TakeNumber(der: seq<byte>, start: nat, i: nat)
    requires start + i < |der|
    ensures Number(der[start..start + i + 1]) == Number(der[start..start + i]) * 256 + der[start + i]
  {
    var s := der[start..start + i + 1];
    assert s[..|s| - 1] == der[start..start + i];
  }

  /** An element does not depend on what stands before and after it. */
  lemma ElementElsewhere(before: seq<byte>, x: seq<byte>, pos: nat, tag: byte, after: seq<byte>)
    requires ElementAt(x, pos, tag).Some?
    ensures var e := ElementAt(x, pos, tag).value;
      ElementAt(before + x + after, |before| + pos, tag) == Some(Element(|before| + e.content, |before| + e.end))
  {
    var e := ElementAt(x, pos, tag).value;
    Within(before, x, after, pos, pos);
    Within(before, x, after, pos + 1, pos + 1);
    Within(before, x, after, pos + 2, e.content);
  }

  lemma Within<T>(before: seq<T>, x: seq<T>, after: seq<T>, i: nat, j: nat)
    requires i <= j <= |x|
    ensures var y := before + x + after;
      |y| >= |before| + |x| && y[|before| + i..|before| + j] == x[i..j] && (i < |x| ==> y[|before| + i] == x[i])
  {
  }

  /** Nor on what the bytes behind it are: cut there, it is the same element. */
  lemma ElementCut(der: seq<byte>, pos: nat, tag: byte)
    requires ElementAt(der, pos, tag).Some?
    ensures var end := ElementAt(der, pos, tag).value.end; ElementAt(der[..end], pos, tag) == ElementAt(der, pos, tag)
  {
    var e := ElementAt(der, pos, tag).value;
    assert der[..e.end][pos + 2..e.content] == der[pos + 2..e.content];
  }

  lemma ElementShifts(der: seq<byte>, pos: nat, tag: byte)
    requires pos <= |der|
    ensures match ElementAt(der[pos..], 0, tag)
      case None => ElementAt(der, pos, tag).None?
      case Some(e) => ElementAt(der, pos, tag) == Some(Element(pos + e.content, pos + e.end))
  {
    var x := der[pos..];
    if 2 <= |x| {
      var more := LengthBytes(x[1]);
      if more.Some? && 2 + more.value <= |x| {
        assert x[2..2 + more.value] == der[pos + 2..pos + 2 + more.value];
      }
    }
  }

  // ---------- one certificate ----------

  /** Where the fields with these tags, one after another from `at`, end. */
  function FieldsEnd(der: seq<byte>, at: nat, tags: seq<byte>): (r: Option<nat>)
    ensures r.Some? && at <= |der| ==> at <= r.value <= |der|
    decreases tags
  {
    if tags == [] then Some(at)
    else
      match ElementAt(der, at, tags[0])
      case None => None
      case Some(e) =>
        if tags[0] == BIT_STRING && e.end == e.content then None else FieldsEnd(der, e.end, tags[1..])
  }

  /** One SEQUENCE of two SEQUENCEs and a BIT STRING that is not empty, and nothing else
      (section 4.1 of RFC 5280). */
  predicate IsCertificate(der: seq<byte>) {
    match ElementAt(der, 0, SEQUENCE)
    case None => false
    case Some(e) => e.end == |der| && FieldsEnd(der, e.content, FIELDS) == Some(|der|)
  }

  /** The bytes are one element with this tag. */
  predicate IsElement(x: seq<byte>, tag: byte) {
    var e := ElementAt(x, 0, tag);
    e.Some? && e.value.end == |x|
  }

  function Content(x: seq<byte>, tag: byte): seq<byte>
    requires IsElement(x, tag)
  {
    x[ElementAt(x, 0, tag).value.content..]
  }

  /** Certificate ::= SEQUENCE { tbsCertificate, signatureAlgorithm, signatureValue }. */
  ghost predicate HasThreeFields(der: seq<byte>, tbs: seq<byte>, algorithm: seq<byte>, signature: seq<byte>) {
    && IsElement(der, SEQUENCE) && Content(der, SEQUENCE) == tbs + algorithm + signature
    && IsElement(tbs, SEQUENCE) && IsElement(algorithm, SEQUENCE)
    && IsElement(signature, BIT_STRING) && Content(signature, BIT_STRING) != []
  }

  lemma CutOut(der: seq<byte>, pos: nat, tag: byte)
    requires ElementAt(der, pos, tag).Some?
    ensures var e := ElementAt(der, pos, tag).value;
      var x := der[pos..e.end];
      IsElement(x, tag) && Content(x, tag) == der[e.content..e.end]
  {
    var e := ElementAt(der, pos, tag).value;
    ElementCut(der, pos, tag);
    ElementShifts(der[..e.end], pos, tag);
    assert der[..e.end][pos..] == der[pos..e.end];
  }

  lemma PutIn(before: seq<byte>, x: seq<byte>, tag: byte, after: seq<byte>)
    requires IsElement(x, tag)
    ensures ElementAt(before + x + after, |before|, tag)
            == Some(Element(|before| + ElementAt(x, 0, tag).value.content, |before| + |x|))
  {
    ElementElsewhere(before, x, 0, tag, after);
  }

  /** The check accepts just what the certificate's grammar describes. */
  lemma CertificateIffThreeFields(der: seq<byte>)
    ensures IsCertificate(der) <==> exists a, b, c :: HasThreeFields(der, a, b, c)
  {
    if IsCertificate(der) {
      var a, b, c := FieldsOf(der);
    }
    if a, b, c :| HasThreeFields(der, a, b, c) {
      ThreeFieldsMakeOne(der, a, b, c);
    }
  }

  lemma FieldsOf(der: seq<byte>) returns (a: seq<byte>, b: seq<byte>, c: seq<byte>)
    requires IsCertificate(der)
    ensures HasThreeFields(der, a, b, c)
  {
    var at := ElementAt(der, 0, SEQUENCE).value.content;
    FieldByField(der, at);
    var first := ElementAt(der, at, SEQUENCE).value.end;
    var second := ElementAt(der, first, SEQUENCE).value.end;
    CutOut(der, at, SEQUENCE);
    CutOut(der, first, SEQUENCE);
    CutOut(der, second, BIT_STRING);
    a, b, c := der[at..first], der[first..second], der[second..|der|];
    ThreeSlices(der, at, first, second);
  }

  lemma ThreeSlices(s: seq<byte>, i: nat, j: nat, k: nat)
    requires i <= j <= k <= |s|
    ensures s[i..] == s[i..j] + s[j..k] + s[k..|s|]
  {
  }

  lemma ThreeFieldsMakeOne(der: seq<byte>, a: seq<byte>, b: seq<byte>, c: seq<byte>)
    requires HasThreeFields(der, a, b, c)
    ensures IsCertificate(der)
  {
    var head := der[..ElementAt(der, 0, SEQUENCE).value.content];
    Regroup(head, a, b, c, der);
    PlacedAt(der, head, a, SEQUENCE, b + c);
    PlacedAt(der, head + a, b, SEQUENCE, c);
    PlacedAt(der, head + a + b, c, BIT_STRING, []);
    FieldByField(der, |head|);
  }

  predicate Ends(der: seq<byte>, pos: nat, tag: byte, end: nat, empty: bool) {
    match ElementAt(der, pos, tag)
    case None => false
    case Some(e) => e.end == end && (e.content == end <==> empty)
  }

  lemma PlacedAt(der: seq<byte>, before: seq<byte>, x: seq<byte>, tag: byte, after: seq<byte>)
    requires IsElement(x, tag) && der == before + x + after
    ensures Ends(der, |before|, tag, |before + x|, Content(x, tag) == [])
  {
    PutIn(before, x, tag, after);
  }

  lemma Regroup(head: seq<byte>, a: seq<byte>, b: seq<byte>, c: seq<byte>, der: seq<byte>)
    requires |head| <= |der| && der[..|head|] == head && der[|head|..] == a + b + c
    ensures head + a + (b + c) == der && head + a + b + c == der && head + a + b + c + [] == der
  {
  }

  /** The three fields, one at a time. */
  lemma FieldByField(der: seq<byte>, at: nat)
    ensures FieldsEnd(der, at, FIELDS) == Some(|der|) <==>
      match ElementAt(der, at, SEQUENCE)
      case None => false
      case Some(a) =>
        match ElementAt(der, a.end, SEQUENCE)
        case None => false
        case Some(b) =>
          match ElementAt(der, b.end, BIT_STRING)
          case None => false
          case Some(c) => c.content < c.end == |der|
  {
    assert FIELDS[1..] == [SEQUENCE, BIT_STRING];
    match ElementAt(der, at, SEQUENCE)
    case None =>
    case Some(a) =>
      assert [SEQUENCE, BIT_STRING][1..] == [BIT_STRING];
      assert FieldsEnd(der, at, FIELDS) == FieldsEnd(der, a.end, [SEQUENCE, BIT_STRING]);
      match ElementAt(der, a.end, SEQUENCE)
      case None =>
      case Some(b) =>
        assert [BIT_STRING][1..] == [];
        assert FieldsEnd(der, a.end, [SEQUENCE, BIT_STRING]) == FieldsEnd(der, b.end, [BIT_STRING]);
  }

  method IsCertificateDer(der: seq<byte>) returns (r: bool)
    requires |der| <= MAX_SIZE
    ensures r == IsCertificate(der)
  {
    var end, at := DerElementEnd(der, 0, SEQUENCE);
    if end as int != |der| {
      return false;
    }
    var k := 0;
    while k < |FIELDS|
      invariant 0 <= k <= |FIELDS| && 0 <= at as int <= |der|
      invariant FieldsEnd(der, at as int, FIELDS[k..]) == Some(|der|) <==> IsCertificate(der)
    {
      var tag := FIELDS[k];
      assert FIELDS[k..][1..] == FIELDS[k + 1..] && FIELDS[k..][0] == tag;
      var fieldEnd, content := DerElementEnd(der, at, tag);
      if fieldEnd < 0 || (tag == BIT_STRING && fieldEnd == content) {
        return false;
      }
      at := fieldEnd;
      k := k + 1;
    }
    assert FIELDS[|FIELDS|..] == [];
    return at as int == |der|;
  }

  // ---------- certificates back to back ----------

  /** Certificates one after another to the end, or nothing. */
  predicate BackToBack(der: seq<byte>)
    decreases |der|
  {
    der == [] ||
    match ElementAt(der, 0, SEQUENCE)
    case None => false
    case Some(e) => IsCertificate(der[..e.end]) && BackToBack(der[e.end..])
  }

  predicate Accepted(der: seq<byte>) { der != [] && BackToBack(der) }

  method CertificatesBackToBack(der: seq<byte>) returns (r: bool)
    requires |der| <= MAX_SIZE
    ensures r == Accepted(der)
  {
    var pos: int32 := 0;
    assert der[0..] == der;
    while pos as int < |der|
      invariant 0 <= pos as int <= |der|
      invariant BackToBack(der) == BackToBack(der[pos..])
      decreases |der| - pos as int
    {
      var end, _ := DerElementEnd(der, pos, SEQUENCE);
      NextCertificate(der, pos as int);
      if end <= pos {
        return false;
      }
      var certificate := IsCertificateDer(der[pos..end]);
      if !certificate {
        return false;
      }
      pos := end;
    }
    return pos > 0;
  }

  lemma NextCertificate(der: seq<byte>, pos: nat)
    requires pos < |der|
    ensures BackToBack(der[pos..]) <==>
      match ElementAt(der, pos, SEQUENCE)
      case None => false
      case Some(e) => IsCertificate(der[pos..e.end]) && BackToBack(der[e.end..])
  {
    var x := der[pos..];
    ElementShifts(der, pos, SEQUENCE);
    var e := ElementAt(x, 0, SEQUENCE);
    if e.Some? {
      CutAfter(der, pos, e.value.end);
    }
  }

  lemma CutAfter<T>(s: seq<T>, pos: nat, n: nat)
    requires pos + n <= |s|
    ensures s[pos..][..n] == s[pos..pos + n] && s[pos..][n..] == s[pos + n..]
  {
  }

  function Concat(parts: seq<seq<byte>>): seq<byte> {
    if parts == [] then [] else parts[0] + Concat(parts[1..])
  }

  ghost predicate AllCertificates(parts: seq<seq<byte>>) {
    forall p :: p in parts ==> IsCertificate(p)
  }

  /** The certificates the bytes are cut into. */
  function Parts(der: seq<byte>): seq<seq<byte>>
    requires BackToBack(der)
    decreases |der|
  {
    if der == [] then []
    else
      var end := ElementAt(der, 0, SEQUENCE).value.end;
      [der[..end]] + Parts(der[end..])
  }

  lemma {:induction false} PartsAreTheBytes(der: seq<byte>)
    requires BackToBack(der)
    ensures AllCertificates(Parts(der)) && Concat(Parts(der)) == der
    ensures der != [] ==> |Parts(der)| >= 1
    decreases |der|
  {
    if der != [] {
      var end := ElementAt(der, 0, SEQUENCE).value.end;
      var rest := Parts(der[end..]);
      PartsAreTheBytes(der[end..]);
      assert ([der[..end]] + rest)[1..] == rest;
      assert der == der[..end] + der[end..];
    }
  }

  /** A certificate at the front is cut off just where it ends. */
  lemma CutWhereItEnds(c: seq<byte>, rest: seq<byte>)
    requires IsCertificate(c)
    ensures ElementAt(c + rest, 0, SEQUENCE) == ElementAt(c, 0, SEQUENCE)
    ensures (c + rest)[..|c|] == c && (c + rest)[|c|..] == rest
    ensures BackToBack(c + rest) == BackToBack(rest)
  {
    ElementElsewhere([], c, 0, SEQUENCE, rest);
    EmptyPlus(c);
  }

  /** Any certificates written one after another are cut into just those: so the bytes are
      accepted, and they can be read in no other way. */
  lemma {:induction false} OnlyOneReading(parts: seq<seq<byte>>)
    requires AllCertificates(parts)
    ensures BackToBack(Concat(parts)) && Parts(Concat(parts)) == parts
    decreases |parts|
  {
    if parts != [] {
      var c, rest := parts[0], parts[1..];
      assert c in parts;
      OnlyOneReading(rest);
      CutWhereItEnds(c, Concat(rest));
      Cons(parts);
    }
  }

  ghost predicate IsChain(der: seq<byte>, parts: seq<seq<byte>>) {
    |parts| >= 1 && AllCertificates(parts) && Concat(parts) == der
  }

  /** Accepted are the concatenations of one or more certificates, and no other bytes. */
  lemma AcceptedIffChain(der: seq<byte>)
    ensures Accepted(der) <==> exists parts :: IsChain(der, parts)
  {
    if Accepted(der) {
      PartsAreTheBytes(der);
      assert IsChain(der, Parts(der));
    }
    if parts :| IsChain(der, parts) {
      OnlyOneReading(parts);
      assert IsCertificate(parts[0]);
    }
  }

  lemma ChainIsUnique(der: seq<byte>, parts: seq<seq<byte>>, parts': seq<seq<byte>>)
    requires IsChain(der, parts) && IsChain(der, parts')
    ensures parts == parts'
  {
    OnlyOneReading(parts);
    OnlyOneReading(parts');
  }

  /** Behind accepted bytes, what follows decides. */
  lemma {:induction false} BehindAChain(a: seq<byte>, b: seq<byte>)
    requires BackToBack(a)
    ensures BackToBack(a + b) == BackToBack(b)
    decreases |a|
  {
    if a == [] {
      EmptyPlus(b);
    } else {
      var end := ElementAt(a, 0, SEQUENCE).value.end;
      var c, rest := a[..end], a[end..];
      CutWhereItEnds(c, rest + b);
      BehindAChain(rest, b);
      Assoc(c, rest, b);
      assert a == c + rest;
    }
  }

  /** Closed under concatenation, and under removing an accepted prefix. */
  lemma ChainsJoinAndPart(a: seq<byte>, b: seq<byte>)
    requires Accepted(a) && b != []
    ensures Accepted(a + b) <==> Accepted(b)
  {
    BehindAChain(a, b);
  }

  /** Every certificate is accepted alone. */
  lemma OneIsEnough(c: seq<byte>)
    requires IsCertificate(c)
    ensures Accepted(c)
  {
    RightUnit(c);
    CutWhereItEnds(c, []);
  }

  /** A private key is no certificate: PKCS#8, PKCS#1 and SEC1 keys start with an INTEGER. */
  lemma KeysAreNotAccepted(der: seq<byte>, content: nat)
    requires ElementAt(der, 0, SEQUENCE).Some? && content == ElementAt(der, 0, SEQUENCE).value.content
    requires content < |der| && der[content] == 0x02
    ensures !Accepted(der)
  {
  }
}
