/** Elements as they are written in DER, by an encoder of their own: each is read as what was written
    (section 8.1.3 of X.690). */
module DerEncoding {
  import opened Text
  import opened DerCertificates

  /** The number in so many bytes, the most significant first. */
  function BigEndian(n: nat, k: nat): (b: seq<byte>)
    ensures |b| == k
  {
    if k == 0 then [] else BigEndian(n / 256, k - 1) + [n % 256]
  }

  function Bound(k: nat): nat { if k == 0 then 1 else 256 * Bound(k - 1) }

  /** The length in one byte, or in so many after a first one. */
  predicate LengthFits(length: nat, k: nat) {
    if k == 0 then length < 128 else k <= 4 && length < Bound(k)
  }

  function WrittenLength(length: nat, k: nat): seq<byte>
    requires LengthFits(length, k)
  {
    if k == 0 then [length] else [128 + k] + BigEndian(length, k)
  }

  /** Tag, length, content. */
  function Written(tag: byte, k: nat, content: seq<byte>): seq<byte>
    requires LengthFits(|content|, k)
  {
    [tag] + WrittenLength(|content|, k) + content
  }

  lemma {:induction false} NumberOfBigEndian(n: nat, k: nat)
    requires n < Bound(k)
    ensures Number(BigEndian(n, k)) == n
  {
    if k > 0 {
      NumberOfBigEndian(n / 256, k - 1);
      var b := BigEndian(n, k);
      assert b[..k - 1] == BigEndian(n / 256, k - 1);
    }
  }

  /** What is written is one element with its tag and its content, however its length is written and
      whatever follows. */
  lemma WrittenIsRead(tag: byte, k: nat, content: seq<byte>, after: seq<byte>)
    requires LengthFits(|content|, k)
    ensures var x := Written(tag, k, content);
      && ElementAt(x + after, 0, tag) == Some(Element(2 + k, 2 + k + |content|))
      && |x| == 2 + k + |content| && (x + after)[2 + k..|x|] == content
      && IsElement(x, tag) && Content(x, tag) == content
  {
    WrittenAnywhere(tag, k, content, after);
    WrittenAnywhere(tag, k, content, []);
    RightUnit(Written(tag, k, content));
  }

  lemma {:induction false} WrittenAnywhere(tag: byte, k: nat, content: seq<byte>, after: seq<byte>)
    requires LengthFits(|content|, k)
    ensures var x := Written(tag, k, content);
      && ElementAt(x + after, 0, tag) == Some(Element(2 + k, 2 + k + |content|))
      && |x| == 2 + k + |content| && (x + after)[2 + k..|x|] == content
  {
    hide ElementAt, WrittenLength;
    var n := |content|;
    var length := WrittenLength(n, k);
    LengthHas(n, k);
    Laid(tag, length, content, after);
    HeadIsRead(Written(tag, k, content) + after, tag, k, n);
  }

  lemma LengthHas(n: nat, k: nat)
    requires LengthFits(n, k)
    ensures var w := WrittenLength(n, k);
      |w| == 1 + k && w[0] == (if k == 0 then n else 128 + k) && (k > 0 ==> w[1..] == BigEndian(n, k))
  {
  }

  /** Bytes that start with a tag and a length are an element when there are as many as it says. */
  lemma HeadIsRead(x: seq<byte>, tag: byte, k: nat, n: nat)
    requires LengthFits(n, k) && |x| >= 2 + k && x[0] == tag
    requires x[1] == (if k == 0 then n else 128 + k) && (k > 0 ==> x[2..2 + k] == BigEndian(n, k))
    ensures ElementAt(x, 0, tag) == if 2 + k + n <= |x| then Some(Element(2 + k, 2 + k + n)) else None
  {
    if k > 0 { NumberOfBigEndian(n, k); }
  }

  lemma {:induction false} Laid(tag: byte, length: seq<byte>, content: seq<byte>, after: seq<byte>)
    requires length != []
    ensures var x, n := [tag] + length + content, 1 + |length|;
      && (x + after)[0] == tag && (x + after)[1] == length[0] && (x + after)[2..n] == length[1..]
      && |x| == n + |content| && (x + after)[n..|x|] == content
  {
  }

  /** Bytes are no element when they have another tag, no length, the indefinite form or a length of
      more than four bytes, or less content than their length says. */
  lemma NoElement(x: seq<byte>, tag: byte)
    requires |x| < 2 || x[0] != tag || x[1] == 0x80 || x[1] > 0x84
    ensures ElementAt(x, 0, tag).None?
  {
  }

  lemma CutShortIsNone(tag: byte, k: nat, content: seq<byte>, n: nat)
    requires LengthFits(|content|, k) && n < |Written(tag, k, content)|
    ensures ElementAt(Written(tag, k, content)[..n], 0, tag).None?
  {
    var length := WrittenLength(|content|, k);
    LengthHas(|content|, k);
    Laid(tag, length, content, []);
    RightUnit(Written(tag, k, content));
    CutIsNone(Written(tag, k, content), tag, k, |content|, n);
  }

  lemma CutIsNone(x: seq<byte>, tag: byte, k: nat, length: nat, n: nat)
    requires LengthFits(length, k) && |x| == 2 + k + length && x[0] == tag && n < |x|
    requires x[1] == (if k == 0 then length else 128 + k) && (k > 0 ==> x[2..2 + k] == BigEndian(length, k))
    ensures ElementAt(x[..n], 0, tag).None?
  {
    if 2 + k <= n {
      assert x[..n][2..2 + k] == x[2..2 + k];
      HeadIsRead(x[..n], tag, k, length);
    } else if n >= 2 {
      assert x[..n][0] == tag && x[..n][1] == x[1];
    }
  }

  /** Every element there is was written so. */
  lemma ReadWasWritten(x: seq<byte>, tag: byte) returns (k: nat)
    requires IsElement(x, tag)
    ensures LengthFits(|Content(x, tag)|, k) && x == Written(tag, k, Content(x, tag))
  {
    var e := ElementAt(x, 0, tag).value;
    k := e.content - 2;
    var n := |Content(x, tag)|;
    if k > 0 {
      BigEndianOfNumber(x[2..e.content]);
      assert x[2..e.content] == BigEndian(n, k);
    }
    HeadOf(x, e.content);
  }

  lemma HeadOf(x: seq<byte>, n: nat)
    requires 2 <= n <= |x|
    ensures x == [x[0]] + ([x[1]] + x[2..n]) + x[n..] && (n == 2 ==> [x[1]] + x[2..n] == [x[1]])
  {
  }

  lemma {:induction false} BigEndianOfNumber(b: seq<byte>)
    ensures Number(b) < Bound(|b|) && BigEndian(Number(b), |b|) == b
  {
    if b != [] {
      var front := b[..|b| - 1];
      BigEndianOfNumber(front);
      assert b == front + [b[|b| - 1]];
    }
  }

  /** A certificate written field by field is one, and one whose signature is empty is not. */
  lemma WrittenCertificateIff(tbs: seq<byte>, algorithm: seq<byte>, signature: seq<byte>, k: nat, a: nat, b: nat, c: nat)
    requires LengthFits(|tbs|, a) && LengthFits(|algorithm|, b) && LengthFits(|signature|, c)
    requires LengthFits(|Written(0x30, a, tbs) + Written(0x30, b, algorithm) + Written(0x03, c, signature)|, k)
    ensures var inside := Written(0x30, a, tbs) + Written(0x30, b, algorithm) + Written(0x03, c, signature);
      var der := Written(0x30, k, inside);
      (IsCertificate(der) <==> signature != []) && (Accepted(der) <==> signature != [])
  {
    var x, y, z := Written(0x30, a, tbs), Written(0x30, b, algorithm), Written(0x03, c, signature);
    var der := Written(0x30, k, x + y + z);
    WrittenIsRead(0x30, a, tbs, []);
    WrittenIsRead(0x30, b, algorithm, []);
    WrittenIsRead(0x03, c, signature, []);
    WrittenIsRead(0x30, k, x + y + z, []);
    if signature != [] {
      assert HasThreeFields(der, x, y, z);
      CertificateIffThreeFields(der);
      OneIsEnough(der);
    } else {
      var head := der[..2 + k];
      Regroup(head, x, y, z, der);
      PlacedAt(der, head, x, SEQUENCE, y + z);
      PlacedAt(der, head + x, y, SEQUENCE, z);
      PlacedAt(der, head + x + y, z, BIT_STRING, []);
      FieldByField(der, |head|);
      NotBackToBack(der);
    }
  }

  lemma NotBackToBack(der: seq<byte>)
    requires IsElement(der, 0x30) && !IsCertificate(der) && der != []
    ensures !Accepted(der)
  {
    assert der[..|der|] == der;
  }
}
