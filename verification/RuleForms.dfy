/** What the core is given for each form a rule can have, and for which the page accepts it. */
module RuleForms {
  import opened Text
  import opened BypassRules

  /** A text as a rule is made of: not empty, no space around it, and no wildcard in front. */
  predicate IsBareRule(d: string) { d != "" && IsTrimmed(d) && d[0] != '.' && !(|d| >= 2 && d[0] == '*' && d[1] == '.') }

  /** A domain name, which no address is. */
  predicate IsName(d: string, q: Parsers) { IsBareRule(d) && q.isDomain(d) && '.' in d && '/' !in d && !q.isAddress(d) }

  function InAscii(d: string, q: Parsers): string { if q.toAce(d) == "" then d else q.toAce(d) }

  lemma NoSlash(s: string)
    requires '/' !in s
    ensures IndexOf(s, '/', 0) == |s| && s[..|s|] == s
  {
  }

  lemma Signs(s: string)
    ensures At(s, 0, "*.") <==> |s| >= 2 && s[0] == '*' && s[1] == '.'
    ensures At(s, 0, ".") <==> |s| >= 1 && s[0] == '.'
  {
    if |s| >= 2 { assert s[0..2] == [s[0], s[1]]; }
    if |s| >= 1 { assert s[0..1] == [s[0]]; }
  }

  lemma Wild(d: string)
    requires IsBareRule(d)
    ensures Wildcard(d) == 0 && Wildcard("*." + d) == 2 && Wildcard("." + d) == 1
    ensures IsTrimmed("*." + d) && IsTrimmed("." + d) && ("*." + d)[2..] == d && ("." + d)[1..] == d && d[0..] == d
  {
    Signs(d);
    Signs("*." + d);
    Signs("." + d);
  }

  /** A name is given in its ASCII form, alone, and with "*." in front for all names under it, which
      "*." and "." both mean. */
  lemma NamesAreGiven(d: string, q: Parsers)
    requires IsName(d, q)
    ensures CoreRule(d, q) == InAscii(d, q)
    ensures CoreRule("*." + d, q) == "*." + InAscii(d, q) && CoreRule("." + d, q) == "*." + InAscii(d, q)
    ensures IsValidRule(d, q) && IsValidRule("*." + d, q) && IsValidRule("." + d, q)
  {
    Wild(d);
    NoSlash(d);
  }

  /** An address is given as it is; a wildcard in front of one makes it nothing. */
  lemma AddressesAreGiven(a: string, q: Parsers)
    requires IsBareRule(a) && '/' !in a && q.isAddress(a)
    ensures CoreRule(a, q) == a && CoreRule("*." + a, q) == "" && CoreRule("." + a, q) == ""
    ensures IsValidRule(a, q) && !IsValidRule("*." + a, q) && !IsValidRule("." + a, q)
    ensures SubnetPrefix(a, q) == if ':' in a then 128 else 32
  {
    Wild(a);
    NoSlash(a);
  }

  /** A subnet is given as it is when its prefix is at least one and at most the length of an address
      of its kind, and is nothing otherwise; Settings' routes are the same. */
  lemma SubnetsAreGiven(a: string, n: string, p: int, q: Parsers)
    requires IsBareRule(a + "/" + n) && a != "" && '/' !in a && q.isAddress(a) && q.toInt(n) == Some(p)
    requires !q.isDomain(a + "/" + n)
    ensures var r := a + "/" + n; var fits := 1 <= p && p <= (if ':' in a then 128 else 32);
      && CoreRule(r, q) == (if fits then r else "") && (IsValidRule(r, q) <==> fits) && (IsValidSubnet(r, q) <==> fits)
  {
    var r := a + "/" + n;
    Wild(r);
    assert r[|a|] == '/';
    assert forall j :: 0 <= j < |a| ==> r[j] == a[j];
    assert IndexOf(r, '/', 0) == |a|;
    assert r[..|a|] == a && r[|a| + 1..] == n;
  }

  /** What is no address, with a prefix or without, is no subnet; nor is an address with a prefix that is
      no number. */
  lemma OthersAreNoSubnets(a: string, n: string, q: Parsers)
    requires '/' !in a && (!q.isAddress(a) || q.toInt(n).None?)
    ensures !IsValidSubnet(a + "/" + n, q) && (!q.isAddress(a) ==> !IsValidSubnet(a, q))
    ensures !q.isDomain(Trim(a + "/" + n)) && IsBareRule(a + "/" + n) ==> CoreRule(a + "/" + n, q) == ""
  {
    var r := a + "/" + n;
    assert r[|a|] == '/';
    assert forall j :: 0 <= j < |a| ==> r[j] == a[j];
    assert IndexOf(r, '/', 0) == |a|;
    assert r[..|a|] == a && r[|a| + 1..] == n;
    NoSlash(a);
    if IsBareRule(r) { Wild(r); }
  }
}
