/** The domain and address rules of split tunnelling: which are valid, what the core is given
    for them, and the lists kept of them (BypassRules.cpp, BackendSplit.cpp). */
module BypassRules {
  import opened Text

  /** Qt's own parsers: an IP address, a whole number, a domain name, and a name's ASCII form. */
  datatype Parsers = Parsers(isAddress: string -> bool, toInt: string -> Option<int>, isDomain: string -> bool,
                             toAce: string -> string)

  /** A domain name has a dot in it. */
  ghost predicate DomainsHaveDots(q: Parsers) {
    forall r :: q.isDomain(r) ==> '.' in r
  }

  // ---------- one rule ----------

  function MaxPrefix(address: string): int { if ':' in address then 128 else 32 }

  /** An address, or a subnet that is not every address of its kind. */
  predicate IsIpRule(rule: string, q: Parsers) {
    var slash := IndexOf(rule, '/', 0);
    var address := rule[..slash];
    q.isAddress(address) &&
    (slash == |rule| ||
     match q.toInt(rule[slash + 1..])
     case None => false
     case Some(p) => 0 < p <= MaxPrefix(address))
  }

  /** The prefix of an address or subnet; negative when it is neither. */
  function SubnetPrefix(r: string, q: Parsers): int {
    var slash := IndexOf(r, '/', 0);
    var address := r[..slash];
    if !q.isAddress(address) then -1
    else if slash == |r| then MaxPrefix(address)
    else
      match q.toInt(r[slash + 1..])
      case None => -1
      case Some(p) => if p <= MaxPrefix(address) then p else -1
  }

  predicate IsValidSubnet(r: string, q: Parsers) { SubnetPrefix(r, q) > 0 }

  predicate IsEveryAddress(rule: string, q: Parsers) {
    var r := Trim(rule);
    var slash := IndexOf(r, '/', 0);
    0 < slash < |r| && q.toInt(r[slash + 1..]) == Some(0) && q.isAddress(r[..slash])
  }

  /** How many characters say that the rule is for all names under a domain. */
  function Wildcard(rule: string): (n: nat)
    ensures n <= |rule|
  {
    if At(rule, 0, "*.") then 2 else if At(rule, 0, ".") then 1 else 0
  }

  predicate IsValidRule(rule: string, q: Parsers) {
    var n := Wildcard(rule);
    var r := rule[n..];
    r != "" && if IsIpRule(r, q) then n == 0 else q.isDomain(r)
  }

  function AsciiHost(host: string, q: Parsers): string { if q.toAce(host) == "" then host else q.toAce(host) }

  /** What the core is given for the rule; nothing when it would refuse it. */
  function CoreRule(rule: string, q: Parsers): string {
    var t := Trim(rule);
    var n := Wildcard(t);
    var r := t[n..];
    if t == "" then ""
    else if IsIpRule(r, q) then (if n > 0 then "" else t)
    else if '.' !in r then ""
    else if !q.isDomain(r) then ""
    else if n > 0 then "*." + AsciiHost(r, q)
    else AsciiHost(r, q)
  }

  /** What the page accepts is just what the core can use. */
  lemma ValidIffUsable(rule: string, q: Parsers)
    requires IsTrimmed(rule) && DomainsHaveDots(q)
    ensures IsValidRule(rule, q) <==> CoreRule(rule, q) != ""
  {
  }

  /** A route Settings accepts is not every address. */
  lemma ValidSubnetIsNotEveryAddress(r: string, q: Parsers)
    requires IsTrimmed(r) && IsValidSubnet(r, q)
    ensures !IsEveryAddress(r, q)
  {
  }

  // ---------- lists ----------

  /** The rules the core can use, trimmed, each once, after those already taken. */
  function SanitizedAfter(out: seq<string>, rules: seq<string>, q: Parsers): seq<string>
    decreases |rules|
  {
    if rules == [] then out
    else
      var t := Trim(rules[0]);
      SanitizedAfter(if t == "" || CoreRule(t, q) == "" || t in out then out else out + [t], rules[1..], q)
  }

  function Sanitized(rules: seq<string>, q: Parsers): seq<string> { SanitizedAfter([], rules, q) }

  method SanitizedBypassRules(rules: seq<string>, q: Parsers) returns (out: seq<string>)
    ensures out == Sanitized(rules, q)
  {
    out := [];
    assert rules[0..] == rules;
    for k := 0 to |rules|
      invariant SanitizedAfter(out, rules[k..], q) == Sanitized(rules, q)
    {
      var trimmed := Trim(rules[k]);
      Tail(rules, k);
      if trimmed == "" || CoreRule(trimmed, q) == "" || trimmed in out {
        continue;
      }
      out := out + [trimmed];
    }
  }

  /** Every rule usable and written without space around it, and none twice. */
  predicate IsClean(rules: seq<string>, q: Parsers) {
    NoDuplicates(rules) && forall r :: r in rules ==> r != "" && IsTrimmed(r) && CoreRule(r, q) != ""
  }

  lemma CleanGrows(out: seq<string>, t: string, q: Parsers)
    requires IsClean(out, q) && t !in out && t != "" && IsTrimmed(t) && CoreRule(t, q) != ""
    ensures IsClean(out + [t], q)
  {
    hide CoreRule, IsTrimmed;
  }

  lemma {:induction false} SanitizedIsClean(out: seq<string>, rules: seq<string>, q: Parsers)
    requires IsClean(out, q)
    ensures IsClean(SanitizedAfter(out, rules, q), q)
    decreases |rules|
  {
    hide IsClean, CoreRule, IsTrimmed;
    if rules != [] {
      var t := Trim(rules[0]);
      if t == "" || CoreRule(t, q) == "" || t in out {
        SanitizedIsClean(out, rules[1..], q);
      } else {
        CleanGrows(out, t, q);
        SanitizedIsClean(out + [t], rules[1..], q);
      }
    }
  }

  lemma {:induction false} CleanStays(out: seq<string>, rules: seq<string>, q: Parsers)
    requires IsClean(out + rules, q)
    ensures SanitizedAfter(out, rules, q) == out + rules
    decreases |rules|
  {
    hide CoreRule, IsTrimmed;
    if rules == [] {
      RightUnit(out);
    } else {
      var t := rules[0];
      assert (out + rules)[|out|] == t;
      assert t in out + rules;
      assert forall i :: 0 <= i < |out| ==> out[i] == (out + rules)[i];
      Cons(rules);
      Assoc(out, [t], rules[1..]);
      CleanStays(out + [t], rules[1..], q);
    }
  }

  /** The lists sanitizing leaves as they are. */
  lemma CleanIffFixed(rules: seq<string>, q: Parsers)
    ensures IsClean(rules, q) <==> Sanitized(rules, q) == rules
    ensures Sanitized(Sanitized(rules, q), q) == Sanitized(rules, q)
  {
    EmptyPlus(rules);
    EmptyPlus(Sanitized(rules, q));
    SanitizedIsClean([], rules, q);
    CleanStays([], Sanitized(rules, q), q);
    if IsClean(rules, q) { CleanStays([], rules, q); }
  }

  // ---------- what the core is given ----------

  function CoreRulesAfter(out: seq<string>, rules: seq<string>, q: Parsers): seq<string>
    decreases |rules|
  {
    if rules == [] then out
    else
      var core := CoreRule(rules[0], q);
      CoreRulesAfter(if core == "" || core in out then out else out + [core], rules[1..], q)
  }

  function CoreRules(rules: seq<string>, q: Parsers): seq<string> { CoreRulesAfter([], rules, q) }

  method CoreBypassRules(rules: seq<string>, q: Parsers) returns (out: seq<string>)
    ensures out == CoreRules(rules, q)
  {
    hide CoreRule;
    out := [];
    assert rules[0..] == rules;
    for k := 0 to |rules|
      invariant CoreRulesAfter(out, rules[k..], q) == CoreRules(rules, q)
    {
      var core := CoreRule(rules[k], q);
      Tail(rules, k);
      if core != "" && core !in out {
        out := out + [core];
      }
    }
  }

  predicate Gives(rules: seq<string>, core: string, q: Parsers) {
    exists i :: 0 <= i < |rules| && CoreRule(rules[i], q) == core
  }

  lemma GivesFirst(rules: seq<string>, core: string, q: Parsers)
    requires rules != []
    ensures Gives(rules, core, q) <==> CoreRule(rules[0], q) == core || Gives(rules[1..], core, q)
  {
  }

  /** Each usable rule is given once, and nothing else. */
  lemma {:induction false} CoreRulesAre(out: seq<string>, rules: seq<string>, q: Parsers)
    requires NoDuplicates(out)
    ensures NoDuplicates(CoreRulesAfter(out, rules, q))
    ensures forall c :: c in CoreRulesAfter(out, rules, q) <==> c in out || (c != "" && Gives(rules, c, q))
    decreases |rules|
  {
    hide CoreRule, Gives;
    if rules != [] {
      var core := CoreRule(rules[0], q);
      var next := if core == "" || core in out then out else out + [core];
      CoreRulesAre(next, rules[1..], q);
      forall c ensures c in CoreRulesAfter(out, rules, q) <==> c in out || (c != "" && Gives(rules, c, q)) {
        GivesFirst(rules, c, q);
      }
    } else {
      forall c ensures !Gives(rules, c, q) { NothingGives(c, q); }
    }
  }

  lemma NothingGives(core: string, q: Parsers)
    ensures !Gives([], core, q)
  {
  }

  /** No usable rule is lost, and a list gives something just when a rule in it can be used. */
  lemma CoreRulesOf(rules: seq<string>, q: Parsers)
    ensures NoDuplicates(CoreRules(rules, q)) && "" !in CoreRules(rules, q)
    ensures forall c :: c in CoreRules(rules, q) <==> c != "" && Gives(rules, c, q)
    ensures CoreRules(rules, q) != [] <==> exists i :: 0 <= i < |rules| && CoreRule(rules[i], q) != ""
  {
    hide CoreRule;
    CoreRulesAre([], rules, q);
    if CoreRules(rules, q) != [] { assert CoreRules(rules, q)[0] in CoreRules(rules, q); }
    if i :| 0 <= i < |rules| && CoreRule(rules[i], q) != "" { assert Gives(rules, CoreRule(rules[i], q), q); }
  }
}
