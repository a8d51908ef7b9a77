/** What split tunnelling promises, said of the settings themselves: the profile a config has, its
    rules and lists as they are stored, the mode and the switch. */
module RoutingPromises {
  import opened Text
  import opened BypassRules
  import opened AppSettings
  import opened SplitRouting

  // ---------- the settings, and what is pushed for them ----------

  /** The profile is the one the config is assigned to; without one that is there, Default. */
  predicate HasProfile(p: Split, path: string, name: string) {
    var given := path in p.configProfiles && p.configProfiles[path] != "" && p.configProfiles[path] in p.profiles;
    (given ==> name == p.configProfiles[path]) && (!given ==> name == "Default")
  }

  /** A rule of the profile names the connection. */
  ghost predicate RuleNames(p: Split, name: string, q: Parsers, hits: string -> bool) {
    name in p.profiles && exists r :: r in p.profiles[name] && CoreRule(r, q) != "" && hits(CoreRule(r, q))
  }

  /** An enabled list of the profile, of this direction, names the connection. */
  ghost predicate GeoNames(p: Split, name: string, bypass: bool, geo: GeoState, hits: string -> bool) {
    geo.present && name in p.geoLists &&
    exists l, e :: l in p.geoLists[name] && l.enabled && l.bypass == bypass && e in geo.entries(l) && hits(e)
  }

  /** Something can go through the tunnel: a rule the core can use, a program, or an entry of an
      enabled list through it. */
  ghost predicate CanGoThrough(p: Split, name: string, geo: GeoState, q: Parsers, norm: string -> string) {
    || (name in p.profiles && exists r :: r in p.profiles[name] && CoreRule(r, q) != "")
    || (name in p.profileApps && exists a :: a in p.profileApps[name] && norm(a) != "")
    || (geo.present && name in p.geoLists
        && exists l :: l in p.geoLists[name] && l.enabled && !l.bypass && geo.entries(l) != [])
  }

  /** Split tunnelling is on, and the profile's lists are not too large. */
  predicate SplitOn(cfg: Settings, name: string, geo: GeoState) {
    cfg.general.splitEnabled
    && (geo.present && name in cfg.split.geoLists ==> EnabledBytes(cfg.split.geoLists[name], geo) <= 8388608)
  }

  /** The bytes of the enabled lists, as one sum. */
  function EnabledBytes(lists: seq<GeoList>, geo: GeoState): int {
    Sum(seq(|lists|, i requires 0 <= i < |lists| => if lists[i].enabled then geo.bytes(lists[i]) else 0))
  }

  function Sum(numbers: seq<int>): int {
    if numbers == [] then 0 else numbers[|numbers| - 1] + Sum(numbers[..|numbers| - 1])
  }

  /** What is pushed for the active config. */
  function PushFor(cfg: Settings, path: string, geo: GeoState, q: Parsers, norm: string -> string, key: string -> string): Push {
    PushOf(ChosenFor(cfg, path, geo, q), geo, norm, key)
  }

  function RouteFor(cfg: Settings, path: string, geo: GeoState, q: Parsers, norm: string -> string, key: string -> string,
                    hits: string -> bool): Route {
    var push := PushFor(cfg, path, geo, q, norm, key);
    CoreRoute(push.exclusions, push.selective, hits)
  }

  // ---------- the parts ----------

  lemma {:induction false} BytesAreTheSum(lists: seq<GeoList>, geo: GeoState)
    ensures GeoBytes(lists, geo) == EnabledBytes(lists, geo)
  {
    if lists == [] {
    } else {
      var n := |lists| - 1;
      var last, front := lists[n], lists[..n];
      BytesAreTheSum(front, geo);
      BytesOfBoth(front, [last], geo);
      assert front + [last] == lists;
      assert GeoBytes([last], geo) == if last.enabled then geo.bytes(last) else 0 by { assert [last][1..] == []; }
      var all := seq(|lists|, i requires 0 <= i < |lists| => if lists[i].enabled then geo.bytes(lists[i]) else 0);
      assert all[..n] == seq(n, i requires 0 <= i < n => if front[i].enabled then geo.bytes(front[i]) else 0);
    }
  }

  lemma {:induction false} BytesOfBoth(a: seq<GeoList>, b: seq<GeoList>, geo: GeoState)
    ensures GeoBytes(a + b, geo) == GeoBytes(a, geo) + GeoBytes(b, geo)
  {
    if a == [] {
      EmptyPlus(b);
    } else {
      ConsConcat(a, b);
      BytesOfBoth(a[1..], b, geo);
    }
  }

  /** The lists fit just when there are none to ask, or the enabled ones take at most eight MiB. */
  lemma ListsFitIff(lists: seq<GeoList>, geo: GeoState)
    ensures GeoFits(lists, geo) <==> !geo.present || EnabledBytes(lists, geo) <= 8388608
  {
    BytesAreTheSum(lists, geo);
  }

  lemma ChosenIs(cfg: Settings, path: string, geo: GeoState, q: Parsers, name: string)
    requires HasProfile(cfg.split, path, name)
    ensures var c := ChosenFor(cfg, path, geo, q);
      && (c.on <==> SplitOn(cfg, name, geo)) && (c.selective <==> cfg.general.mode == "selective")
      && c.rules == CoreRules(if name in cfg.split.profiles then cfg.split.profiles[name] else [], q)
      && c.apps == (if name in cfg.split.profileApps then cfg.split.profileApps[name] else [])
      && c.lists == (if name in cfg.split.geoLists then cfg.split.geoLists[name] else [])
  {
    hide CoreRules;
    if name in cfg.split.geoLists { ListsFitIff(cfg.split.geoLists[name], geo); }
  }

  lemma RulesAreNamed(p: Split, name: string, q: Parsers, hits: string -> bool)
    ensures var rules := if name in p.profiles then p.profiles[name] else [];
      && (Names(CoreRules(rules, q), hits) <==> RuleNames(p, name, q, hits))
      && (CoreRules(rules, q) != [] <==> exists r :: r in rules && CoreRule(r, q) != "")
  {
    hide CoreRule;
    var rules := if name in p.profiles then p.profiles[name] else [];
    var core := CoreRules(rules, q);
    CoreRulesOf(rules, q);
    if Names(core, hits) {
      var i :| 0 <= i < |core| && hits(core[i]);
      assert core[i] in core && Gives(rules, core[i], q);
      var k :| 0 <= k < |rules| && CoreRule(rules[k], q) == core[i];
      assert rules[k] in rules;
    }
    if RuleNames(p, name, q, hits) {
      var r :| r in rules && CoreRule(r, q) != "" && hits(CoreRule(r, q));
      assert Gives(rules, CoreRule(r, q), q);
      assert CoreRule(r, q) in core;
    }
  }

  lemma ListsAreNamed(p: Split, name: string, bypass: bool, geo: GeoState, hits: string -> bool)
    ensures var lists := if name in p.geoLists then p.geoLists[name] else [];
      ListNames(lists, bypass, geo, hits) <==> GeoNames(p, name, bypass, geo, hits)
  {
    var lists := if name in p.geoLists then p.geoLists[name] else [];
    if GeoNames(p, name, bypass, geo, hits) {
      var l, e :| l in lists && l.enabled && l.bypass == bypass && e in geo.entries(l) && hits(e);
      assert Names(geo.entries(l), hits);
    }
    if ListNames(lists, bypass, geo, hits) {
      var i :| 0 <= i < |lists| && lists[i].enabled && lists[i].bypass == bypass && Names(geo.entries(lists[i]), hits);
      var k :| 0 <= k < |geo.entries(lists[i])| && hits(geo.entries(lists[i])[k]);
      assert lists[i] in lists && geo.entries(lists[i])[k] in geo.entries(lists[i]);
    }
  }

  lemma ThroughIs(c: Chosen, p: Split, name: string, geo: GeoState, q: Parsers, norm: string -> string, key: string -> string)
    requires c.rules == CoreRules(if name in p.profiles then p.profiles[name] else [], q)
    requires c.apps == if name in p.profileApps then p.profileApps[name] else []
    requires c.lists == if name in p.geoLists then p.geoLists[name] else []
    ensures (c.rules != [] || SanitizedApps(c.apps, norm, key) != [] || SomeThrough(c.lists, geo)) <==>
      CanGoThrough(p, name, geo, q, norm)
  {
    hide CoreRule, CoreRules;
    RulesAreNamed(p, name, q, (e: string) => false);
    SomeAppIff(c.apps, {}, norm, key);
    if SomeThrough(c.lists, geo) {
      var i :| 0 <= i < |c.lists| && c.lists[i].enabled && !c.lists[i].bypass && geo.entries(c.lists[i]) != [];
      assert c.lists[i] in c.lists;
    }
  }

  // ---------- where a connection goes ----------

  /** The settings decide, for every connection. With split tunnelling off, or lists too large, all
      goes through the tunnel. A rule of the config's profile sends what it names through the
      tunnel just when the mode is "Through VPN"; then an enabled list does, through it or around
      it; and what nothing names goes around it just when the mode is "Through VPN" and something
      can go through. */
  lemma SettingsDecide(cfg: Settings, path: string, name: string, geo: GeoState, q: Parsers, norm: string -> string,
                       key: string -> string, hits: string -> bool)
    requires HasProfile(cfg.split, path, name) && NoTags(q) && Ordinary(hits)
    ensures var route := RouteFor(cfg, path, geo, q, norm, key, hits); var p := cfg.split;
      var through := cfg.general.mode == "selective";
      && (!SplitOn(cfg, name, geo) ==> route == Tunnel)
      && (SplitOn(cfg, name, geo) ==>
            if RuleNames(p, name, q, hits) then (route == Tunnel <==> through)
            else if GeoNames(p, name, false, geo, hits) then route == Tunnel
            else if GeoNames(p, name, true, geo, hits) then route == Direct
            else route == Direct <==> through && CanGoThrough(p, name, geo, q, norm))
  {
    var p := cfg.split;
    var c := ChosenFor(cfg, path, geo, q);
    ChosenIs(cfg, path, geo, q, name);
    RulesAreNamed(p, name, q, hits);
    ListsAreNamed(p, name, false, geo, hits);
    ListsAreNamed(p, name, true, geo, hits);
    ThroughIs(c, p, name, geo, q, norm, key);
    SettingsAreFollowed(cfg, path, geo, q, norm, key, hits);
    hide ChosenFor, PushOf, CoreRoute, CoreRules, Names, ListNames, SomeThrough, SanitizedApps, RuleNames, GeoNames,
      CanGoThrough, SplitOn;
  }

  /** The programs pushed are those of the config's profile, not of the one on screen, and none with
      split tunnelling off. */
  lemma ProgramsAreTheProfiles(cfg: Settings, path: string, name: string, geo: GeoState, q: Parsers, norm: string -> string,
                               key: string -> string)
    requires HasProfile(cfg.split, path, name)
    ensures var push := PushFor(cfg, path, geo, q, norm, key);
      push.apps == if SplitOn(cfg, name, geo) && name in cfg.split.profileApps then cfg.split.profileApps[name] else []
  {
    ChosenIs(cfg, path, geo, q, name);
    hide ChosenFor, SelectiveActive, SplitOn;
  }

  // ---------- what the helper does with a program ----------

  /** The rules that are left of a list: each is one of the list as it is compared, every usable rule
      has one it is compared equal to, and no two are. */
  lemma {:induction false} AppsLeft(rules: seq<string>, seen: set<string>, norm: string -> string, key: string -> string)
    ensures var out := SanitizedAppsAfter(rules, seen, norm, key);
      && (forall n :: n in out ==> n != "" && key(n) !in seen && IsOf(rules, n, norm))
      && (forall r :: r in rules && norm(r) != "" && key(norm(r)) !in seen ==> HasKey(out, key(norm(r)), key))
      && (forall i, k :: 0 <= i < k < |out| ==> key(out[i]) != key(out[k]))
  {
    if rules != [] {
      var n, rest := norm(rules[0]), rules[1..];
      InFront(rules);
      if n == "" || key(n) in seen {
        AppsLeft(rest, seen, norm, key);
      } else {
        AppsLeft(rest, seen + {key(n)}, norm, key);
        InFront([n] + SanitizedAppsAfter(rest, seen + {key(n)}, norm, key));
        FrontStays(rules, n, SanitizedAppsAfter(rest, seen + {key(n)}, norm, key), seen, norm, key);
      }
    }
  }

  predicate IsOf(rules: seq<string>, n: string, norm: string -> string) {
    exists r :: r in rules && norm(r) == n
  }

  predicate HasKey(out: seq<string>, k: string, key: string -> string) {
    exists n :: n in out && key(n) == k
  }

  lemma InFront(s: seq<string>)
    requires s != []
    ensures forall x :: x in s <==> x == s[0] || x in s[1..]
  {
  }

  lemma FrontStays(rules: seq<string>, n: string, more: seq<string>, seen: set<string>, norm: string -> string,
                   key: string -> string)
    requires rules != [] && n == norm(rules[0]) && n != "" && key(n) !in seen
    requires forall m :: m in more ==> m != "" && key(m) !in seen + {key(n)} && IsOf(rules[1..], m, norm)
    requires forall r :: r in rules[1..] && norm(r) != "" && key(norm(r)) !in seen + {key(n)} ==> HasKey(more, key(norm(r)), key)
    requires forall i, k :: 0 <= i < k < |more| ==> key(more[i]) != key(more[k])
    ensures var out := [n] + more;
      && (forall m :: m in out ==> m != "" && key(m) !in seen && IsOf(rules, m, norm))
      && (forall r :: r in rules && norm(r) != "" && key(norm(r)) !in seen ==> HasKey(out, key(norm(r)), key))
      && (forall i, k :: 0 <= i < k < |out| ==> key(out[i]) != key(out[k]))
  {
    var out := [n] + more;
    assert n in out && rules[0] in rules;
    forall m | m in out ensures m != "" && key(m) !in seen && IsOf(rules, m, norm) {
      if m in more { var r :| r in rules[1..] && norm(r) == m; assert r in rules; }
    }
    forall r | r in rules && norm(r) != "" && key(norm(r)) !in seen ensures HasKey(out, key(norm(r)), key) {
      if key(norm(r)) != key(n) {
        assert r in rules[1..];
        var m :| m in more && key(m) == key(norm(r));
        assert m in out;
      }
    }
    forall i, k | 0 <= i < k < |out| ensures key(out[i]) != key(out[k]) {
      assert out[k] == more[k - 1] && more[k - 1] in more;
    }
  }

  /** What is compared does not depend on how it is spelt. */
  ghost predicate ComparedAlike(norm: string -> string, key: string -> string, matches: string -> bool) {
    && (forall r :: norm(r) != "" ==> norm(norm(r)) == norm(r))
    && (forall a, b :: key(a) == key(b) ==> matches(a) == matches(b))
  }

  /** Some rule of the list names the program. */
  ghost predicate ProgramNamed(rules: seq<string>, norm: string -> string, matches: string -> bool) {
    exists a :: a in rules && norm(a) != "" && matches(norm(a))
  }

  lemma HelperAnswers(rules: seq<string>, selective: bool, norm: string -> string, key: string -> string,
                      matches: string -> bool)
    requires ComparedAlike(norm, key, matches)
    ensures var action := ActionFor(SanitizedApps(rules, norm, key), selective, norm, matches);
      action == if !ProgramNamed(rules, norm, matches) then Default else if selective then ForceTunnel else ForceBypass
  {
    var apps := SanitizedApps(rules, norm, key);
    AppsLeft(rules, {}, norm, key);
    if i :| 0 <= i < |apps| && norm(apps[i]) != "" && matches(norm(apps[i])) {
      assert apps[i] in apps;
      var r :| r in rules && norm(r) == apps[i];
    }
    if a :| a in rules && norm(a) != "" && matches(norm(a)) {
      assert HasKey(apps, key(norm(a)), key);
      var n :| n in apps && key(n) == key(norm(a));
      var i :| 0 <= i < |apps| && apps[i] == n;
      assert IsOf(rules, n, norm);
    }
  }

  lemma NamedCounts(rules: seq<string>, norm: string -> string, key: string -> string, matches: string -> bool)
    ensures ProgramNamed(rules, norm, matches) ==> SanitizedApps(rules, norm, key) != []
  {
    SomeAppIff(rules, {}, norm, key);
  }

  /** Once a config is connected with split tunnelling on: a program some rule of its profile names
      is forced through the tunnel with "Through VPN" and around it with "Bypass VPN"; one that none
      names is left to the other rules. */
  lemma NamedProgramsAreForced(cfg: Settings, path: string, name: string, geo: GeoState, q: Parsers,
                               norm: string -> string, key: string -> string, matches: string -> bool, skipped: bool)
    requires HasProfile(cfg.split, path, name) && ComparedAlike(norm, key, matches)
    ensures var push := PushFor(cfg, path, geo, q, norm, key);
      var action := ConnectionAction(SanitizedApps(push.apps, norm, key), push.selective, skipped, norm, matches);
      if SplitOn(cfg, name, geo) && name in cfg.split.profileApps
         && ProgramNamed(cfg.split.profileApps[name], norm, matches)
      then action == if cfg.general.mode == "selective" then ForceTunnel else ForceBypass
      else action == if skipped && push.selective then ForceTunnel else Default
  {
    var push := PushFor(cfg, path, geo, q, norm, key);
    ProgramsAreTheProfiles(cfg, path, name, geo, q, norm, key);
    ChosenIs(cfg, path, geo, q, name);
    SelectiveWithApps(cfg, path, geo, q, norm, key);
    HelperAnswers(push.apps, push.selective, norm, key, matches);
    NamedCounts(push.apps, norm, key, matches);
    hide PushFor, SplitOn, ChosenFor, PushOf, SanitizedApps, ActionFor, ComparedAlike;
  }

  /** With a program that counts, the mode pushed is the mode chosen. */
  lemma SelectiveWithApps(cfg: Settings, path: string, geo: GeoState, q: Parsers, norm: string -> string, key: string -> string)
    ensures var push := PushFor(cfg, path, geo, q, norm, key); var c := ChosenFor(cfg, path, geo, q);
      SanitizedApps(push.apps, norm, key) != [] ==> (push.selective <==> c.selective) && c.on
  {
    hide SomeThrough, ChosenFor;
  }

  // ---------- what one entry means to the core ----------

  /** An entry that names the connection sends it by its tier, whatever the mode; one without a tag
      against the mode; and nothing that names it leaves it to the mode. */
  lemma OneEntryMeans(entry: string, selective: bool, hits: string -> bool)
    requires Ordinary(hits) && entry != "" && entry[0] != '@'
    ensures CoreRoute([Tagged('0', entry)], selective, hits) == if hits(entry) || !selective then Tunnel else Direct
    ensures CoreRoute([Tagged('2', entry)], selective, hits) == if hits(entry) || !selective then Tunnel else Direct
    ensures CoreRoute([Tagged('1', entry)], selective, hits) == if hits(entry) || selective then Direct else Tunnel
    ensures CoreRoute([Tagged('3', entry)], selective, hits) == if hits(entry) || selective then Direct else Tunnel
    ensures CoreRoute([entry], selective, hits) == if hits(entry) == selective then Tunnel else Direct
    ensures CoreRoute([], selective, hits) == if selective then Direct else Tunnel
  {
    OneTagged('0', entry, selective, hits);
    OneTagged('1', entry, selective, hits);
    OneTagged('2', entry, selective, hits);
    OneTagged('3', entry, selective, hits);
  }

  lemma OneTagged(tier: char, entry: string, selective: bool, hits: string -> bool)
    requires '0' <= tier <= '3' && Ordinary(hits) && entry != ""
    ensures var es := [Tagged(tier, entry)];
      !PlainHits(es, hits) && forall t :: TierHits(es, t, hits) <==> t == tier && hits(entry)
  {
    TaggedIs(tier, entry);
    assert [Tagged(tier, entry)][0] == Tagged(tier, entry);
  }
}
