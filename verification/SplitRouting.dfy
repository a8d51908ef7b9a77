/** What split tunnelling pushes to the core and the helper, and what they do with it: nothing
    is routed against what the user asked for, and nothing fails open (BackendSplit.cpp,
    BackendGeo.cpp, AppRules.cpp). */
module SplitRouting {
  import opened Text
  import opened BypassRules
  import opened AppSettings

  // ---------- rules for programs ----------

  /** The rules that are rules, each once by what it is compared by, after those already seen. */
  function SanitizedAppsAfter(rules: seq<string>, seen: set<string>, norm: string -> string, key: string -> string)
      : seq<string>
  {
    if rules == [] then []
    else
      var n := norm(rules[0]);
      if n == "" || key(n) in seen then SanitizedAppsAfter(rules[1..], seen, norm, key)
      else [n] + SanitizedAppsAfter(rules[1..], seen + {key(n)}, norm, key)
  }

  function SanitizedApps(rules: seq<string>, norm: string -> string, key: string -> string): seq<string> {
    SanitizedAppsAfter(rules, {}, norm, key)
  }

  method SanitizedAppRules(rules: seq<string>, norm: string -> string, key: string -> string) returns (out: seq<string>)
    ensures out == SanitizedApps(rules, norm, key)
  {
    out := [];
    var seen: set<string> := {};
    assert rules[0..] == rules;
    EmptyPlus(SanitizedApps(rules, norm, key));
    for k := 0 to |rules|
      invariant out + SanitizedAppsAfter(rules[k..], seen, norm, key) == SanitizedApps(rules, norm, key)
    {
      var n := norm(rules[k]);
      Tail(rules, k);
      if n == "" || key(n) in seen {
        continue;
      }
      Assoc(out, [n], SanitizedAppsAfter(rules[k + 1..], seen + {key(n)}, norm, key));
      seen := seen + {key(n)};
      out := out + [n];
    }
    RightUnit(out);
  }

  /** A list gives a rule just when one in it is a rule. */
  lemma {:induction false} SomeAppIff(rules: seq<string>, seen: set<string>, norm: string -> string, key: string -> string)
    ensures SanitizedAppsAfter(rules, seen, norm, key) != [] <==>
      exists i :: 0 <= i < |rules| && norm(rules[i]) != "" && key(norm(rules[i])) !in seen
  {
    if rules != [] {
      var n := norm(rules[0]);
      var rest := rules[1..];
      if n == "" || key(n) in seen {
        SomeAppIff(rest, seen, norm, key);
        assert forall i :: 0 <= i < |rest| ==> rest[i] == rules[i + 1];
        if i :| 0 <= i < |rules| && norm(rules[i]) != "" && key(norm(rules[i])) !in seen { assert rest[i - 1] == rules[i]; }
        if i :| 0 <= i < |rest| && norm(rest[i]) != "" && key(norm(rest[i])) !in seen { assert rules[i + 1] == rest[i]; }
      } else {
        assert norm(rules[0]) != "" && key(norm(rules[0])) !in seen;
      }
    }
  }

  datatype AppAction = Default | ForceBypass | ForceTunnel

  /** appActionFor(): `matches` says whether the program is the one a rule, as it is compared, names. */
  function ActionFor(rules: seq<string>, selective: bool, norm: string -> string, matches: string -> bool): AppAction {
    if exists i :: 0 <= i < |rules| && norm(rules[i]) != "" && matches(norm(rules[i])) then
      if selective then ForceTunnel else ForceBypass
    else Default
  }

  /** In "Through VPN" a connection that could not be looked at stays in the tunnel. */
  function ConnectionAction(rules: seq<string>, selective: bool, skipped: bool, norm: string -> string,
                            matches: string -> bool): AppAction {
    var action := ActionFor(rules, selective, norm, matches);
    if skipped && selective && action == Default then ForceTunnel else action
  }

  // ---------- what is pushed ----------

  /** What the geo lists hold, when there are any: their entries, and how many bytes they take. */
  datatype GeoState = GeoState(present: bool, entries: GeoList -> seq<string>, bytes: GeoList -> nat)

  const GEO_LIMIT: nat := 8 * 1024 * 1024

  function GeoBytes(lists: seq<GeoList>, geo: GeoState): nat {
    if lists == [] then 0
    else (if lists[0].enabled then geo.bytes(lists[0]) else 0) + GeoBytes(lists[1..], geo)
  }

  predicate GeoFits(lists: seq<GeoList>, geo: GeoState) { !geo.present || GeoBytes(lists, geo) <= GEO_LIMIT }

  method GeoRulesFit(lists: seq<GeoList>, geo: GeoState) returns (fits: bool)
    ensures fits == GeoFits(lists, geo)
  {
    var bytes := 0;
    assert lists[0..] == lists;
    if geo.present {
      for k := 0 to |lists|
        invariant bytes + GeoBytes(lists[k..], geo) == GeoBytes(lists, geo)
      {
        Tail(lists, k);
        if lists[k].enabled {
          bytes := bytes + geo.bytes(lists[k]);
        }
      }
    }
    return bytes <= GEO_LIMIT;
  }

  /** The profile of the active config, and what it has. */
  function ConfigProfile(p: Split, path: string): string {
    if path in p.configProfiles && p.configProfiles[path] != "" && p.configProfiles[path] in p.profiles
    then p.configProfiles[path] else DEFAULT
  }

  datatype Chosen = Chosen(on: bool, selective: bool, rules: seq<string>, apps: seq<string>, lists: seq<GeoList>)

  /** What the user chose for the active config; a switch that is on with lists too large is off. */
  function ChosenFor(cfg: Settings, path: string, geo: GeoState, q: Parsers): Chosen {
    var name := ConfigProfile(cfg.split, path);
    var lists := if name in cfg.split.geoLists then cfg.split.geoLists[name] else [];
    Chosen(cfg.general.splitEnabled && GeoFits(lists, geo), cfg.general.mode == "selective",
           CoreRules(if name in cfg.split.profiles then cfg.split.profiles[name] else [], q),
           if name in cfg.split.profileApps then cfg.split.profileApps[name] else [], lists)
  }

  predicate SomeThrough(lists: seq<GeoList>, geo: GeoState) {
    geo.present && exists i :: 0 <= i < |lists| && lists[i].enabled && !lists[i].bypass && geo.entries(lists[i]) != []
  }

  /** selectiveModeActive() */
  predicate SelectiveActive(c: Chosen, geo: GeoState, norm: string -> string, key: string -> string) {
    c.on && c.selective && (SanitizedApps(c.apps, norm, key) != [] || c.rules != [] || SomeThrough(c.lists, geo))
  }

  function Tagged(tier: char, entry: string): string { ['@', tier, ':'] + entry }

  function TagAll(tier: char, entries: seq<string>): (r: seq<string>)
    ensures |r| == |entries| && forall i :: 0 <= i < |r| ==> r[i] == Tagged(tier, entries[i])
  {
    if entries == [] then [] else [Tagged(tier, entries[0])] + TagAll(tier, entries[1..])
  }

  /** The entries of the enabled lists, tagged with the way each sends what it names. */
  function GeoEntries(lists: seq<GeoList>, geo: GeoState): seq<string> {
    if lists == [] then []
    else
      (if lists[0].enabled then TagAll(if lists[0].bypass then '3' else '2', geo.entries(lists[0])) else [])
      + GeoEntries(lists[1..], geo)
  }

  datatype Push = Push(exclusions: seq<string>, selective: bool, apps: seq<string>)

  /** What applySplitRules() pushes. */
  function PushOf(c: Chosen, geo: GeoState, norm: string -> string, key: string -> string): Push {
    var lists := if geo.present then GeoEntries(c.lists, geo) else [];
    var exclusions :=
      if !c.on then [] else if lists == [] then c.rules else TagAll(if c.selective then '0' else '1', c.rules) + lists;
    Push(exclusions, SelectiveActive(c, geo, norm, key), if c.on then c.apps else [])
  }

  method ApplySplitRules(c: Chosen, geo: GeoState, norm: string -> string, key: string -> string) returns (push: Push)
    ensures push == PushOf(c, geo, norm, key)
  {
    hide SelectiveActive;
    var ex := if c.on then c.rules else [];
    if c.on && geo.present {
      var lists: seq<string> := [];
      assert c.lists[0..] == c.lists;
      EmptyPlus(GeoEntries(c.lists, geo));
      for k := 0 to |c.lists|
        invariant lists + GeoEntries(c.lists[k..], geo) == GeoEntries(c.lists, geo)
      {
        var list := c.lists[k];
        Tail(c.lists, k);
        var rest := GeoEntries(c.lists[k + 1..], geo);
        EmptyPlus(rest);
        if !list.enabled {
          continue;
        }
        var tagged := TagAll(if list.bypass then '3' else '2', geo.entries(list));
        Assoc(lists, tagged, rest);
        lists := lists + tagged;
      }
      RightUnit(lists);
      if lists != [] {
        ex := TagAll(if c.selective then '0' else '1', ex) + lists;
      }
    }
    push := Push(ex, SelectiveActive(c, geo, norm, key), if c.on then c.apps else []);
  }

  // ---------- what the core does with it ----------

  predicate IsTagged(entry: string) { |entry| > 3 && entry[0] == '@' && '0' <= entry[1] <= '3' && entry[2] == ':' }

  /** An entry of this tier names the connection; `hits` says it of one without its tag, and says
      it of nothing malformed. */
  predicate TierHits(exclusions: seq<string>, tier: char, hits: string -> bool) {
    exists i :: 0 <= i < |exclusions| && IsTagged(exclusions[i]) && exclusions[i][1] == tier && hits(exclusions[i][3..])
  }

  predicate PlainHits(exclusions: seq<string>, hits: string -> bool) {
    exists i :: 0 <= i < |exclusions| && !IsTagged(exclusions[i]) && hits(exclusions[i])
  }

  datatype Route = Tunnel | Direct

  /** The tiers in order, the first that names the connection decides: even ones through the
      tunnel. Then the entries without a tag against the mode, then the mode. */
  function CoreRoute(exclusions: seq<string>, selective: bool, hits: string -> bool): Route {
    if TierHits(exclusions, '0', hits) then Tunnel
    else if TierHits(exclusions, '1', hits) then Direct
    else if TierHits(exclusions, '2', hits) then Tunnel
    else if TierHits(exclusions, '3', hits) then Direct
    else if PlainHits(exclusions, hits) then (if selective then Tunnel else Direct)
    else if selective then Direct else Tunnel
  }

  // ---------- what the user asked for ----------

  predicate Names(entries: seq<string>, hits: string -> bool) {
    exists i :: 0 <= i < |entries| && hits(entries[i])
  }

  /** An enabled list of this direction names the connection. */
  predicate ListNames(lists: seq<GeoList>, bypass: bool, geo: GeoState, hits: string -> bool) {
    geo.present &&
    exists i :: 0 <= i < |lists| && lists[i].enabled && lists[i].bypass == bypass && Names(geo.entries(lists[i]), hits)
  }

  /** Own rules first, then lists through the tunnel, then lists around it, then the mode; the mode
      "Through VPN" falls back to the full tunnel when nothing could go through it. */
  function Asked(c: Chosen, geo: GeoState, norm: string -> string, key: string -> string, hits: string -> bool): Route {
    if !c.on then Tunnel
    else if Names(c.rules, hits) then (if c.selective then Tunnel else Direct)
    else if ListNames(c.lists, false, geo, hits) then Tunnel
    else if ListNames(c.lists, true, geo, hits) then Direct
    else if c.selective && (c.rules != [] || SanitizedApps(c.apps, norm, key) != [] || SomeThrough(c.lists, geo)) then
      Direct
    else Tunnel
  }

  // ---------- and that it is what happens ----------

  lemma TaggedIs(tier: char, entry: string)
    requires '0' <= tier <= '3'
    ensures IsTagged(Tagged(tier, entry)) <==> entry != ""
    ensures Tagged(tier, entry)[1] == tier && Tagged(tier, entry)[3..] == entry
  {
  }

  lemma TagAllHits(tier: char, entries: seq<string>, t: char, hits: string -> bool)
    requires '0' <= tier <= '3' && !hits("")
    ensures TierHits(TagAll(tier, entries), t, hits) <==> t == tier && Names(entries, hits)
    ensures (forall i :: 0 <= i < |entries| ==> !hits(Tagged(tier, entries[i]))) ==> !PlainHits(TagAll(tier, entries), hits)
  {
    var tagged := TagAll(tier, entries);
    forall i | 0 <= i < |entries| ensures
      && (IsTagged(tagged[i]) <==> entries[i] != "") && tagged[i][1] == tier && tagged[i][3..] == entries[i]
    {
      TaggedIs(tier, entries[i]);
    }
    if i :| 0 <= i < |entries| && hits(entries[i]) && t == tier {
      assert IsTagged(tagged[i]) && tagged[i][1] == t && hits(tagged[i][3..]);
    }
  }

  lemma HitsOfBoth(a: seq<string>, b: seq<string>, t: char, hits: string -> bool)
    ensures TierHits(a + b, t, hits) <==> TierHits(a, t, hits) || TierHits(b, t, hits)
    ensures PlainHits(a + b, hits) <==> PlainHits(a, hits) || PlainHits(b, hits)
  {
    hide IsTagged;
    assert forall i :: 0 <= i < |a| ==> (a + b)[i] == a[i];
    assert forall i :: 0 <= i < |b| ==> (a + b)[|a| + i] == b[i];
  }

  /** Nothing is said of an entry with its tag, or of an empty one. */
  ghost predicate Ordinary(hits: string -> bool) {
    !hits("") && forall e: string :: |e| > 0 && e[0] == '@' ==> !hits(e)
  }

  lemma {:induction false} GeoHits(lists: seq<GeoList>, geo: GeoState, t: char, hits: string -> bool)
    requires geo.present && Ordinary(hits)
    ensures TierHits(GeoEntries(lists, geo), t, hits) <==>
      (t == '2' && ListNames(lists, false, geo, hits)) || (t == '3' && ListNames(lists, true, geo, hits))
    ensures !PlainHits(GeoEntries(lists, geo), hits)
  {
    hide IsTagged, Names;
    if lists != [] {
      var list, rest := lists[0], lists[1..];
      GeoHits(rest, geo, t, hits);
      FirstListNames(lists, false, geo, hits);
      FirstListNames(lists, true, geo, hits);
      var tier := if list.bypass then '3' else '2';
      var tagged := TagAll(tier, geo.entries(list));
      TagAllHits(tier, geo.entries(list), t, hits);
      hide TierHits, PlainHits, ListNames;
      if list.enabled {
        HitsOfBoth(tagged, GeoEntries(rest, geo), t, hits);
      } else {
        EmptyPlus(GeoEntries(rest, geo));
      }
    }
  }

  lemma FirstListNames(lists: seq<GeoList>, bypass: bool, geo: GeoState, hits: string -> bool)
    requires lists != [] && geo.present
    ensures ListNames(lists, bypass, geo, hits) <==>
      (lists[0].enabled && lists[0].bypass == bypass && Names(geo.entries(lists[0]), hits))
      || ListNames(lists[1..], bypass, geo, hits)
  {
    hide Names;
    assert forall i :: 0 <= i < |lists[1..]| ==> lists[1..][i] == lists[i + 1];
    if i :| 0 <= i < |lists| && lists[i].enabled && lists[i].bypass == bypass && Names(geo.entries(lists[i]), hits) {
      if i > 0 { assert lists[1..][i - 1] == lists[i]; }
    }
  }

  /** The core's rules are no tagged entries. */
  ghost predicate PlainRules(rules: seq<string>) {
    forall i :: 0 <= i < |rules| ==> rules[i] != "" && rules[i][0] != '@'
  }

  lemma PlainRulesHit(rules: seq<string>, t: char, hits: string -> bool)
    requires PlainRules(rules)
    ensures !TierHits(rules, t, hits) && (PlainHits(rules, hits) <==> Names(rules, hits))
  {
  }

  lemma {:induction false} NoGeoEntries(lists: seq<GeoList>, geo: GeoState, bypass: bool, hits: string -> bool)
    requires geo.present && GeoEntries(lists, geo) == []
    ensures !ListNames(lists, bypass, geo, hits)
  {
    if lists != [] {
      FirstListNames(lists, bypass, geo, hits);
      NoGeoEntries(lists[1..], geo, bypass, hits);
    }
  }

  lemma NamesNeedsSome(c: Chosen, geo: GeoState, hits: string -> bool)
    ensures Names(c.rules, hits) ==> c.rules != []
    ensures ListNames(c.lists, false, geo, hits) ==> SomeThrough(c.lists, geo)
  {
    if ListNames(c.lists, false, geo, hits) {
      var i :| 0 <= i < |c.lists| && c.lists[i].enabled && c.lists[i].bypass == false && Names(geo.entries(c.lists[i]), hits);
      assert geo.entries(c.lists[i]) != [];
    }
  }

  /** Whatever the user chose, each connection goes where it was asked to go: no rule is turned
      round by its tag, by the mode that is pushed, or by the fall back to the full tunnel. */
  lemma RoutedAsAsked(c: Chosen, geo: GeoState, norm: string -> string, key: string -> string, hits: string -> bool)
    requires PlainRules(c.rules) && Ordinary(hits)
    ensures var push := PushOf(c, geo, norm, key);
      CoreRoute(push.exclusions, push.selective, hits) == Asked(c, geo, norm, key, hits)
  {
    var push := PushOf(c, geo, norm, key);
    NamesNeedsSome(c, geo, hits);
    var lists := if geo.present then GeoEntries(c.lists, geo) else [];
    if !c.on {
    } else if lists == [] {
      if geo.present {
        NoGeoEntries(c.lists, geo, false, hits);
        NoGeoEntries(c.lists, geo, true, hits);
      }
      hide TierHits, PlainHits, Names, SomeThrough, ListNames;
      NotPresent(c.lists, geo, hits);
      PlainRulesHit(c.rules, '0', hits);
      PlainRulesHit(c.rules, '1', hits);
      PlainRulesHit(c.rules, '2', hits);
      PlainRulesHit(c.rules, '3', hits);
    } else {
      hide TierHits, PlainHits, Names, SomeThrough, ListNames, IsTagged;
      TaggedHit(c, geo, '0', hits);
      TaggedHit(c, geo, '1', hits);
      TaggedHit(c, geo, '2', hits);
      TaggedHit(c, geo, '3', hits);
    }
  }

  predicate EitherNames(lists: seq<GeoList>, geo: GeoState, hits: string -> bool) {
    ListNames(lists, false, geo, hits) || ListNames(lists, true, geo, hits)
  }

  lemma NotPresent(lists: seq<GeoList>, geo: GeoState, hits: string -> bool)
    ensures !geo.present ==> !EitherNames(lists, geo, hits)
  {
  }

  /** In a tagged list, what each tier names. */
  lemma TaggedHit(c: Chosen, geo: GeoState, t: char, hits: string -> bool)
    requires PlainRules(c.rules) && Ordinary(hits) && geo.present
    ensures var tier := if c.selective then '0' else '1';
      var exclusions := TagAll(tier, c.rules) + GeoEntries(c.lists, geo);
      && (TierHits(exclusions, t, hits) <==>
        (t == tier && Names(c.rules, hits))
        || (t == '2' && ListNames(c.lists, false, geo, hits)) || (t == '3' && ListNames(c.lists, true, geo, hits)))
      && !PlainHits(exclusions, hits)
  {
    var tier := if c.selective then '0' else '1';
    TagAllHits(tier, c.rules, t, hits);
    hide TierHits, PlainHits, Names, ListNames, IsTagged;
    GeoHits(c.lists, geo, t, hits);
    HitsOfBoth(TagAll(tier, c.rules), GeoEntries(c.lists, geo), t, hits);
  }

  /** No list has an empty entry. */
  ghost predicate Written(geo: GeoState) {
    forall l, i :: 0 <= i < |geo.entries(l)| ==> geo.entries(l)[i] != ""
  }

  /** In the selective mode, an entry that puts something through the tunnel. */
  predicate IsThrough(entry: string) { !IsTagged(entry) || entry[1] == '0' || entry[1] == '2' }

  lemma {:induction false} ThroughEntry(lists: seq<GeoList>, geo: GeoState) returns (k: nat)
    requires SomeThrough(lists, geo) && Written(geo)
    ensures k < |GeoEntries(lists, geo)| && IsThrough(GeoEntries(lists, geo)[k])
  {
    var i :| 0 <= i < |lists| && lists[i].enabled && !lists[i].bypass && geo.entries(lists[i]) != [];
    var list, rest := lists[0], lists[1..];
    var tagged := if list.enabled then TagAll(if list.bypass then '3' else '2', geo.entries(list)) else [];
    if i == 0 {
      k := 0;
      assert GeoEntries(lists, geo)[0] == tagged[0] == Tagged('2', geo.entries(list)[0]);
    } else {
      assert rest[i - 1] == lists[i];
      var j := ThroughEntry(rest, geo);
      k := |tagged| + j;
      assert GeoEntries(lists, geo)[k] == GeoEntries(rest, geo)[j];
    }
  }

  /** The selective mode is pushed only with something to put through the tunnel. */
  lemma SelectiveHasSomething(c: Chosen, geo: GeoState, norm: string -> string, key: string -> string)
    requires PlainRules(c.rules) && Written(geo)
    ensures var push := PushOf(c, geo, norm, key);
      push.selective ==>
        || (exists i :: 0 <= i < |push.apps| && norm(push.apps[i]) != "")
        || (exists i :: 0 <= i < |push.exclusions| && IsThrough(push.exclusions[i]))
  {
    var push := PushOf(c, geo, norm, key);
    SomeAppIff(c.apps, {}, norm, key);
    if push.selective && SanitizedApps(c.apps, norm, key) == [] {
      var lists := if geo.present then GeoEntries(c.lists, geo) else [];
      if c.rules != [] {
        assert push.exclusions[0] == if lists == [] then c.rules[0] else Tagged('0', c.rules[0]);
        assert IsThrough(push.exclusions[0]);
      } else {
        var k := ThroughEntry(c.lists, geo);
        EmptyPlus(lists);
        assert push.exclusions[k] == lists[k];
      }
    }
  }

  lemma {:induction false} GeoTags(lists: seq<GeoList>, geo: GeoState)
    ensures forall i :: 0 <= i < |GeoEntries(lists, geo)| ==>
      |GeoEntries(lists, geo)[i]| >= 3 && (GeoEntries(lists, geo)[i][1] == '2' || GeoEntries(lists, geo)[i][1] == '3')
  {
    if lists != [] { GeoTags(lists[1..], geo); }
  }

  /** Own rules are pushed as ones through the tunnel only with the selective mode, and as ones
      around it only without. */
  lemma ManualTagsFollowTheMode(c: Chosen, geo: GeoState, norm: string -> string, key: string -> string, i: nat)
    requires PlainRules(c.rules) && i < |PushOf(c, geo, norm, key).exclusions|
    requires IsTagged(PushOf(c, geo, norm, key).exclusions[i])
    ensures var push := PushOf(c, geo, norm, key);
      (push.exclusions[i][1] == '0' ==> push.selective) && (push.exclusions[i][1] == '1' ==> !push.selective)
  {
    hide SanitizedApps;
    var lists := if geo.present then GeoEntries(c.lists, geo) else [];
    if c.on && lists != [] {
      GeoTags(c.lists, geo);
      var tagged := TagAll(if c.selective then '0' else '1', c.rules);
      assert PushOf(c, geo, norm, key).exclusions[i] == if i < |tagged| then tagged[i] else lists[i - |tagged|];
    }
  }

  /** What the helper answers for one program: "Through VPN" never sends one around the tunnel,
      "Bypass VPN" never forces one in, and with split tunnelling off no rule is asked. */
  lemma ProgramsAreNotInverted(c: Chosen, geo: GeoState, norm: string -> string, key: string -> string,
                               matches: string -> bool, skipped: bool)
    ensures var push := PushOf(c, geo, norm, key);
      var action := ConnectionAction(SanitizedApps(push.apps, norm, key), push.selective, skipped, norm, matches);
      && (c.selective ==> action != ForceBypass) && (!c.selective ==> action != ForceTunnel)
      && (!c.on ==> action == Default)
  {
    hide SomeThrough;
  }

  /** A rule for the core starts with no tag. */
  ghost predicate NoTags(q: Parsers) {
    forall r :: CoreRule(r, q) != "" ==> CoreRule(r, q)[0] != '@'
  }

  lemma ChosenRulesArePlain(cfg: Settings, path: string, geo: GeoState, q: Parsers)
    requires NoTags(q)
    ensures PlainRules(ChosenFor(cfg, path, geo, q).rules)
  {
    hide CoreRule, CoreRules, ConfigProfile;
    var name := ConfigProfile(cfg.split, path);
    var rules := if name in cfg.split.profiles then cfg.split.profiles[name] else [];
    CoreRulesOf(rules, q);
    forall i | 0 <= i < |CoreRules(rules, q)| ensures CoreRules(rules, q)[i] != "" && CoreRules(rules, q)[i][0] != '@' {
      assert CoreRules(rules, q)[i] in CoreRules(rules, q);
      assert Gives(rules, CoreRules(rules, q)[i], q);
    }
  }

  /** For every state of the settings and every config, each connection goes where it was asked to. */
  lemma SettingsAreFollowed(cfg: Settings, path: string, geo: GeoState, q: Parsers, norm: string -> string,
                            key: string -> string, hits: string -> bool)
    requires NoTags(q) && Ordinary(hits)
    ensures var c := ChosenFor(cfg, path, geo, q);
      var push := PushOf(c, geo, norm, key);
      CoreRoute(push.exclusions, push.selective, hits) == Asked(c, geo, norm, key, hits)
  {
    hide PushOf, CoreRoute, Asked, PlainRules, NoTags, Ordinary;
    ChosenRulesArePlain(cfg, path, geo, q);
    RoutedAsAsked(ChosenFor(cfg, path, geo, q), geo, norm, key, hits);
  }
}
