/** Settings saved and loaded again are the same settings, over any store and whatever it held. */
module SettingsRoundTrip {
  import opened Text
  import opened BypassRules
  import opened AppSettings

  // ---------- what the settings keep ----------

  ghost predicate UniqueIds(lists: seq<GeoList>) {
    forall i, j :: 0 <= i < j < |lists| ==> lists[i].id != lists[j].id
  }

  ghost predicate GeoListsOk(lists: seq<GeoList>) {
    UniqueIds(lists) && forall i :: 0 <= i < |lists| ==> lists[i].id != ""
  }

  /** No two profiles are named alike but for the case. */
  ghost predicate NamesApart(names: set<string>, same: char -> char) {
    forall a, b {:trigger Folded(a, same), Folded(b, same)} ::
      a in names && b in names && Folded(a, same) == Folded(b, same) ==> a == b
  }

  ghost predicate SplitOk(p: Split, env: Env) {
    && DEFAULT in p.profiles && p.active in p.profiles
    && p.profileApps.Keys == p.profiles.Keys && p.geoLists.Keys == p.profiles.Keys
    && NoDuplicates(p.order) && (forall n :: n in p.order <==> n in p.profiles)
    && NamesApart(p.profiles.Keys, env.same)
    && p.domains == p.profiles[p.active] && p.apps == p.profileApps[p.active]
    && (forall n :: n in p.profiles ==> IsClean(p.profiles[n], env.q))
    && (forall n :: n in p.geoLists ==> GeoListsOk(p.geoLists[n]))
    && p.geoHours in GEO_HOURS
  }

  ghost predicate GeneralOk(g: General, env: Env) {
    && (forall p :: p in g.plain <==> p in PLAIN)
    && g.logPath != "" && g.logPath != LEGACY_LOG_PATH
    && forall r :: r in g.excludedRoutes ==> !IsEveryAddress(r, env.q)
  }

  ghost predicate Consistent(cfg: Settings, env: Env) {
    GeneralOk(cfg.general, env) && SplitOk(cfg.split, env)
  }

  // ---------- groups ----------

  lemma FoldedAlike(a: string, b: string, env: Env)
    requires Fair(env)
    ensures Folded(a, env.fold) == Folded(b, env.fold) ==> Folded(a, env.same) == Folded(b, env.same)
  {
  }

  /** Names the program keeps apart are apart in the store. */
  lemma ApartInStore(a: string, b: string, names: set<string>, env: Env)
    requires Fair(env) && NamesApart(names, env.same) && a in names && b in names && a != b
    ensures Folded(a, env.fold) != Folded(b, env.fold)
  {
    FoldedAlike(a, b, env);
  }

  /** A key no name in the list is written under is left. */
  lemma {:induction false} PutElsewhere(s: Store, g: Group, names: seq<string>, values: map<string, Value>, env: Env,
                                       k: Key)
    requires forall n :: n in names ==> n in values
    requires forall n :: n in names ==> k != Entry(g, Folded(n, env.fold))
    ensures k in PutAll(s, g, names, values, env) <==> k in s
    ensures k in s ==> PutAll(s, g, names, values, env)[k] == s[k]
    decreases |names|
  {
    if names != [] {
      assert names[0] in names;
      PutElsewhere(s[Entry(g, Folded(names[0], env.fold)) := values[names[0]]], g, names[1..], values, env, k);
    }
  }

  lemma {:induction false} PutUnder(s: Store, g: Group, names: seq<string>, values: map<string, Value>, env: Env,
                                   n: string)
    requires Fair(env) && NoDuplicates(names) && n in names && NamesApart(values.Keys, env.same)
    requires forall m :: m in names ==> m in values
    ensures var k := Entry(g, Folded(n, env.fold));
      k in PutAll(s, g, names, values, env) && PutAll(s, g, names, values, env)[k] == values[n]
    decreases |names|
  {
    hide NamesApart, Fair;
    var next := s[Entry(g, Folded(names[0], env.fold)) := values[names[0]]];
    if names[0] == n {
      forall m | m in names[1..] ensures Entry(g, Folded(n, env.fold)) != Entry(g, Folded(m, env.fold)) {
        assert m in names && m != n;
        ApartInStore(n, m, values.Keys, env);
      }
      PutElsewhere(next, g, names[1..], values, env, Entry(g, Folded(n, env.fold)));
    } else {
      PutUnder(next, g, names[1..], values, env, n);
    }
  }

  predicate Under(s: Store, g: Group, n: string, v: Value, env: Env) {
    var k := Entry(g, Folded(n, env.fold));
    k in s && s[k] == v
  }

  ghost predicate HoldsGroup(s: Store, g: Group, values: map<string, Value>, env: Env) {
    forall n :: n in values ==> Under(s, g, n, values[n], env)
  }

  predicate Same(s: Store, t: Store, k: Key) { (k in t <==> k in s) && (k in s ==> t[k] == s[k]) }

  ghost predicate SameOutside(s: Store, t: Store, g: Group) {
    forall k: Key :: !(k.Entry? && k.group == g) ==> Same(s, t, k)
  }

  /** A group written again reads back under every name, and nothing outside it changes. */
  lemma GroupReadsBack(s: Store, g: Group, values: map<string, Value>, env: Env)
    requires Fair(env) && NamesApart(values.Keys, env.same)
    ensures HoldsGroup(Rewritten(s, g, values, env), g, values, env)
    ensures SameOutside(s, Rewritten(s, g, values, env), g)
  {
    hide NamesApart, PutAll;
    var names := env.sorted(values.Keys);
    assert NoDuplicates(names) && forall n :: n in names <==> n in values.Keys;
    hide Fair;
    var t := Rewritten(s, g, values, env);
    forall n | n in values ensures Under(t, g, n, values[n], env) {
      PutUnder(WithoutGroup(s, g), g, names, values, env, n);
    }
    forall k: Key | !(k.Entry? && k.group == g) ensures Same(s, t, k) {
      PutElsewhere(WithoutGroup(s, g), g, names, values, env, k);
    }
  }

  /** Another group, and a fixed key, are left when a group is written. */
  lemma GroupStays(s: Store, t: Store, g: Group, other: Group, values: map<string, Value>, env: Env)
    requires HoldsGroup(s, other, values, env) && SameOutside(s, t, g) && g != other
    ensures HoldsGroup(t, other, values, env)
  {
  }

  /** Fixed keys do not touch the groups. */
  lemma FixedKeysKeepGroups(s: Store, t: Store, g: Group, values: map<string, Value>, env: Env)
    requires HoldsGroup(s, g, values, env) && forall k: Key :: k.Entry? ==> Same(s, t, k)
    ensures HoldsGroup(t, g, values, env)
  {
    forall n | n in values ensures Under(t, g, n, values[n], env) {
      assert Under(s, g, n, values[n], env);
      assert Same(s, t, Entry(g, Folded(n, env.fold)));
    }
  }

  // ---------- each part ----------

  predicate HoldsGeneral(s: Store, g: General) {
    && (forall p :: p in g.plain ==> PlainKey(p) in s && s[PlainKey(p)] == g.plain[p])
    && SplitEnabled in s && s[SplitEnabled] == Flag(g.splitEnabled)
    && Mode in s && s[Mode] == Text(g.mode) && LogPath in s && s[LogPath] == Text(g.logPath)
    && ExcludedRoutes in s && s[ExcludedRoutes] == List(g.excludedRoutes)
  }

  lemma GeneralLoads(s: Store, g: General, env: Env)
    requires HoldsGeneral(s, g) && GeneralOk(g, env)
    ensures LoadedGeneral(s, env) == g
  {
  }

  predicate HoldsHotkeys(s: Store, h: Hotkeys) {
    && HotkeysEnabled in s && s[HotkeysEnabled] == Flag(h.enabled)
    && HotkeysOptIn in s && s[HotkeysOptIn] == Flag(true)
    && HotkeyToggle in s && s[HotkeyToggle] == Text(h.toggle)
    && HotkeyConnect in s && s[HotkeyConnect] == Text(h.connect)
    && HotkeyDisconnect in s && s[HotkeyDisconnect] == Text(h.disconnect)
  }

  predicate Has(s: Store, k: Key, v: Value) { k in s && s[k] == v }

  ghost predicate HoldsNames(s: Store, p: Split, env: Env)
    requires Fair(env)
  {
    && Has(s, Rules, List(p.domains)) && Has(s, ActiveProfile, Text(p.active))
    && Has(s, ProfileNames, List(env.sorted(p.profiles.Keys))) && Has(s, ProfileOrder, List(p.order))
  }

  predicate HoldsRest(s: Store, p: Split) {
    Has(s, AppsSeeded, Flag(true)) && Has(s, ConfigProfiles, Entries(p.configProfiles))
    && Has(s, GeoHours, Number(p.geoHours))
  }

  ghost predicate HoldsGroups(s: Store, p: Split, env: Env) {
    && HoldsGroup(s, Domains, ListValues(p.profiles), env)
    && HoldsGroup(s, Apps, ListValues(p.profileApps), env)
    && HoldsGroup(s, Geo, GeoValues(p), env)
  }

  /** The keys of the general settings. */
  predicate IsGeneral(k: Key) {
    k.PlainKey? || k == LogPath || k == SplitEnabled || k == Mode || k == ExcludedRoutes
  }

  ghost predicate SameGeneral(s: Store, t: Store) {
    forall k: Key :: IsGeneral(k) ==> Same(s, t, k)
  }

  lemma NamedHolds(s: Store, p: Split, env: Env)
    requires Fair(env)
    ensures HoldsNames(Named(s, p, env), p, env) && SameGeneral(s, Named(s, p, env))
  {
    hide Fair;
  }

  lemma SeededHolds(s: Store, p: Split, env: Env)
    requires Fair(env) && HoldsNames(s, p, env)
    ensures HoldsNames(Seeded(s, p), p, env) && HoldsRest(Seeded(s, p), p) && SameGeneral(s, Seeded(s, p))
    ensures forall k: Key :: k.Entry? ==> Same(s, Seeded(s, p), k)
  {
    hide Fair;
  }

  lemma NamesStay(s: Store, t: Store, g: Group, p: Split, env: Env)
    requires Fair(env) && SameOutside(s, t, g)
    ensures SameGeneral(s, t) && (HoldsNames(s, p, env) ==> HoldsNames(t, p, env)) && (HoldsRest(s, p) ==> HoldsRest(t, p))
  {
    hide Fair;
    assert Same(s, t, Rules) && Same(s, t, ActiveProfile) && Same(s, t, ProfileNames) && Same(s, t, ProfileOrder);
    assert Same(s, t, AppsSeeded) && Same(s, t, ConfigProfiles) && Same(s, t, GeoHours);
  }

  lemma SameGeneralTwice(s: Store, t: Store, u: Store)
    requires SameGeneral(s, t) && SameGeneral(t, u)
    ensures SameGeneral(s, u)
  {
  }

  lemma KeysOfValues(p: Split)
    ensures ListValues(p.profiles).Keys == p.profiles.Keys && ListValues(p.profileApps).Keys == p.profileApps.Keys
    ensures GeoValues(p).Keys == p.profiles.Keys
  {
  }

  lemma PutSplitHolds(s: Store, p: Split, env: Env)
    requires Fair(env) && SplitOk(p, env)
    ensures var t := PutSplit(s, p, env);
      HoldsNames(t, p, env) && HoldsRest(t, p) && HoldsGroups(t, p, env) && SameGeneral(s, t)
  {
    assert NamesApart(p.profiles.Keys, env.same) && p.profileApps.Keys == p.profiles.Keys;
    hide Fair, Rewritten, SplitOk, Named, Seeded, HoldsNames, HoldsRest, HoldsGroup, SameGeneral, SameOutside, ListValues,
      GeoValues, NamesApart;
    var one := Named(s, p, env);
    var two := Rewritten(one, Domains, ListValues(p.profiles), env);
    var three := Rewritten(two, Apps, ListValues(p.profileApps), env);
    var four := Seeded(three, p);
    var five := Rewritten(four, Geo, GeoValues(p), env);
    KeysOfValues(p);
    NamedHolds(s, p, env);
    GroupReadsBack(one, Domains, ListValues(p.profiles), env);
    NamesStay(one, two, Domains, p, env);
    GroupReadsBack(two, Apps, ListValues(p.profileApps), env);
    NamesStay(two, three, Apps, p, env);
    GroupStays(two, three, Apps, Domains, ListValues(p.profiles), env);
    SeededHolds(three, p, env);
    FixedKeysKeepGroups(three, four, Domains, ListValues(p.profiles), env);
    FixedKeysKeepGroups(three, four, Apps, ListValues(p.profileApps), env);
    GroupReadsBack(four, Geo, GeoValues(p), env);
    NamesStay(four, five, Geo, p, env);
    GroupStays(four, five, Geo, Domains, ListValues(p.profiles), env);
    GroupStays(four, five, Geo, Apps, ListValues(p.profileApps), env);
    SameGeneralTwice(s, one, two);
    SameGeneralTwice(s, two, three);
    SameGeneralTwice(s, three, four);
    SameGeneralTwice(s, four, five);
  }

  // ---------- loading what was saved ----------

  lemma {:induction false} GeoListsReadBack(lists: seq<GeoList>, ids: set<string>)
    requires GeoListsOk(lists) && forall i :: 0 <= i < |lists| ==> lists[i].id !in ids
    ensures GeoListsOf(RowsOf(lists), ids) == lists
    decreases |lists|
  {
    if lists != [] {
      var rest := lists[1..];
      Cons(lists);
      assert RowsOf(lists)[1..] == RowsOf(rest);
      assert forall i :: 0 <= i < |rest| ==> rest[i] == lists[i + 1];
      GeoListsReadBack(rest, ids + {lists[0].id});
    }
  }

  lemma {:induction false} OrderKept(order: seq<string>, from: seq<string>, profiles: set<string>)
    requires NoDuplicates(order + from) && forall n :: n in from ==> n in profiles
    ensures OrderAfter(order, from, profiles) == order + from
    decreases |from|
  {
    if from == [] {
      RightUnit(order);
    } else {
      var n := from[0];
      assert forall i :: 0 <= i < |order| ==> order[i] == (order + from)[i];
      assert n == (order + from)[|order|] && n in from;
      Cons(from);
      Assoc(order, [n], from[1..]);
      OrderKept(order + [n], from[1..], profiles);
    }
  }

  lemma {:induction false} NothingToAdd(order: seq<string>, from: seq<string>, profiles: set<string>)
    requires forall n :: n in from ==> n in order
    ensures OrderAfter(order, from, profiles) == order
    decreases |from|
  {
    if from != [] {
      assert from[0] in from;
      NothingToAdd(order, from[1..], profiles);
    }
  }

  lemma OrderLoads(s: Store, p: Split, env: Env)
    requires Fair(env) && SplitOk(p, env) && Has(s, ProfileOrder, List(p.order))
    ensures LoadedOrder(s, p.profiles.Keys, env) == p.order
  {
    var names := env.sorted(p.profiles.Keys);
    EmptyPlus(p.order);
    assert forall n :: n in names <==> n in p.profiles.Keys;
    OrderKept([], p.order, p.profiles.Keys);
    NothingToAdd(p.order, names, p.profiles.Keys);
  }

  /** Each name's list is read as it was saved. */
  lemma ListsLoad(s: Store, p: Split, env: Env, names: seq<string>, legacy: seq<string>)
    requires HoldsGroup(s, Domains, ListValues(p.profiles), env)
    requires (forall n :: n in names <==> n in p.profiles) && forall n :: n in p.profiles ==> IsClean(p.profiles[n], env.q)
    ensures (map n | n in names :: Sanitized(DomainsFor(s, n, names, legacy, env), env.q)) == p.profiles
  {
    hide Folded, Sanitized, IsClean;
    forall n | n in names ensures Sanitized(DomainsFor(s, n, names, legacy, env), env.q) == p.profiles[n] {
      assert Under(s, Domains, n, ListValues(p.profiles)[n], env);
      CleanIffFixed(p.profiles[n], env.q);
    }
  }

  /** Neither the list shipped nor the one of older versions takes a saved profile's place. */
  lemma NothingComesBack(s: Store, profiles: map<string, seq<string>>, names: seq<string>, legacy: seq<string>, env: Env)
    requires Has(s, ProfileNames, List(names)) && Has(s, Rules, List(legacy)) && DEFAULT in profiles
    requires (map n | n in names :: Sanitized(DomainsFor(s, n, names, legacy, env), env.q)) == profiles
    requires names == [DEFAULT] ==> legacy == profiles[DEFAULT]
    ensures LoadedProfiles(s, env) == profiles
  {
  }

  lemma ProfilesLoad(s: Store, p: Split, env: Env)
    requires Fair(env) && SplitOk(p, env) && HoldsNames(s, p, env) && HoldsGroup(s, Domains, ListValues(p.profiles), env)
    ensures LoadedProfiles(s, env) == p.profiles
  {
    var names := env.sorted(p.profiles.Keys);
    assert forall n :: n in names <==> n in p.profiles.Keys;
    hide Fair, NamesApart, GeoListsOk, IsClean, HoldsGroup, DomainsFor, LoadedProfiles, ListValues;
    ListsLoad(s, p, env, names, p.domains);
    assert names == [DEFAULT] ==> p.active in names;
    NothingComesBack(s, p.profiles, names, p.domains, env);
  }

  lemma AppsLoad(s: Store, p: Split, env: Env)
    requires Fair(env) && SplitOk(p, env) && HoldsRest(s, p) && HoldsGroup(s, Apps, ListValues(p.profileApps), env)
    ensures LoadedApps(s, p.profiles, env) == p.profileApps
  {
    hide Fair, Folded, NamesApart, GeoListsOk, IsClean;
    forall n | n in p.profiles ensures ListAt(s, Entry(Apps, Folded(n, env.fold)), []) == p.profileApps[n] {
      assert Under(s, Apps, n, ListValues(p.profileApps)[n], env);
    }
  }

  lemma GeoLoads(s: Store, p: Split, env: Env)
    requires Fair(env) && SplitOk(p, env) && HoldsGroup(s, Geo, GeoValues(p), env)
    ensures LoadedGeo(s, p.profiles, env) == p.geoLists
  {
    hide Fair, Folded, NamesApart, IsClean;
    forall n | n in p.profiles ensures GeoListsOf(RowsAt(s, Entry(Geo, Folded(n, env.fold))), {}) == p.geoLists[n] {
      assert Under(s, Geo, n, GeoValues(p)[n], env);
      GeoListsReadBack(p.geoLists[n], {});
    }
  }

  lemma SplitLoads(s: Store, p: Split, env: Env)
    requires Fair(env) && SplitOk(p, env) && HoldsNames(s, p, env) && HoldsRest(s, p) && HoldsGroups(s, p, env)
    ensures LoadedSplit(s, env) == p
  {
    ProfilesLoad(s, p, env);
    AppsLoad(s, p, env);
    GeoLoads(s, p, env);
    OrderLoads(s, p, env);
    hide Fair, HoldsGroup, LoadedProfiles, LoadedApps, LoadedGeo, LoadedOrder, NamesApart, IsClean, GeoListsOk;
  }

  lemma PutGeneralHolds(s: Store, g: General)
    ensures HoldsGeneral(PutGeneral(s, g), g)
  {
  }

  lemma GeneralStays(s: Store, t: Store, g: General)
    requires HoldsGeneral(s, g) && SameGeneral(s, t)
    ensures HoldsGeneral(t, g)
  {
    assert Same(s, t, LogPath) && Same(s, t, SplitEnabled) && Same(s, t, Mode) && Same(s, t, ExcludedRoutes);
    forall p | p in g.plain ensures PlainKey(p) in t && t[PlainKey(p)] == g.plain[p] {
      assert Same(s, t, PlainKey(p));
    }
  }

  const SPLIT_KEYS: set<Key> := {Rules, ActiveProfile, ProfileNames, ProfileOrder, AppsSeeded, ConfigProfiles, GeoHours}

  /** The hotkeys go in last, and touch nothing else. */
  lemma HotkeysHold(s: Store, h: Hotkeys)
    ensures HoldsHotkeys(PutHotkeys(s, h), h) && SameGeneral(s, PutHotkeys(s, h))
    ensures forall k: Key :: k.Entry? || k in SPLIT_KEYS ==> Same(s, PutHotkeys(s, h), k)
  {
  }

  lemma HotkeysKeepSplit(s: Store, h: Hotkeys, p: Split, env: Env)
    requires Fair(env) && HoldsNames(s, p, env) && HoldsRest(s, p) && HoldsGroups(s, p, env)
    ensures var t := PutHotkeys(s, h); HoldsNames(t, p, env) && HoldsRest(t, p) && HoldsGroups(t, p, env)
  {
    var t := PutHotkeys(s, h);
    HotkeysHold(s, h);
    FixedKeysKeepGroups(s, t, Domains, ListValues(p.profiles), env);
    FixedKeysKeepGroups(s, t, Apps, ListValues(p.profileApps), env);
    FixedKeysKeepGroups(s, t, Geo, GeoValues(p), env);
    hide Fair, PutHotkeys, ListValues, GeoValues, HoldsGroup;
    assert Same(s, t, Rules) && Same(s, t, ActiveProfile) && Same(s, t, ProfileNames) && Same(s, t, ProfileOrder);
    assert Same(s, t, AppsSeeded) && Same(s, t, ConfigProfiles) && Same(s, t, GeoHours);
  }

  lemma HotkeysLoad(s: Store, h: Hotkeys)
    requires HoldsHotkeys(s, h)
    ensures LoadedHotkeys(s) == h
  {
  }

  /** Load after save is the identity on every consistent state, whatever the store held before
      and whether or not it tells the case of its keys apart. */
  lemma LoadAfterSave(s: Store, cfg: Settings, env: Env)
    requires Fair(env) && Consistent(cfg, env)
    ensures Loaded(Saved(s, cfg, env), env) == cfg
  {
    hide Fair, PutGeneral, PutSplit, PutHotkeys, HoldsGeneral, HoldsNames, HoldsRest, HoldsGroups, SameGeneral,
      LoadedGeneral, LoadedSplit, LoadedHotkeys, GeneralOk, SplitOk;
    var one := PutGeneral(s, cfg.general);
    var two := PutSplit(one, cfg.split, env);
    var three := PutHotkeys(two, cfg.hotkeys);
    PutGeneralHolds(s, cfg.general);
    PutSplitHolds(one, cfg.split, env);
    GeneralStays(one, two, cfg.general);
    HotkeysHold(two, cfg.hotkeys);
    GeneralStays(two, three, cfg.general);
    HotkeysKeepSplit(two, cfg.hotkeys, cfg.split, env);
    GeneralLoads(three, cfg.general, env);
    SplitLoads(three, cfg.split, env);
    HotkeysLoad(three, cfg.hotkeys);
  }

  /** Where names are told apart by case only, the second of two written under one key wins: the
      reason why profiles are not named so. */
  lemma NamesOnlyCaseApartCollide(s: Store, g: Group, a: string, b: string, values: map<string, Value>, env: Env)
    requires a != b && Folded(a, env.fold) == Folded(b, env.fold) && a in values && b in values
    ensures var t := PutAll(s, g, [a, b], values, env);
      Under(t, g, a, values[b], env) && Under(t, g, b, values[b], env)
  {
    assert [a, b][1..] == [b] && [b][1..] == [];
    var one := s[Entry(g, Folded(a, env.fold)) := values[a]];
    assert PutAll(one, g, [b], values, env) == one[Entry(g, Folded(b, env.fold)) := values[b]];
  }

  lemma OnlyDefault(env: Env)
    requires Fair(env)
    ensures env.sorted({DEFAULT}) == [DEFAULT]
  {
    var names := env.sorted({DEFAULT});
    assert NoDuplicates(names) && forall n :: n in names <==> n in {DEFAULT};
    hide Fair;
    assert DEFAULT in names;
    OneOnly(names);
  }

  lemma OneOnly(names: seq<string>)
    requires names != [] && NoDuplicates(names) && forall n :: n in names ==> n == DEFAULT
    ensures names == [DEFAULT]
  {
    assert names[0] in names;
    var last := names[|names| - 1];
    assert last in names;
  }

  /** What a start on an empty store has: one profile, the recommended one. */
  lemma FreshSplit(env: Env, rules: seq<string>)
    requires Fair(env) && rules == Sanitized(env.recommended, env.q) && Sanitized(rules, env.q) == rules
    ensures LoadedSplit(map[], env)
            == Split(rules, [], DEFAULT, map[DEFAULT := rules], map[DEFAULT := []], map[DEFAULT := []], [DEFAULT],
                     map[], 24)
  {
    hide Fair, LoadedProfiles, LoadedApps, LoadedGeo, LoadedOrder, Sanitized;
    OnlyDefault(env);
    FreshProfiles(env, rules);
    FreshRest(env, rules);
  }

  lemma FreshProfiles(env: Env, rules: seq<string>)
    requires rules == Sanitized(env.recommended, env.q) && Sanitized(rules, env.q) == rules
    ensures LoadedProfiles(map[], env) == map[DEFAULT := rules]
  {
    hide Sanitized, Folded;
  }

  lemma FreshRest(env: Env, rules: seq<string>)
    requires env.sorted({DEFAULT}) == [DEFAULT]
    ensures LoadedApps(map[], map[DEFAULT := rules], env) == map[DEFAULT := []]
    ensures LoadedGeo(map[], map[DEFAULT := rules], env) == map[DEFAULT := []]
    ensures map[DEFAULT := rules].Keys == {DEFAULT} && LoadedOrder(map[], {DEFAULT}, env) == [DEFAULT]
  {
    hide Folded;
    EmptyPlus([DEFAULT]);
    OrderKept([], [DEFAULT], {DEFAULT});
    NothingToAdd([DEFAULT], [DEFAULT], {DEFAULT});
  }

  lemma FreshSplitOk(env: Env, rules: seq<string>)
    requires IsClean(rules, env.q)
    ensures SplitOk(Split(rules, [], DEFAULT, map[DEFAULT := rules], map[DEFAULT := []], map[DEFAULT := []], [DEFAULT],
                          map[], 24), env)
  {
  }

  lemma FreshGeneralOk(env: Env)
    requires Fair(env)
    ensures GeneralOk(LoadedGeneral(map[], env), env)
  {
    hide IsEveryAddress;
  }

  /** A fresh start is consistent. */
  lemma FreshIsConsistent(env: Env)
    requires Fair(env)
    ensures Consistent(Loaded(map[], env), env)
  {
    hide Fair, Sanitized, IsClean, LoadedSplit, LoadedGeneral, GeneralOk, SplitOk;
    var rules := Sanitized(env.recommended, env.q);
    CleanIffFixed(env.recommended, env.q);
    CleanIffFixed(rules, env.q);
    FreshSplit(env, rules);
    FreshSplitOk(env, rules);
    FreshGeneralOk(env);
  }
}
