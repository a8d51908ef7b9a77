/** What the settings are after a start: from an empty store, and from one an older version, a hand
    edit or another system left. */
module SettingsLoads {
  import opened Text
  import opened BypassRules
  import opened AppSettings
  import opened SettingsRoundTrip
  import opened SettingsOutcomes

  /** The first start: the full tunnel's mode with split tunnelling on, the rules that ship in Default
      as far as the core can use them, the kill switch on, hotkeys off. */
  lemma FirstStart(env: Env)
    requires Fair(env)
    ensures var cfg := Loaded(map[], env); var p := cfg.split;
      && cfg.general.splitEnabled && cfg.general.mode == "general" && cfg.general.logPath == env.logPath
      && cfg.general.excludedRoutes == env.routes
      && p.profiles.Keys == {"Default"} && p.active == "Default" && p.order == ["Default"]
      && p.domains == p.profiles["Default"] && p.apps == [] && p.profileApps == map["Default" := []]
      && p.geoLists == map["Default" := []] && p.configProfiles == map[] && p.geoHours == 24
      && (forall r :: r in p.domains <==> Pasted(env.recommended, r) && r != "" && CoreRule(r, env.q) != "")
      && !cfg.hotkeys.enabled
    ensures var plain := Loaded(map[], env).general.plain;
      plain == map[LoggingEnabled := Flag(true), VerboseLogs := Flag(false), ThemeMode := Text("system"),
                   Language := Text("en"), MinimizeToTray := Flag(false), AutoConnect := Flag(false),
                   KillSwitch := Flag(true), KillSwitchPorts := Flag(false), LastConfig := Text(""),
                   Subscriptions := Flag(false)]
  {
    hide CoreRule, IsEveryAddress, LoadedSplit, LoadedPlain, SanitizedAfter, IsClean;
    var rules := Sanitized(env.recommended, env.q);
    CleanIffFixed(env.recommended, env.q);
    SanitizedHas([], env.recommended, env.q);
    FreshSplit(env, rules);
    FreshPlain();
  }

  lemma FreshPlain()
    ensures LoadedPlain(map[]) ==
      map[LoggingEnabled := Flag(true), VerboseLogs := Flag(false), ThemeMode := Text("system"),
          Language := Text("en"), MinimizeToTray := Flag(false), AutoConnect := Flag(false),
          KillSwitch := Flag(true), KillSwitchPorts := Flag(false), LastConfig := Text(""), Subscriptions := Flag(false)]
  {
  }

  // ---------- the general settings ----------

  /** Routes that are every address of their kind are dropped, the others stay; a log path that is
      not set, or is the one in /tmp, is the default; the mode is what it was. */
  lemma GeneralLoads(s: Store, env: Env)
    requires Fair(env)
    ensures var g := Loaded(s, env).general;
      var routes := if ExcludedRoutes in s && s[ExcludedRoutes].List? then s[ExcludedRoutes].items else env.routes;
      && (forall r :: r in g.excludedRoutes <==> r in routes && !IsEveryAddress(r, env.q))
      && (LogPath in s && s[LogPath].Text? ==>
            g.logPath == if s[LogPath].s == "" || s[LogPath].s == "/tmp/freetunnel.log" then env.logPath else s[LogPath].s)
      && (Mode in s && s[Mode].Text? ==> g.mode == s[Mode].s)
      && (SplitEnabled in s && s[SplitEnabled].Flag? ==> (g.splitEnabled <==> s[SplitEnabled].b))
  {
    hide IsEveryAddress, LoadedSplit;
    NotEveryHas(ListAt(s, ExcludedRoutes, env.routes), env.q);
  }

  lemma {:induction false} NotEveryHas(routes: seq<string>, q: Parsers)
    ensures forall r :: r in NotEvery(routes, q) <==> r in routes && !IsEveryAddress(r, q)
  {
    hide IsEveryAddress;
    if routes != [] { NotEveryHas(routes[1..], q); }
  }

  /** An address with a prefix of zero is every address of its kind, and no other route is. */
  lemma EveryAddressIs(a: string, n: string, q: Parsers)
    requires IsTrimmed(a + "/" + n) && a != "" && '/' !in a
    ensures IsEveryAddress(a + "/" + n, q) <==> q.isAddress(a) && q.toInt(n) == Some(0)
    ensures IsTrimmed(a) ==> !IsEveryAddress(a, q)
    ensures IsTrimmed("/" + n) ==> !IsEveryAddress("/" + n, q)
  {
    assert ("/" + n)[0] == '/';
    var r := a + "/" + n;
    assert r[|a|] == '/';
    assert forall j :: 0 <= j < |a| ==> r[j] == a[j];
    assert IndexOf(r, '/', 0) == |a| && IndexOf(a, '/', 0) == |a|;
    assert r[..|a|] == a && r[|a| + 1..] == n;
  }

  /** Hotkeys are on when they were turned on since they are opt-in, or when one was chosen. */
  lemma HotkeysLoad(s: Store, env: Env)
    requires Fair(env)
    ensures var h := Loaded(s, env).hotkeys;
      var on := HotkeysEnabled in s && s[HotkeysEnabled] == Flag(true);
      var chosen := HotkeysOptIn in s && s[HotkeysOptIn] == Flag(true);
      h.enabled <==> on && (chosen || h.toggle != "Ctrl+Shift+T" || h.connect != "Ctrl+Shift+E" || h.disconnect != "Ctrl+Shift+D")
  {
    hide LoadedSplit, LoadedGeneral;
  }

  /** The hours between updates of geo lists are those kept, if they are ones offered; an older
      version's switch turned off is none; else it is daily. */
  lemma HoursLoad(s: Store, env: Env)
    requires Fair(env)
    ensures var hours := Loaded(s, env).split.geoHours;
      if GeoHours in s && s[GeoHours].Number? then
        hours == if s[GeoHours].n in {0, 1, 2, 5, 24} then s[GeoHours].n else 24
      else hours == if GeoAuto in s && s[GeoAuto] == Flag(false) then 0 else 24
  {
    hide LoadedProfiles, LoadedApps, LoadedGeo, LoadedOrder, LoadedGeneral, LoadedHotkeys;
  }

  // ---------- the profiles ----------

  /** The profile names the store has; Default alone when it has none. */
  function NamesIn(s: Store): seq<string> {
    if ProfileNames in s && s[ProfileNames].List? then s[ProfileNames].items else ["Default"]
  }

  function OldRules(s: Store): seq<string> { if Rules in s && s[Rules].List? then s[Rules].items else [] }

  /** The names are profiles; each has the rules the core can use of its own entry. Without an entry
      Default has those that ship, and another none. */
  lemma ProfilesLoad(s: Store, env: Env, n: string)
    requires Fair(env) && OldRules(s) == []
    ensures var profiles := Loaded(s, env).split.profiles; var own := Entry(Domains, Folded(n, env.fold));
      && (if NamesIn(s) == [] then profiles.Keys == {"Default"} else forall m :: m in profiles <==> m in NamesIn(s))
      && (n in NamesIn(s) ==> forall r :: r in profiles[n] <==>
            && r != "" && CoreRule(r, env.q) != ""
            && (if own in s then s[own].List? && Pasted(s[own].items, r)
                else n == "Default" && Pasted(env.recommended, r)))
  {
    hide CoreRule, Folded, LoadedOrder, LoadedGeo, LoadedApps, LoadedGeneral, LoadedHotkeys;
    LoadedProfilesAre(s, env, n);
    var start := DomainsFor(s, n, NamesIn(s), [], env);
    SanitizedHas([], start, env.q);
    SanitizedHas([], env.recommended, env.q);
    CleanIffFixed(env.recommended, env.q);
  }

  lemma LoadedProfilesAre(s: Store, env: Env, n: string)
    requires OldRules(s) == []
    ensures var profiles := LoadedProfiles(s, env);
      && (if NamesIn(s) == [] then profiles.Keys == {"Default"} else forall m :: m in profiles <==> m in NamesIn(s))
      && (n in NamesIn(s) ==> profiles[n] == Sanitized(DomainsFor(s, n, NamesIn(s), [], env), env.q))
  {
    hide Sanitized, DomainsFor;
    var names := NamesIn(s);
    var listed := map m | m in names :: Sanitized(DomainsFor(s, m, names, [], env), env.q);
    if names != [] { assert names[0] in listed; }
  }

  /** Before there were profiles one list of rules was kept: with no other name than Default it is
      Default's, unless Default has an entry of its own that is not empty. */
  lemma OldRulesLoad(s: Store, env: Env)
    requires Fair(env) && OldRules(s) != [] && NamesIn(s) == ["Default"]
    ensures var profiles := Loaded(s, env).split.profiles; var own := Entry(Domains, Folded("Default", env.fold));
      && profiles.Keys == {"Default"}
      && (own in s && Sanitized(if s[own].List? then s[own].items else [], env.q) != [] ==>
            profiles["Default"] == Sanitized(s[own].items, env.q))
      && (!(own in s && Sanitized(if s[own].List? then s[own].items else [], env.q) != []) ==>
            profiles["Default"] == Sanitized(OldRules(s), env.q))
  {
    hide Sanitized, Folded, LoadedOrder, LoadedGeo, LoadedApps, LoadedGeneral, LoadedHotkeys;
    SanitizedOfNone(env.q);
    assert "Default" in NamesIn(s);
  }

  lemma SanitizedOfNone(q: Parsers)
    ensures Sanitized([], q) == []
  {
  }

  /** Programs belong to a profile; until they first did, each starts with the one list there was. */
  lemma AppsLoadFrom(s: Store, env: Env, n: string)
    requires Fair(env)
    ensures var p := Loaded(s, env).split; var own := Entry(Apps, Folded(n, env.fold));
      && p.profileApps.Keys == p.profiles.Keys
      && (n in p.profiles && AppsSeeded in s && s[AppsSeeded] == Flag(true) ==>
            p.profileApps[n] == if own in s && s[own].List? then s[own].items else [])
      && (n in p.profiles && !(AppsSeeded in s && s[AppsSeeded] == Flag(true)) ==>
            p.profileApps[n] == if OldAppRules in s && s[OldAppRules].List? then s[OldAppRules].items else [])
  {
    hide LoadedProfiles, LoadedOrder, LoadedGeo, LoadedGeneral, LoadedHotkeys, Folded;
  }

  /** The profile shown is the one that was, if it is there, with its own rules and programs; every
      profile is in the order once. */
  lemma ActiveLoads(s: Store, env: Env)
    requires Fair(env)
    ensures var p := Loaded(s, env).split;
      && p.active in p.profiles && p.domains == p.profiles[p.active] && p.apps == p.profileApps[p.active]
      && (ActiveProfile in s && s[ActiveProfile].Text? && s[ActiveProfile].s in p.profiles ==> p.active == s[ActiveProfile].s)
      && (!(ActiveProfile in s && s[ActiveProfile].Text?) && "Default" in p.profiles ==> p.active == "Default")
      && NoDuplicates(p.order) && (forall n :: n in p.order <==> n in p.profiles || n == "Default")
  {
    hide LoadedProfiles, LoadedApps, LoadedGeo, LoadedGeneral, LoadedHotkeys;
    var profiles := LoadedProfiles(s, env);
    OrderHas(s, profiles.Keys, env);
  }

  lemma {:induction false} OrderAfterHas(order: seq<string>, from: seq<string>, profiles: set<string>)
    requires NoDuplicates(order)
    ensures var all := OrderAfter(order, from, profiles);
      NoDuplicates(all) && order <= all && forall n :: n in all <==> n in order || (n in from && n in profiles)
    decreases |from|
  {
    if from != [] {
      OrderAfterHas(if from[0] in profiles && from[0] !in order then order + [from[0]] else order, from[1..], profiles);
    }
  }

  lemma OrderHas(s: Store, profiles: set<string>, env: Env)
    requires Fair(env)
    ensures var order := LoadedOrder(s, profiles, env);
      NoDuplicates(order) && forall n :: n in order <==> n in profiles || n == "Default"
  {
    var names := env.sorted(profiles);
    var first := OrderAfter([], ListAt(s, ProfileOrder, names), profiles);
    OrderAfterHas([], ListAt(s, ProfileOrder, names), profiles);
    OrderAfterHas(first, names, profiles);
  }

  /** A row is a list when it has an id and one of the two kinds and directions. */
  predicate RowIsList(r: Row) { r.id != "" && r.kind in {"sites", "ips"} && r.direction in {"vpn", "bypass"} }

  /** Of the rows kept for a profile the lists are those that are lists, as they were, and the first of
      each id. */
  lemma {:induction false} GeoRowsLoad(rows: seq<Row>, ids: set<string>)
    ensures var lists := GeoListsOf(rows, ids);
      && (forall l :: l in lists ==> l.id !in ids)
      && (forall i, k :: 0 <= i < k < |lists| ==> lists[i].id != lists[k].id)
      && (forall l :: l in lists <==> exists i :: 0 <= i < |rows| && IsFirst(rows, i, ids) && IsRow(l, rows[i]))
  {
    if rows != [] {
      var r, rest := rows[0], rows[1..];
      var next := if RowIsList(r) && r.id !in ids then ids + {r.id} else ids;
      GeoRowsLoad(rest, next);
      forall i | 0 <= i < |rest| ensures IsFirst(rest, i, next) <==> IsFirst(rows, i + 1, ids) {
        FirstShifts(rows, i, ids, next);
      }
      var lists, more := GeoListsOf(rows, ids), GeoListsOf(rest, next);
      forall l ensures l in lists <==> exists i :: 0 <= i < |rows| && IsFirst(rows, i, ids) && IsRow(l, rows[i]) {
        if l in more {
          var i :| 0 <= i < |rest| && IsFirst(rest, i, next) && IsRow(l, rest[i]);
          assert IsFirst(rows, i + 1, ids) && rows[i + 1] == rest[i];
        }
        if l in lists && l !in more { assert IsFirst(rows, 0, ids); }
        if i :| 0 <= i < |rows| && IsFirst(rows, i, ids) && IsRow(l, rows[i]) {
          if i > 0 { assert IsFirst(rest, i - 1, next) && rest[i - 1] == rows[i]; }
        }
      }
    }
  }

  /** The row is a list, of an id not yet taken, and the first such of its id. */
  predicate IsFirst(rows: seq<Row>, i: nat, ids: set<string>)
    requires i < |rows|
  {
    RowIsList(rows[i]) && rows[i].id !in ids && forall k :: 0 <= k < i && RowIsList(rows[k]) ==> rows[k].id != rows[i].id
  }

  predicate IsRow(l: GeoList, r: Row) {
    l == GeoList(r.id, r.name, r.source, r.kind == "ips", r.direction == "bypass", r.enabled)
  }

  lemma FirstShifts(rows: seq<Row>, i: nat, ids: set<string>, next: set<string>)
    requires i + 1 < |rows| && next == if RowIsList(rows[0]) && rows[0].id !in ids then ids + {rows[0].id} else ids
    ensures IsFirst(rows[1..], i, next) <==> IsFirst(rows, i + 1, ids)
  {
    var rest := rows[1..];
    assert rest[i] == rows[i + 1] && forall k :: 0 <= k < i ==> rest[k] == rows[k + 1];
    if IsFirst(rest, i, next) {
      forall k | 0 <= k < i + 1 && RowIsList(rows[k]) ensures rows[k].id != rows[i + 1].id {
        if k > 0 { assert rest[k - 1] == rows[k]; }
      }
    }
  }
}
