/** Saving and loading as the program does it: key by key, list by list (AppSettings.cpp). */
module SettingsFile {
  import opened Text
  import opened BypassRules
  import opened AppSettings
  import opened SettingsRoundTrip

  class SettingsStore {
    var values: Store

    constructor (values: Store)
      ensures this.values == values
    {
      this.values := values;
    }

    method SetValue(k: Key, v: Value)
      modifies this
      ensures values == old(values)[k := v]
    {
      values := values[k := v];
    }

    method RemoveKey(k: Key)
      modifies this
      ensures values == old(values) - {k}
    {
      values := values - {k};
    }

    method RemoveGroup(g: Group)
      modifies this
      ensures values == WithoutGroup(old(values), g)
    {
      values := WithoutGroup(values, g);
    }

    method SavePlain(g: General)
      requires forall p :: p in g.plain <==> p in PLAIN
      modifies this
      ensures values == PutPlain(old(values), g)
    {
      hide PLAIN;
      ghost var was := values;
      for k := 0 to |PLAIN|
        invariant forall i :: 0 <= i < k ==> Has(values, PlainKey(PLAIN[i]), g.plain[PLAIN[i]])
        invariant forall key :: key in was && !(key.PlainKey? && key.p in PLAIN[..k]) ==> Has(values, key, was[key])
        invariant forall key :: key in values ==> key in was || (key.PlainKey? && key.p in PLAIN)
      {
        SetValue(PlainKey(PLAIN[k]), g.plain[PLAIN[k]]);
      }
      forall p | p in g.plain ensures Has(values, PlainKey(p), g.plain[p]) {
        var i :| 0 <= i < |PLAIN| && PLAIN[i] == p;
      }
      assert values == PutPlain(was, g);
    }

    /** Dropping stale entries, then each profile's own. */
    method SaveGroup(g: Group, content: map<string, Value>, env: Env)
      requires Fair(env)
      modifies this
      ensures values == Rewritten(old(values), g, content, env)
    {
      ghost var was := values;
      var names := env.sorted(content.Keys);
      assert forall n :: n in names <==> n in content.Keys;
      hide Fair;
      RemoveGroup(g);
      assert names[0..] == names;
      for k := 0 to |names|
        invariant PutAll(values, g, names[k..], content, env) == PutAll(WithoutGroup(was, g), g, names, content, env)
      {
        assert names[k] in names;
        Tail(names, k);
        SetValue(Entry(g, Folded(names[k], env.fold)), content[names[k]]);
      }
    }

    method SaveSplit(p: Split, env: Env)
      requires Fair(env)
      modifies this
      ensures values == PutSplit(old(values), p, env)
    {
      hide Fair, Rewritten;
      SetValue(Rules, List(p.domains));
      SetValue(ActiveProfile, Text(p.active));
      SetValue(ProfileNames, List(env.sorted(p.profiles.Keys)));
      SetValue(ProfileOrder, List(p.order));
      assert values == Named(old(values), p, env);
      SaveGroup(Domains, ListValues(p.profiles), env);
      SaveGroup(Apps, ListValues(p.profileApps), env);
      label seeding:
      SetValue(AppsSeeded, Flag(true));
      RemoveKey(OldAppRules);
      SetValue(ConfigProfiles, Entries(p.configProfiles));
      SetValue(GeoHours, Number(p.geoHours));
      RemoveKey(GeoAuto);
      assert values == Seeded(old@seeding(values), p);
      SaveGroup(Geo, GeoValues(p), env);
    }

    method SaveAppSettings(cfg: Settings, env: Env)
      requires Fair(env) && forall p :: p in cfg.general.plain <==> p in PLAIN
      modifies this
      ensures values == Saved(old(values), cfg, env)
    {
      hide Fair, PutPlain, PutSplit;
      SavePlain(cfg.general);
      SetValue(LogPath, Text(cfg.general.logPath));
      SetValue(SplitEnabled, Flag(cfg.general.splitEnabled));
      SetValue(Mode, Text(cfg.general.mode));
      SetValue(ExcludedRoutes, List(cfg.general.excludedRoutes));
      assert values == PutGeneral(old(values), cfg.general);
      SaveSplit(cfg.split, env);
      SetValue(HotkeysEnabled, Flag(cfg.hotkeys.enabled));
      SetValue(HotkeysOptIn, Flag(true));
      SetValue(HotkeyToggle, Text(cfg.hotkeys.toggle));
      SetValue(HotkeyConnect, Text(cfg.hotkeys.connect));
      SetValue(HotkeyDisconnect, Text(cfg.hotkeys.disconnect));
    }

    method LoadProfileMap(env: Env) returns (profiles: map<string, seq<string>>)
      ensures profiles == LoadedProfiles(values, env)
    {
      hide Sanitized, DomainsFor;
      var names := ListAt(values, ProfileNames, [DEFAULT]);
      var legacy := ListAt(values, Rules, []);
      profiles := map[];
      for k := 0 to |names|
        invariant profiles == map n | n in names[..k] :: Sanitized(DomainsFor(values, n, names, legacy, env), env.q)
      {
        var rules := SanitizedBypassRules(DomainsFor(values, names[k], names, legacy, env), env.q);
        profiles := profiles[names[k] := rules];
        assert names[..k + 1] == names[..k] + [names[k]];
      }
      assert names[..|names|] == names;
      if |profiles| == 0 {
        profiles := map[DEFAULT := Sanitized(env.recommended, env.q)];
      }
      if legacy != [] && (DEFAULT !in profiles || profiles[DEFAULT] == []) && names == [DEFAULT] {
        var rules := SanitizedBypassRules(legacy, env.q);
        profiles := profiles[DEFAULT := rules];
      }
    }

    method ReadGeoLists(rows: seq<Row>) returns (lists: seq<GeoList>)
      ensures lists == GeoListsOf(rows, {})
    {
      lists := [];
      var ids: set<string> := {};
      assert rows[0..] == rows;
      EmptyPlus(GeoListsOf(rows, {}));
      for k := 0 to |rows|
        invariant lists + GeoListsOf(rows[k..], ids) == GeoListsOf(rows, {})
      {
        var r := rows[k];
        Tail(rows, k);
        if !IsGeoRow(r) || r.id in ids {
          continue;
        }
        var list := GeoList(r.id, r.name, r.source, r.kind == "ips", r.direction == "bypass", r.enabled);
        Assoc(lists, [list], GeoListsOf(rows[k + 1..], ids + {r.id}));
        ids := ids + {r.id};
        lists := lists + [list];
      }
      RightUnit(lists);
    }

    method MergeProfileOrder(profiles: map<string, seq<string>>, env: Env) returns (order: seq<string>)
      ensures order == LoadedOrder(values, profiles.Keys, env)
    {
      var names := env.sorted(profiles.Keys);
      var stored := ListAt(values, ProfileOrder, names);
      order := [];
      assert stored[0..] == stored && names[0..] == names;
      for k := 0 to |stored|
        invariant OrderAfter(order, stored[k..], profiles.Keys) == OrderAfter([], stored, profiles.Keys)
      {
        Tail(stored, k);
        if stored[k] in profiles && stored[k] !in order {
          order := order + [stored[k]];
        }
      }
      ghost var first := order;
      for k := 0 to |names|
        invariant OrderAfter(order, names[k..], profiles.Keys) == OrderAfter(first, names, profiles.Keys)
      {
        Tail(names, k);
        if names[k] in profiles && names[k] !in order {
          order := order + [names[k]];
        }
      }
      if DEFAULT !in order {
        order := [DEFAULT] + order;
      }
    }

    method LoadAppSettings(env: Env) returns (out: Settings)
      requires Fair(env)
      ensures out == Loaded(values, env)
    {
      hide Fair, LoadedProfiles, LoadedApps, LoadedGeo, LoadedOrder, LoadedGeneral, LoadedHotkeys;
      var profiles := LoadProfileMap(env);
      SomeProfile(values, env);
      var apps := LoadedApps(values, profiles, env);
      var geo := LoadedGeo(values, profiles, env);
      var active := LoadedActive(values, profiles, env);
      var order := MergeProfileOrder(profiles, env);
      AppsOfEach(values, profiles, env);
      var configs := if ConfigProfiles in values && values[ConfigProfiles].Entries? then values[ConfigProfiles].m else map[];
      var split := Split(profiles[active], apps[active], active, profiles, apps, geo, order, configs, LoadedHours(values));
      out := Settings(LoadedGeneral(values, env), split, LoadedHotkeys(values));
    }
  }

  lemma AppsOfEach(s: Store, profiles: map<string, seq<string>>, env: Env)
    ensures LoadedApps(s, profiles, env).Keys == profiles.Keys
  {
  }
}
