/** The edits as the program makes them: each changes the settings in place, mirrors and all, and
    saves them (BackendSplit.cpp, BackendGeo.cpp, BackendSettings.cpp). */
module SettingsEditor {
  import opened Text
  import opened BypassRules
  import opened AppSettings
  import opened SettingsRoundTrip
  import opened SettingsEdits
  import opened SettingsFile

  class Editor {
    const env: Env
    const key: string -> string
    const store: SettingsStore
    var general: General
    var split: Split
    var hotkeys: Hotkeys

    function View(): Settings
      reads this
    {
      Settings(general, split, hotkeys)
    }

    /** The settings are consistent, and a restart would load just them. */
    ghost predicate Valid()
      reads this, store
    {
      Fair(env) && Consistent(View(), env) && Loaded(store.values, env) == View()
    }

    /** A start over what the store holds; a store that was never written, or by the program, does. */
    constructor (store: SettingsStore, env: Env, key: string -> string)
      requires Fair(env) && Consistent(Loaded(store.values, env), env)
      ensures Valid() && this.store == store && this.env == env && this.key == key
      ensures View() == Loaded(store.values, env)
    {
      hide Fair, Consistent, Loaded;
      var loaded := store.LoadAppSettings(env);
      this.store, this.env, this.key := store, env, key;
      general, split, hotkeys := loaded.general, loaded.split, loaded.hotkeys;
    }

    method Persist()
      requires Fair(env) && Consistent(View(), env)
      modifies store
      ensures Valid() && View() == old(View())
    {
      hide Fair, Consistent, Saved, Loaded, PLAIN;
      LoadAfterSave(store.values, View(), env);
      PlainKeys(View(), env);
      store.SaveAppSettings(View(), env);
    }

    /** The domains, in the mirror and in the active profile, then saved. */
    method SaveDomains(list: seq<string>)
      requires Fair(env) && Consistent(View().(split := SetDomains(split, list)), env)
      modifies this, store
      ensures Valid() && View() == old(View()).(split := SetDomains(old(split), list))
    {
      hide Fair, Consistent, Loaded;
      split := split.(domains := list);
      split := split.(profiles := split.profiles[split.active := split.domains]);
      Persist();
    }

    method AddDomain(tokens: seq<string>) returns (ok: bool)
      requires Valid()
      modifies this, store
      ensures Valid() && View() == Edited(old(View()), PasteDomains(tokens), env, key)
    {
      hide Fair, Consistent, Loaded, SetDomains;
      EditKeepsConsistent(View(), PasteDomains(tokens), env, key);
      ghost var valid := DomainRule(env.q);
      var added: seq<string> := [];
      assert tokens[0..] == tokens;
      for k := 0 to |tokens|
        invariant NewRules(tokens[k..], split.domains, added, valid) == NewRules(tokens, split.domains, [], valid)
        modifies {}
      {
        var d := Trim(tokens[k]);
        Tail(tokens, k);
        if d == "" || d in split.domains || d in added {
          continue;
        }
        if !IsValidRule(d, env.q) {
          continue;
        }
        added := added + [d];
      }
      if added == [] {
        return false;
      }
      SaveDomains(split.domains + added);
      return true;
    }

    method RemoveDomainAt(i: int)
      requires Valid()
      modifies this, store
      ensures Valid() && View() == Edited(old(View()), DropDomain(i), env, key)
    {
      hide Fair, Consistent, Loaded, SetDomains;
      EditKeepsConsistent(View(), DropDomain(i), env, key);
      if i < 0 || i >= |split.domains| {
        return;
      }
      SaveDomains(WithoutAt(split.domains, i));
    }

    method ClearAllDomains()
      requires Valid()
      modifies this, store
      ensures Valid() && View() == Edited(old(View()), DropDomains, env, key)
    {
      hide Fair, Consistent, Loaded, SetDomains;
      EditKeepsConsistent(View(), DropDomains, env, key);
      if split.domains == [] {
        return;
      }
      SaveDomains([]);
    }

    method AddRecommendedRussia()
      requires Valid()
      modifies this, store
      ensures Valid() && View() == Edited(old(View()), Recommend, env, key)
    {
      hide Fair, Consistent, Loaded, SetDomains, Sanitized;
      EditKeepsConsistent(View(), Recommend, env, key);
      var shipped := Sanitized(env.recommended, env.q);
      var rules := split.domains;
      var added := 0;
      assert shipped[0..] == shipped;
      for k := 0 to |shipped|
        invariant Missing(rules, shipped[k..]) == Missing(split.domains, shipped)
        invariant split.domains <= rules && added == |rules| - |split.domains|
        modifies {}
      {
        Tail(shipped, k);
        if shipped[k] !in rules {
          rules := rules + [shipped[k]];
          added := added + 1;
        }
      }
      if added == 0 {
        assert rules == split.domains;
        return;
      }
      SaveDomains(rules);
    }

    /** The programs, in the mirror and in the active profile, then saved. */
    method SaveApps(list: seq<string>)
      requires Fair(env) && Consistent(View().(split := SetApps(split, list)), env)
      modifies this, store
      ensures Valid() && View() == old(View()).(split := SetApps(old(split), list))
    {
      hide Fair, Consistent, Loaded;
      split := split.(apps := list);
      split := split.(profileApps := split.profileApps[split.active := split.apps]);
      Persist();
    }

    method AddAppRule(norm: string) returns (ok: bool)
      requires Valid()
      modifies this, store
      ensures Valid() && View() == Edited(old(View()), PasteApp(norm), env, key)
    {
      hide Fair, Consistent, Loaded, SetApps;
      EditKeepsConsistent(View(), PasteApp(norm), env, key);
      if norm == "" {
        return false;
      }
      for k := 0 to |split.apps|
        invariant View() == old(View()) && forall i :: 0 <= i < k ==> key(split.apps[i]) != key(norm)
      {
        if key(split.apps[k]) == key(norm) {
          return false;
        }
      }
      SaveApps(split.apps + [norm]);
      return true;
    }

    method RemoveAppRule(i: int)
      requires Valid()
      modifies this, store
      ensures Valid() && View() == Edited(old(View()), DropApp(i), env, key)
    {
      hide Fair, Consistent, Loaded, SetApps;
      EditKeepsConsistent(View(), DropApp(i), env, key);
      if i < 0 || i >= |split.apps| {
        return;
      }
      SaveApps(WithoutAt(split.apps, i));
    }

    method SelectProfileNamed(name: string)
      requires Valid()
      modifies this, store
      ensures Valid() && View() == Edited(old(View()), ChooseProfile(name), env, key)
    {
      hide Fair, Consistent, Loaded;
      EditKeepsConsistent(View(), ChooseProfile(name), env, key);
      if name !in split.profiles || split.active == name {
        return;
      }
      split := split.(active := name);
      split := split.(domains := split.profiles[name]);
      split := split.(apps := if name in split.profileApps then split.profileApps[name] else []);
      Persist();
    }

    method IsTaken(n: string) returns (taken: bool)
      requires Fair(env)
      ensures taken == TakenName(split, n, env)
    {
      AllNames(env, split.profiles.Keys);
      hide Fair;
      var names := env.sorted(split.profiles.Keys);
      for k := 0 to |names|
        invariant forall i :: 0 <= i < k ==> Folded(names[i], env.same) != Folded(n, env.same)
      {
        if Folded(names[k], env.same) == Folded(n, env.same) {
          assert names[k] in names;
          return true;
        }
      }
      return false;
    }

    method AddProfileNamed(name: string)
      requires Valid()
      modifies this, store
      ensures Valid() && View() == Edited(old(View()), NewProfile(name), env, key)
    {
      hide Fair, Consistent, Loaded, TakenName;
      EditKeepsConsistent(View(), NewProfile(name), env, key);
      var n := Trim(name);
      if n == "" || n in split.profiles {
        return;
      }
      var taken := IsTaken(n);
      if taken {
        return;
      }
      split := split.(profiles := split.profiles[n := []], profileApps := split.profileApps[n := []],
                      geoLists := split.geoLists[n := []], order := split.order + [n]);
      split := split.(active := n, domains := [], apps := []);
      Persist();
    }

    method RemoveProfileNamed(name: string)
      requires Valid()
      modifies this, store
      ensures Valid() && View() == Edited(old(View()), DropProfile(name), env, key)
    {
      hide Fair, Consistent, Loaded;
      EditKeepsConsistent(View(), DropProfile(name), env, key);
      if name == DEFAULT || name !in split.profiles {
        return;
      }
      split := split.(profiles := split.profiles - {name}, profileApps := split.profileApps - {name},
                      geoLists := split.geoLists - {name}, order := WithoutName(split.order, name));
      split := split.(configProfiles := map c | c in split.configProfiles ::
                        if split.configProfiles[c] == name then DEFAULT else split.configProfiles[c]);
      if split.active == name {
        split := split.(active := DEFAULT, domains := if DEFAULT in split.profiles then split.profiles[DEFAULT] else [],
                        apps := if DEFAULT in split.profileApps then split.profileApps[DEFAULT] else []);
      }
      Persist();
    }

    method SetGeoListEnabled(id: string, on: bool)
      requires Valid()
      modifies this, store
      ensures Valid() && View() == Edited(old(View()), EnableGeo(id, on), env, key)
    {
      hide Fair, Consistent, Loaded;
      EditKeepsConsistent(View(), EnableGeo(id, on), env, key);
      var lists := ActiveGeo(split);
      var k := IndexOfGeo(lists, id);
      if k < |lists| {
        split := SetGeo(split, lists[k := lists[k].(enabled := on)]);
        Persist();
      }
    }

    /** `parses` says which addresses are those of a list. */
    method AddGeoList(id: string, name: string, source: string, ips: bool, bypass: bool, parses: string -> bool)
        returns (ok: bool)
      requires Valid() && FreshId(split, NewGeo(GeoList(id, Trim(name), Trim(source), ips, bypass, true)))
      modifies this, store
      ensures Valid() && (!ok ==> View() == old(View()))
      ensures View() ==
        if Trim(name) == "" || !parses(Trim(source)) then old(View())
        else Edited(old(View()), NewGeo(GeoList(id, Trim(name), Trim(source), ips, bypass, true)), env, key)
    {
      hide Fair, Consistent, Loaded, Trim;
      if Trim(name) == "" || !parses(Trim(source)) {
        return false;
      }
      var list := GeoList(id, Trim(name), Trim(source), ips, bypass, true);
      EditKeepsConsistent(View(), NewGeo(list), env, key);
      var lists := ActiveGeo(split);
      for k := 0 to |lists|
        invariant forall i :: 0 <= i < k ==> !(lists[i].source == list.source && lists[i].ips == list.ips)
        modifies {}
      {
        if lists[k].source == list.source && lists[k].ips == list.ips {
          return false;
        }
      }
      split := SetGeo(split, lists + [list]);
      Persist();
      return true;
    }

    method SetGeoListDirection(id: string, bypass: bool)
      requires Valid()
      modifies this, store
      ensures Valid() && View() == Edited(old(View()), TurnGeo(id, bypass), env, key)
    {
      hide Fair, Consistent, Loaded;
      EditKeepsConsistent(View(), TurnGeo(id, bypass), env, key);
      var lists := ActiveGeo(split);
      var k := IndexOfGeo(lists, id);
      if k < |lists| {
        split := SetGeo(split, lists[k := lists[k].(bypass := bypass)]);
        Persist();
      }
    }

    method RemoveGeoList(id: string)
      requires Valid()
      modifies this, store
      ensures Valid() && View() == Edited(old(View()), DropGeo(id), env, key)
    {
      hide Fair, Consistent, Loaded;
      EditKeepsConsistent(View(), DropGeo(id), env, key);
      split := SetGeo(split, WithoutGeo(ActiveGeo(split), id));
      Persist();
    }

    method SetGeoUpdateHours(hours: int)
      requires Valid()
      modifies this, store
      ensures Valid() && View() == Edited(old(View()), GeoEvery(hours), env, key)
    {
      hide Fair, Consistent, Loaded;
      EditKeepsConsistent(View(), GeoEvery(hours), env, key);
      if hours !in GEO_HOURS || split.geoHours == hours {
        return;
      }
      split := split.(geoHours := hours);
      Persist();
    }

    method SetVpnMode(mode: string)
      requires Valid()
      modifies this, store
      ensures Valid() && View() == Edited(old(View()), ChooseMode(mode), env, key)
    {
      hide Fair, Consistent, Loaded;
      EditKeepsConsistent(View(), ChooseMode(mode), env, key);
      var normalized := if mode == "selective" then "selective" else "general";
      if general.mode == normalized {
        return;
      }
      general := general.(mode := normalized);
      Persist();
    }

    method AddExcludedRoute(tokens: seq<string>) returns (ok: bool)
      requires Valid()
      modifies this, store
      ensures Valid() && View() == Edited(old(View()), PasteRoutes(tokens), env, key)
    {
      hide Fair, Consistent, Loaded;
      EditKeepsConsistent(View(), PasteRoutes(tokens), env, key);
      ghost var valid := SubnetRule(env.q);
      var added: seq<string> := [];
      assert tokens[0..] == tokens;
      for k := 0 to |tokens|
        invariant NewRules(tokens[k..], general.excludedRoutes, added, valid)
               == NewRules(tokens, general.excludedRoutes, [], valid)
        modifies {}
      {
        var r := Trim(tokens[k]);
        Tail(tokens, k);
        if r == "" || r in general.excludedRoutes || r in added {
          continue;
        }
        if !IsValidSubnet(r, env.q) {
          continue;
        }
        added := added + [r];
      }
      if added == [] {
        RightUnit(general.excludedRoutes);
        return false;
      }
      general := general.(excludedRoutes := general.excludedRoutes + added);
      Persist();
      return true;
    }
  }

  lemma PlainKeys(cfg: Settings, env: Env)
    requires Consistent(cfg, env)
    ensures forall p :: p in cfg.general.plain <==> p in PLAIN
  {
    hide PLAIN, SplitOk;
  }

  lemma AllNames(env: Env, names: set<string>)
    requires Fair(env)
    ensures forall x :: x in env.sorted(names) <==> x in names
  {
  }
}
