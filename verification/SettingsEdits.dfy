/** What the user changes in the settings, and what every change keeps (BackendSplit.cpp,
    BackendGeo.cpp, BackendSettings.cpp). */
module SettingsEdits {
  import opened Text
  import opened BypassRules
  import opened AppSettings
  import opened SettingsRoundTrip

  // ---------- lists ----------

  function WithoutAt<T>(s: seq<T>, i: int): seq<T> {
    if 0 <= i < |s| then s[..i] + s[i + 1..] else s
  }

  function WithoutName(s: seq<string>, name: string): (r: seq<string>)
    ensures forall x :: x in r <==> x in s && x != name
  {
    if s == [] then [] else (if s[0] == name then [] else [s[0]]) + WithoutName(s[1..], name)
  }

  /** The pasted rules to add: trimmed, valid, and not there yet. */
  function NewRules(tokens: seq<string>, have: seq<string>, added: seq<string>, valid: string -> bool): seq<string>
    decreases |tokens|
  {
    if tokens == [] then added
    else
      var t := Trim(tokens[0]);
      NewRules(tokens[1..], have, if t == "" || t in have || t in added || !valid(t) then added else added + [t], valid)
  }

  function DomainRule(q: Parsers): string -> bool { r => IsValidRule(r, q) }

  function SubnetRule(q: Parsers): string -> bool { r => IsValidSubnet(r, q) }

  /** The shipped rules that are not there yet. */
  function Missing(rules: seq<string>, shipped: seq<string>): seq<string>
    decreases |shipped|
  {
    if shipped == [] then rules
    else Missing(if shipped[0] in rules then rules else rules + [shipped[0]], shipped[1..])
  }

  // ---------- profiles ----------

  /** A change to the active profile's domains, in the mirror and in the profile. */
  function SetDomains(p: Split, list: seq<string>): Split {
    p.(domains := list, profiles := p.profiles[p.active := list])
  }

  function SetApps(p: Split, list: seq<string>): Split {
    p.(apps := list, profileApps := p.profileApps[p.active := list])
  }

  function SetGeo(p: Split, list: seq<GeoList>): Split {
    p.(geoLists := p.geoLists[p.active := list])
  }

  function AddDomains(p: Split, tokens: seq<string>, env: Env): Split {
    var added := NewRules(tokens, p.domains, [], DomainRule(env.q));
    if added == [] then p else SetDomains(p, p.domains + added)
  }

  function RemoveDomain(p: Split, i: int): Split {
    if 0 <= i < |p.domains| then SetDomains(p, WithoutAt(p.domains, i)) else p
  }

  function ClearDomains(p: Split): Split { if p.domains == [] then p else SetDomains(p, []) }

  function AddRecommended(p: Split, env: Env): Split {
    var rules := Missing(p.domains, Sanitized(env.recommended, env.q));
    if rules == p.domains then p else SetDomains(p, rules)
  }

  /** `norm` is the rule as it is stored, nothing when it is none; paths compare as the system's do. */
  function AddApp(p: Split, norm: string, key: string -> string): Split {
    if norm == "" || (exists i :: 0 <= i < |p.apps| && key(p.apps[i]) == key(norm)) then p
    else SetApps(p, p.apps + [norm])
  }

  function RemoveApp(p: Split, i: int): Split {
    if 0 <= i < |p.apps| then SetApps(p, WithoutAt(p.apps, i)) else p
  }

  function ClearApps(p: Split): Split { if p.apps == [] then p else SetApps(p, []) }

  function SelectProfile(p: Split, name: string): Split {
    if name !in p.profiles || p.active == name then p
    else
      p.(active := name, domains := p.profiles[name],
         apps := if name in p.profileApps then p.profileApps[name] else [])
  }

  predicate TakenName(p: Split, n: string, env: Env) {
    exists k :: k in p.profiles && Folded(k, env.same) == Folded(n, env.same)
  }

  function AddProfile(p: Split, name: string, env: Env): Split {
    var n := Trim(name);
    if n == "" || n in p.profiles || TakenName(p, n, env) then p
    else
      p.(profiles := p.profiles[n := []], profileApps := p.profileApps[n := []], geoLists := p.geoLists[n := []],
         order := p.order + [n], active := n, domains := [], apps := [])
  }

  function RemoveProfile(p: Split, name: string): Split {
    if name == DEFAULT || name !in p.profiles then p
    else
      var q := p.(profiles := p.profiles - {name}, profileApps := p.profileApps - {name},
                  geoLists := p.geoLists - {name}, order := WithoutName(p.order, name),
                  configProfiles := map c | c in p.configProfiles ::
                    if p.configProfiles[c] == name then DEFAULT else p.configProfiles[c]);
      if p.active != name then q
      else
        q.(active := DEFAULT, domains := if DEFAULT in q.profiles then q.profiles[DEFAULT] else [],
           apps := if DEFAULT in q.profileApps then q.profileApps[DEFAULT] else [])
  }

  /** assignSplitProfile(): a config moves from one path to another, with a profile of its own
      unless it is Default. */
  function AssignProfile(p: Split, from: string, to: string, profile: string): Split {
    var left := if from != "" && from != to then p.configProfiles - {from} else p.configProfiles;
    p.(configProfiles := if profile == DEFAULT then left - {to} else left[to := profile])
  }

  // ---------- geo lists ----------

  function ActiveGeo(p: Split): seq<GeoList> { if p.active in p.geoLists then p.geoLists[p.active] else [] }

  function AddGeo(p: Split, list: GeoList): Split {
    if exists i :: 0 <= i < |ActiveGeo(p)| && ActiveGeo(p)[i].source == list.source && ActiveGeo(p)[i].ips == list.ips
    then p else SetGeo(p, ActiveGeo(p) + [list])
  }

  function IndexOfGeo(lists: seq<GeoList>, id: string): (k: nat)
    ensures k <= |lists|
    ensures k < |lists| ==> lists[k].id == id
    ensures forall i :: 0 <= i < k ==> lists[i].id != id
  {
    if lists == [] || lists[0].id == id then 0 else 1 + IndexOfGeo(lists[1..], id)
  }

  function ChangeGeo(p: Split, id: string, change: GeoList -> GeoList): Split {
    var k := IndexOfGeo(ActiveGeo(p), id);
    if k == |ActiveGeo(p)| then p else SetGeo(p, ActiveGeo(p)[k := change(ActiveGeo(p)[k])])
  }

  function WithoutGeo(lists: seq<GeoList>, id: string): seq<GeoList> {
    if lists == [] then [] else (if lists[0].id == id then [] else [lists[0]]) + WithoutGeo(lists[1..], id)
  }

  function SetHours(p: Split, hours: int): Split { if hours in GEO_HOURS then p.(geoHours := hours) else p }

  // ---------- the other settings ----------

  function AddRoutes(g: General, tokens: seq<string>, env: Env): General {
    g.(excludedRoutes := g.excludedRoutes + NewRules(tokens, g.excludedRoutes, [], SubnetRule(env.q)))
  }

  function Normalized(mode: string): string { if mode == "selective" then "selective" else "general" }

  datatype Edit =
    | PasteDomains(tokens: seq<string>) | DropDomain(i: int) | DropDomains | Recommend
    | PasteApp(norm: string) | DropApp(i: int) | DropApps
    | ChooseProfile(name: string) | NewProfile(name: string) | DropProfile(name: string)
    | Assign(from: string, to: string, profile: string) | Unassign(path: string)
    | NewGeo(list: GeoList) | EnableGeo(id: string, on: bool) | TurnGeo(id: string, bypass: bool) | DropGeo(id: string)
    | GeoEvery(hours: int)
    | TurnSplit(on: bool) | ChooseMode(mode: string)
    | PasteRoutes(tokens: seq<string>) | DropRoute(i: int) | DropRoutes | ShippedRoutes
    | SetPlain(p: Plain, v: Value) | SetHotkeys(h: Hotkeys)

  function EditedSplit(p: Split, e: Edit, env: Env, key: string -> string): Split {
    match e
    case PasteDomains(tokens) => AddDomains(p, tokens, env)
    case DropDomain(i) => RemoveDomain(p, i)
    case DropDomains => ClearDomains(p)
    case Recommend => AddRecommended(p, env)
    case PasteApp(norm) => AddApp(p, norm, key)
    case DropApp(i) => RemoveApp(p, i)
    case DropApps => ClearApps(p)
    case ChooseProfile(name) => SelectProfile(p, name)
    case NewProfile(name) => AddProfile(p, name, env)
    case DropProfile(name) => RemoveProfile(p, name)
    case Assign(from, to, profile) => AssignProfile(p, from, to, profile)
    case Unassign(path) => p.(configProfiles := p.configProfiles - {path})
    case NewGeo(list) => AddGeo(p, list)
    case EnableGeo(id, on) => ChangeGeo(p, id, (l: GeoList) => l.(enabled := on))
    case TurnGeo(id, bypass) => ChangeGeo(p, id, (l: GeoList) => l.(bypass := bypass))
    case DropGeo(id) => SetGeo(p, WithoutGeo(ActiveGeo(p), id))
    case GeoEvery(hours) => SetHours(p, hours)
    case _ => p
  }

  function EditedGeneral(g: General, e: Edit, env: Env): General {
    match e
    case TurnSplit(on) => g.(splitEnabled := on)
    case ChooseMode(mode) => g.(mode := Normalized(mode))
    case PasteRoutes(tokens) => AddRoutes(g, tokens, env)
    case DropRoute(i) => g.(excludedRoutes := WithoutAt(g.excludedRoutes, i))
    case DropRoutes => g.(excludedRoutes := [])
    case ShippedRoutes => g.(excludedRoutes := env.routes)
    case SetPlain(p, v) => if p in g.plain then g.(plain := g.plain[p := v]) else g
    case _ => g
  }

  function Edited(cfg: Settings, e: Edit, env: Env, key: string -> string): Settings {
    Settings(EditedGeneral(cfg.general, e, env), EditedSplit(cfg.split, e, env, key),
             if e.SetHotkeys? then e.h else cfg.hotkeys)
  }

  /** A new geo list has an id no other has: it is made for it. */
  predicate FreshId(p: Split, e: Edit) {
    e.NewGeo? ==> e.list.id != "" && forall i :: 0 <= i < |ActiveGeo(p)| ==> ActiveGeo(p)[i].id != e.list.id
  }

  // ---------- what every edit keeps ----------

  lemma {:induction false} NewRulesAre(tokens: seq<string>, have: seq<string>, added: seq<string>, valid: string -> bool)
    requires NoDuplicates(have + added) && forall r :: r in added ==> r != "" && IsTrimmed(r) && valid(r)
    ensures var all := NewRules(tokens, have, added, valid);
      NoDuplicates(have + all) && forall r :: r in all ==> r != "" && IsTrimmed(r) && valid(r)
    decreases |tokens|
  {
    hide IsTrimmed, NoDuplicates;
    if tokens != [] {
      var t := Trim(tokens[0]);
      if !(t == "" || t in have || t in added || !valid(t)) {
        OneMoreName(have, added, t);
        NewRulesAre(tokens[1..], have, added + [t], valid);
      } else {
        NewRulesAre(tokens[1..], have, added, valid);
      }
    }
  }

  lemma OneMoreName(have: seq<string>, added: seq<string>, t: string)
    requires NoDuplicates(have + added) && t !in have && t !in added
    ensures NoDuplicates(have + (added + [t]))
  {
    Assoc(have, added, [t]);
    assert t !in have + added;
  }

  lemma AddedStaysClean(p: Split, tokens: seq<string>, env: Env)
    requires Fair(env) && IsClean(p.domains, env.q)
    ensures IsClean(p.domains + NewRules(tokens, p.domains, [], DomainRule(env.q)), env.q)
  {
    var added := NewRules(tokens, p.domains, [], DomainRule(env.q));
    RightUnit(p.domains);
    NewRulesAre(tokens, p.domains, [], DomainRule(env.q));
    hide NewRules, IsTrimmed, IsValidRule, CoreRule;
    forall r | r in p.domains + added ensures r != "" && IsTrimmed(r) && CoreRule(r, env.q) != "" {
      if r !in p.domains { ValidIffUsable(r, env.q); }
    }
  }

  lemma WithoutAtStaysClean(rules: seq<string>, i: nat, q: Parsers)
    requires IsClean(rules, q) && i < |rules|
    ensures IsClean(WithoutAt(rules, i), q)
  {
    hide IsTrimmed, CoreRule;
    var less := WithoutAt(rules, i);
    forall j, k | 0 <= j < k < |less| ensures less[j] != less[k] {
      assert less[j] == rules[if j < i then j else j + 1] && less[k] == rules[if k < i then k else k + 1];
    }
    forall r | r in less ensures r in rules { }
  }

  lemma {:induction false} MissingStaysClean(rules: seq<string>, shipped: seq<string>, q: Parsers)
    requires IsClean(rules, q) && forall r :: r in shipped ==> r != "" && IsTrimmed(r) && CoreRule(r, q) != ""
    ensures IsClean(Missing(rules, shipped), q)
    decreases |shipped|
  {
    hide IsTrimmed, CoreRule, IsClean;
    if shipped != [] {
      assert shipped[0] in shipped && forall r :: r in shipped[1..] ==> r in shipped;
      if shipped[0] in rules {
        MissingStaysClean(rules, shipped[1..], q);
      } else {
        CleanGrows(rules, shipped[0], q);
        MissingStaysClean(rules + [shipped[0]], shipped[1..], q);
      }
    }
  }

  lemma SetDomainsKeeps(p: Split, list: seq<string>, env: Env)
    requires SplitOk(p, env) && IsClean(list, env.q)
    ensures SplitOk(SetDomains(p, list), env)
  {
  }

  lemma SetAppsKeeps(p: Split, list: seq<string>, env: Env)
    requires SplitOk(p, env)
    ensures SplitOk(SetApps(p, list), env)
  {
  }

  lemma SetGeoKeeps(p: Split, list: seq<GeoList>, env: Env)
    requires SplitOk(p, env) && GeoListsOk(list)
    ensures SplitOk(SetGeo(p, list), env)
  {
  }

  lemma SelectKeeps(p: Split, name: string, env: Env)
    requires SplitOk(p, env)
    ensures SplitOk(SelectProfile(p, name), env)
  {
    hide IsClean, GeoListsOk, NamesApart;
  }

  lemma NothingIsClean(q: Parsers)
    ensures IsClean([], q) && GeoListsOk([])
  {
  }

  lemma MoreApart(names: set<string>, n: string, same: char -> char)
    requires NamesApart(names, same) && forall k :: k in names ==> Folded(k, same) != Folded(n, same)
    ensures NamesApart(names + {n}, same)
  {
    hide Folded;
  }

  lemma LastInOrder(s: seq<string>, n: string)
    requires NoDuplicates(s) && n !in s
    ensures NoDuplicates(s + [n])
  {
  }

  lemma AddProfileKeeps(p: Split, name: string, env: Env)
    requires SplitOk(p, env)
    ensures SplitOk(AddProfile(p, name, env), env)
  {
    hide IsClean, GeoListsOk, Folded, NamesApart, NoDuplicates;
    var n := Trim(name);
    var q := AddProfile(p, name, env);
    if q != p {
      NothingIsClean(env.q);
      assert q.profiles.Keys == p.profiles.Keys + {n};
      MoreApart(p.profiles.Keys, n, env.same);
      LastInOrder(p.order, n);
    }
  }

  lemma {:induction false} WithoutNameKeepsOrder(s: seq<string>, name: string)
    requires NoDuplicates(s)
    ensures NoDuplicates(WithoutName(s, name))
  {
    if s != [] {
      assert forall i :: 0 <= i < |s[1..]| ==> s[1..][i] == s[i + 1];
      WithoutNameKeepsOrder(s[1..], name);
      var rest := WithoutName(s[1..], name);
      assert s[0] !in s[1..];
      EmptyPlus(rest);
    }
  }

  lemma FewerApart(names: set<string>, fewer: set<string>, same: char -> char)
    requires NamesApart(names, same) && fewer <= names
    ensures NamesApart(fewer, same)
  {
    hide Folded;
  }

  /** Without a profile that is not the active one. */
  lemma DropOtherKeeps(p: Split, name: string, configs: map<string, string>, env: Env)
    requires SplitOk(p, env) && name != DEFAULT && name != p.active
    ensures SplitOk(p.(profiles := p.profiles - {name}, profileApps := p.profileApps - {name},
                       geoLists := p.geoLists - {name}, order := WithoutName(p.order, name), configProfiles := configs),
                    env)
  {
    hide IsClean, GeoListsOk, NamesApart, NoDuplicates;
    FewerApart(p.profiles.Keys, (p.profiles - {name}).Keys, env.same);
    WithoutNameKeepsOrder(p.order, name);
    hide WithoutName;
  }

  lemma RemoveProfileKeeps(p: Split, name: string, env: Env)
    requires SplitOk(p, env)
    ensures SplitOk(RemoveProfile(p, name), env)
  {
    if name != DEFAULT && name in p.profiles {
      var configs := map c | c in p.configProfiles ::
        if p.configProfiles[c] == name then DEFAULT else p.configProfiles[c];
      var there := if p.active == name then SelectProfile(p, DEFAULT) else p;
      assert DEFAULT in p.profiles && DEFAULT in p.profileApps;
      assert RemoveProfile(p, name)
        == there.(profiles := p.profiles - {name}, profileApps := p.profileApps - {name}, geoLists := p.geoLists - {name},
                  order := WithoutName(p.order, name), configProfiles := configs);
      hide SplitOk;
      SelectKeeps(p, DEFAULT, env);
      DropOtherKeeps(there, name, configs, env);
    }
  }

  lemma GeoGrows(lists: seq<GeoList>, list: GeoList)
    requires GeoListsOk(lists) && list.id != "" && forall i :: 0 <= i < |lists| ==> lists[i].id != list.id
    ensures GeoListsOk(lists + [list])
  {
  }

  lemma ChangeGeoKeeps(p: Split, id: string, change: GeoList -> GeoList, env: Env)
    requires SplitOk(p, env) && forall l :: change(l).id == l.id
    ensures SplitOk(ChangeGeo(p, id, change), env)
  {
    var lists := ActiveGeo(p);
    var k := IndexOfGeo(lists, id);
    if k < |lists| {
      assert GeoListsOk(lists);
      SetGeoKeeps(p, lists[k := change(lists[k])], env);
    }
  }

  lemma {:induction false} WithoutGeoKeeps(lists: seq<GeoList>, id: string)
    requires GeoListsOk(lists)
    ensures GeoListsOk(WithoutGeo(lists, id)) && forall l :: l in WithoutGeo(lists, id) ==> l in lists
  {
    if lists != [] {
      var rest := WithoutGeo(lists[1..], id);
      assert forall i :: 0 <= i < |lists[1..]| ==> lists[1..][i] == lists[i + 1];
      WithoutGeoKeeps(lists[1..], id);
      EmptyPlus(rest);
      if lists[0].id != id {
        forall j | 0 <= j < |rest| ensures rest[j].id != lists[0].id { assert rest[j] in lists[1..]; }
      }
    }
  }

  lemma GeneralKeeps(g: General, e: Edit, env: Env)
    requires Fair(env) && GeneralOk(g, env)
    ensures GeneralOk(EditedGeneral(g, e, env), env)
  {
    hide IsEveryAddress, IsValidSubnet;
    match e
    case PasteRoutes(tokens) => AddRoutesKeeps(g, tokens, env);
    case _ =>
  }

  lemma AddRoutesKeeps(g: General, tokens: seq<string>, env: Env)
    requires GeneralOk(g, env)
    ensures GeneralOk(AddRoutes(g, tokens, env), env)
  {
    hide IsEveryAddress, IsValidSubnet, IsTrimmed, IsSpace;
    var valid := SubnetRule(env.q);
    NewOnesValid(tokens, g.excludedRoutes, [], valid);
    forall r | r in NewRules(tokens, g.excludedRoutes, [], valid) ensures !IsEveryAddress(r, env.q) {
      ValidSubnetIsNotEveryAddress(r, env.q);
    }
  }

  lemma {:induction false} NewOnesValid(tokens: seq<string>, have: seq<string>, added: seq<string>, valid: string -> bool)
    requires forall r :: r in added ==> IsTrimmed(r) && valid(r)
    ensures forall r :: r in NewRules(tokens, have, added, valid) ==> IsTrimmed(r) && valid(r)
    decreases |tokens|
  {
    hide IsTrimmed;
    if tokens != [] {
      var t := Trim(tokens[0]);
      NewOnesValid(tokens[1..], have, if t == "" || t in have || t in added || !valid(t) then added else added + [t], valid);
    }
  }

  lemma DomainEditKeeps(p: Split, e: Edit, env: Env, key: string -> string)
    requires Fair(env) && SplitOk(p, env) && IsClean(p.domains, env.q)
    requires e.PasteDomains? || e.DropDomain? || e.DropDomains? || e.Recommend?
    ensures SplitOk(EditedSplit(p, e, env, key), env)
  {
    hide SplitOk, IsClean, SetDomains, Sanitized, NewRules, Missing;
    NothingIsClean(env.q);
    match e
    case PasteDomains(tokens) =>
      AddedStaysClean(p, tokens, env);
      SetDomainsKeeps(p, p.domains + NewRules(tokens, p.domains, [], DomainRule(env.q)), env);
    case DropDomain(i) =>
      if 0 <= i < |p.domains| {
        WithoutAtStaysClean(p.domains, i, env.q);
        SetDomainsKeeps(p, WithoutAt(p.domains, i), env);
      }
    case DropDomains => SetDomainsKeeps(p, [], env);
    case Recommend =>
      ShippedAreUsable(env);
      MissingStaysClean(p.domains, Sanitized(env.recommended, env.q), env.q);
      SetDomainsKeeps(p, Missing(p.domains, Sanitized(env.recommended, env.q)), env);
  }

  lemma GeoEditKeeps(p: Split, e: Edit, env: Env, key: string -> string)
    requires SplitOk(p, env) && FreshId(p, e) && GeoListsOk(ActiveGeo(p))
    requires e.NewGeo? || e.EnableGeo? || e.TurnGeo? || e.DropGeo?
    ensures SplitOk(EditedSplit(p, e, env, key), env)
  {
    hide SplitOk, SetGeo, ChangeGeo, GeoListsOk;
    match e
    case NewGeo(list) =>
      GeoGrows(ActiveGeo(p), list);
      SetGeoKeeps(p, ActiveGeo(p) + [list], env);
    case EnableGeo(id, on) => ChangeGeoKeeps(p, id, (l: GeoList) => l.(enabled := on), env);
    case TurnGeo(id, bypass) => ChangeGeoKeeps(p, id, (l: GeoList) => l.(bypass := bypass), env);
    case DropGeo(id) =>
      WithoutGeoKeeps(ActiveGeo(p), id);
      SetGeoKeeps(p, WithoutGeo(ActiveGeo(p), id), env);
  }

  lemma HoursKeep(p: Split, hours: int, env: Env)
    requires SplitOk(p, env)
    ensures SplitOk(SetHours(p, hours), env)
  {
    hide IsClean, GeoListsOk, NamesApart;
  }

  lemma ConfigsKeep(p: Split, configs: map<string, string>, env: Env)
    requires SplitOk(p, env)
    ensures SplitOk(p.(configProfiles := configs), env)
  {
    hide IsClean, GeoListsOk, NamesApart;
  }

  lemma OtherEditKeeps(p: Split, e: Edit, env: Env, key: string -> string)
    requires SplitOk(p, env)
    requires e.PasteApp? || e.DropApp? || e.DropApps? || e.ChooseProfile? || e.NewProfile? || e.DropProfile? || e.Assign?
      || e.Unassign? || e.GeoEvery?
    ensures SplitOk(EditedSplit(p, e, env, key), env)
  {
    hide SplitOk, SetApps, SelectProfile, AddProfile, RemoveProfile;
    match e
    case PasteApp(norm) => SetAppsKeeps(p, p.apps + [norm], env);
    case DropApp(i) => SetAppsKeeps(p, WithoutAt(p.apps, i), env);
    case DropApps => SetAppsKeeps(p, [], env);
    case ChooseProfile(name) => SelectKeeps(p, name, env);
    case NewProfile(name) => AddProfileKeeps(p, name, env);
    case DropProfile(name) => RemoveProfileKeeps(p, name, env);
    case Assign(from, to, profile) => ConfigsKeep(p, AssignProfile(p, from, to, profile).configProfiles, env);
    case Unassign(path) => ConfigsKeep(p, p.configProfiles - {path}, env);
    case GeoEvery(hours) => HoursKeep(p, hours, env);
  }

  lemma SplitKeeps(p: Split, e: Edit, env: Env, key: string -> string)
    requires Fair(env) && SplitOk(p, env) && FreshId(p, e)
    ensures SplitOk(EditedSplit(p, e, env, key), env)
  {
    assert IsClean(p.domains, env.q) && GeoListsOk(ActiveGeo(p));
    hide Fair, SplitOk, IsClean, GeoListsOk, FreshId;
    if e.PasteDomains? || e.DropDomain? || e.DropDomains? || e.Recommend? {
      hide EditedSplit;
      DomainEditKeeps(p, e, env, key);
    } else if e.NewGeo? || e.EnableGeo? || e.TurnGeo? || e.DropGeo? {
      hide EditedSplit;
      GeoEditKeeps(p, e, env, key);
    } else if e.PasteApp? || e.DropApp? || e.DropApps? || e.ChooseProfile? || e.NewProfile? || e.DropProfile? || e.Assign?
              || e.Unassign? || e.GeoEvery? {
      hide EditedSplit;
      OtherEditKeeps(p, e, env, key);
    }
  }

  lemma ShippedAreUsable(env: Env)
    ensures forall r :: r in Sanitized(env.recommended, env.q) ==>
      r != "" && IsTrimmed(r) && CoreRule(r, env.q) != ""
  {
    CleanIffFixed(env.recommended, env.q);
    CleanIffFixed(Sanitized(env.recommended, env.q), env.q);
  }

  lemma EditKeepsConsistent(cfg: Settings, e: Edit, env: Env, key: string -> string)
    requires Fair(env) && Consistent(cfg, env) && FreshId(cfg.split, e)
    ensures Consistent(Edited(cfg, e, env, key), env)
  {
    hide Fair, GeneralOk, SplitOk, EditedGeneral, EditedSplit;
    GeneralKeeps(cfg.general, e, env);
    SplitKeeps(cfg.split, e, env, key);
  }

  // ---------- runs ----------

  /** The settings after the edits, each saved as it is made. */
  function AfterEdits(cfg: Settings, edits: seq<Edit>, env: Env, key: string -> string): Settings
    decreases |edits|
  {
    if edits == [] then cfg else AfterEdits(Edited(cfg, edits[0], env, key), edits[1..], env, key)
  }

  function StoreAfter(s: Store, cfg: Settings, edits: seq<Edit>, env: Env, key: string -> string): Store
    requires Fair(env)
    decreases |edits|
  {
    if edits == [] then s
    else
      var next := Edited(cfg, edits[0], env, key);
      StoreAfter(Saved(s, next, env), next, edits[1..], env, key)
  }

  ghost predicate FreshIds(cfg: Settings, edits: seq<Edit>, env: Env, key: string -> string)
    decreases |edits|
  {
    edits == [] || (FreshId(cfg.split, edits[0]) && FreshIds(Edited(cfg, edits[0], env, key), edits[1..], env, key))
  }

  /** From a fresh start through any edits, what a restart loads is what was in memory. */
  lemma {:induction false} RestartChangesNothing(s: Store, cfg: Settings, edits: seq<Edit>, env: Env, key: string -> string)
    requires Fair(env) && Consistent(cfg, env) && Loaded(s, env) == cfg && FreshIds(cfg, edits, env, key)
    ensures Loaded(StoreAfter(s, cfg, edits, env, key), env) == AfterEdits(cfg, edits, env, key)
    ensures Consistent(AfterEdits(cfg, edits, env, key), env)
    decreases |edits|
  {
    hide Fair, Consistent, Edited, Loaded, Saved;
    if edits != [] {
      var next := Edited(cfg, edits[0], env, key);
      EditKeepsConsistent(cfg, edits[0], env, key);
      LoadAfterSave(s, next, env);
      RestartChangesNothing(Saved(s, next, env), next, edits[1..], env, key);
    }
  }
}
