/** What is in the settings after each edit. */
module SettingsOutcomes {
  import opened Text
  import opened BypassRules
  import opened AppSettings
  import opened SettingsRoundTrip
  import opened SettingsEdits

  function After(cfg: Settings, e: Edit, env: Env, key: string -> string): Split {
    Edited(cfg, e, env, key).split
  }

  /** Only the active profile's domains changed, in the mirror and in the profile. */
  predicate OnlyDomains(p: Split, q: Split) {
    q == p.(domains := q.domains, profiles := p.profiles[p.active := q.domains])
  }

  /** Only its programs. */
  predicate OnlyApps(p: Split, q: Split) {
    q == p.(apps := q.apps, profileApps := p.profileApps[p.active := q.apps])
  }

  /** Only its geo lists. */
  predicate OnlyGeo(p: Split, q: Split) {
    q == p || (p.active in q.geoLists && q == p.(geoLists := p.geoLists[p.active := q.geoLists[p.active]]))
  }

  /** The entry at `i` is gone, the others stay in order. */
  predicate OneGone<T(==)>(was: seq<T>, now: seq<T>, i: int) {
    if 0 <= i < |was| then
      |now| == |was| - 1 && (forall k :: 0 <= k < i ==> now[k] == was[k]) && (forall k :: i <= k < |now| ==> now[k] == was[k + 1])
    else now == was
  }

  // ---------- lists ----------

  /** Some pasted line is the rule, once trimmed. */
  predicate Pasted(tokens: seq<string>, r: string) { exists t :: t in tokens && Trim(t) == r }

  lemma {:induction false} NewRulesHas(tokens: seq<string>, have: seq<string>, added: seq<string>, valid: string -> bool)
    ensures var all := NewRules(tokens, have, added, valid);
      && added <= all
      && forall r :: r in all <==> r in added || (Pasted(tokens, r) && r != "" && r !in have && valid(r))
  {
    if tokens != [] {
      var t := Trim(tokens[0]);
      var next := if t == "" || t in have || t in added || !valid(t) then added else added + [t];
      NewRulesHas(tokens[1..], have, next, valid);
      forall r ensures Pasted(tokens, r) <==> r == t || Pasted(tokens[1..], r) {
        if Pasted(tokens[1..], r) { var x :| x in tokens[1..] && Trim(x) == r; assert x in tokens; }
        assert tokens[0] in tokens;
      }
    }
  }

  lemma {:induction false} MissingHas(rules: seq<string>, shipped: seq<string>)
    ensures var all := Missing(rules, shipped);
      rules <= all && forall r :: r in all <==> r in rules || r in shipped
    decreases |shipped|
  {
    if shipped != [] {
      MissingHas(if shipped[0] in rules then rules else rules + [shipped[0]], shipped[1..]);
    }
  }

  lemma {:induction false} SanitizedHas(out: seq<string>, rules: seq<string>, q: Parsers)
    ensures forall r :: r in SanitizedAfter(out, rules, q) <==>
      r in out || (r != "" && CoreRule(r, q) != "" && Pasted(rules, r))
    decreases |rules|
  {
    hide CoreRule;
    if rules != [] {
      var t := Trim(rules[0]);
      SanitizedHas(if t == "" || CoreRule(t, q) == "" || t in out then out else out + [t], rules[1..], q);
      forall r ensures Pasted(rules, r) <==> r == t || Pasted(rules[1..], r) {
        if Pasted(rules[1..], r) { var x :| x in rules[1..] && Trim(x) == r; assert x in rules; }
        assert rules[0] in rules;
      }
    }
  }

  /** Rules pasted: each valid one is there, what was there stays in front, and nothing else is. */
  lemma PasteDoes(cfg: Settings, tokens: seq<string>, env: Env, key: string -> string)
    ensures var p := cfg.split; var q := After(cfg, PasteDomains(tokens), env, key);
      && (p.active in p.profiles && p.profiles[p.active] == p.domains ==> OnlyDomains(p, q)) && p.domains <= q.domains
      && forall r :: r in q.domains <==> r in p.domains || (Pasted(tokens, r) && r != "" && IsValidRule(r, env.q))
    ensures var g := cfg.general; var h := Edited(cfg, PasteRoutes(tokens), env, key).general;
      && h == g.(excludedRoutes := h.excludedRoutes) && g.excludedRoutes <= h.excludedRoutes
      && forall r :: r in h.excludedRoutes <==>
           r in g.excludedRoutes || (Pasted(tokens, r) && r != "" && IsValidSubnet(r, env.q))
  {
    hide IsValidRule, IsValidSubnet;
    var p := cfg.split;
    NewRulesHas(tokens, p.domains, [], DomainRule(env.q));
    NewRulesHas(tokens, cfg.general.excludedRoutes, [], SubnetRule(env.q));
    RightUnit(p.domains);
  }

  /** The shipped rules added: each the core can use is there, what was there stays in front. */
  lemma RecommendDoes(cfg: Settings, env: Env, key: string -> string)
    ensures var p := cfg.split; var q := After(cfg, Recommend, env, key);
      && (p.active in p.profiles && p.profiles[p.active] == p.domains ==> OnlyDomains(p, q)) && p.domains <= q.domains
      && forall r :: r in q.domains <==>
           r in p.domains || (Pasted(env.recommended, r) && r != "" && CoreRule(r, env.q) != "")
  {
    hide CoreRule;
    SanitizedHas([], env.recommended, env.q);
    MissingHas(cfg.split.domains, Sanitized(env.recommended, env.q));
  }

  lemma WithoutAtIs<T>(was: seq<T>, i: int)
    ensures OneGone(was, WithoutAt(was, i), i)
  {
  }

  /** One domain removed, or all of them. */
  lemma DropDomainDoes(cfg: Settings, i: int, env: Env, key: string -> string)
    requires var p := cfg.split; p.active in p.profiles && p.profiles[p.active] == p.domains
    ensures var q := After(cfg, DropDomain(i), env, key); OnlyDomains(cfg.split, q) && OneGone(cfg.split.domains, q.domains, i)
    ensures var q := After(cfg, DropDomains, env, key); OnlyDomains(cfg.split, q) && q.domains == []
  {
    hide WithoutAt, OneGone;
    WithoutAtIs(cfg.split.domains, i);
    OutOfRange(cfg.split.domains, i);
  }

  lemma {:induction false} OutOfRange<T>(was: seq<T>, i: int)
    ensures !(0 <= i < |was|) ==> OneGone(was, was, i)
  {
  }

  /** One program, or all of them. */
  lemma DropAppDoes(cfg: Settings, i: int, env: Env, key: string -> string)
    requires var p := cfg.split; p.active in p.profileApps && p.profileApps[p.active] == p.apps
    ensures var q := After(cfg, DropApp(i), env, key); OnlyApps(cfg.split, q) && OneGone(cfg.split.apps, q.apps, i)
    ensures var q := After(cfg, DropApps, env, key); OnlyApps(cfg.split, q) && q.apps == []
  {
    hide WithoutAt, OneGone;
    WithoutAtIs(cfg.split.apps, i);
    OutOfRange(cfg.split.apps, i);
  }

  /** One excluded route, all of them, or those that ship back again; the mode is one of two, and the
      hours between updates are ones offered. */
  lemma GeneralEditsDo(cfg: Settings, i: int, mode: string, hours: int, on: bool, env: Env, key: string -> string)
    ensures var h := Edited(cfg, DropRoute(i), env, key).general;
      h == cfg.general.(excludedRoutes := h.excludedRoutes) && OneGone(cfg.general.excludedRoutes, h.excludedRoutes, i)
    ensures Edited(cfg, DropRoutes, env, key) == cfg.(general := cfg.general.(excludedRoutes := []))
    ensures Edited(cfg, ShippedRoutes, env, key) == cfg.(general := cfg.general.(excludedRoutes := env.routes))
    ensures Edited(cfg, TurnSplit(on), env, key) == cfg.(general := cfg.general.(splitEnabled := on))
    ensures var h := Edited(cfg, ChooseMode(mode), env, key).general;
      h == cfg.general.(mode := h.mode) && (h.mode == "selective" <==> mode == "selective")
      && (h.mode == "general" <==> mode != "selective")
    ensures var q := After(cfg, GeoEvery(hours), env, key);
      q == cfg.split.(geoHours := if hours in {0, 1, 2, 5, 24} then hours else cfg.split.geoHours)
  {
    hide WithoutAt, OneGone;
    WithoutAtIs(cfg.general.excludedRoutes, i);
  }

  /** A program added goes behind the others, unless it is none or one compared equal is there. */
  lemma PasteAppDoes(cfg: Settings, norm: string, env: Env, key: string -> string)
    ensures var p := cfg.split; var q := After(cfg, PasteApp(norm), env, key);
      if norm != "" && (forall a :: a in p.apps ==> key(a) != key(norm)) then OnlyApps(p, q) && q.apps == p.apps + [norm]
      else q == p
  {
    var p := cfg.split;
    if i :| 0 <= i < |p.apps| && key(p.apps[i]) == key(norm) { assert p.apps[i] in p.apps; }
  }

  // ---------- profiles ----------

  /** A profile chosen shows its own lists. */
  lemma ChooseProfileDoes(cfg: Settings, name: string, env: Env, key: string -> string)
    requires cfg.split.profiles.Keys == cfg.split.profileApps.Keys
    ensures var p := cfg.split; var q := After(cfg, ChooseProfile(name), env, key);
      if name in p.profiles && name != p.active then
        name in p.profileApps && q == p.(active := name, domains := p.profiles[name], apps := p.profileApps[name])
      else q == p
  {
    if name in cfg.split.profiles { assert name in cfg.split.profiles.Keys; }
  }

  /** A new one, under a name no other has in any case, starts empty and is chosen. */
  lemma NewProfileDoes(cfg: Settings, name: string, env: Env, key: string -> string)
    ensures var p := cfg.split; var q := After(cfg, NewProfile(name), env, key); var n := Trim(name);
      if n != "" && forall k :: k in p.profiles ==> Folded(k, env.same) != Folded(n, env.same) then
        && q.active == n && q.domains == [] && q.apps == [] && q.order == p.order + [n]
        && q.profiles == p.profiles[n := []] && q.profileApps == p.profileApps[n := []]
        && q.geoLists == p.geoLists[n := []] && q.configProfiles == p.configProfiles
      else q == p
  {
    hide Folded;
  }

  /** A profile removed is gone with its lists; configs that had it have Default, and Default is
      chosen if it was. The others keep theirs. Default itself stays. */
  lemma ProfileGoes(cfg: Settings, name: string, env: Env, key: string -> string)
    requires cfg.split.profiles.Keys == cfg.split.profileApps.Keys && DEFAULT in cfg.split.profiles
    ensures var p := cfg.split; var q := After(cfg, DropProfile(name), env, key);
      if name == "Default" || name !in p.profiles then q == p
      else
        && name !in q.profiles && name !in q.profileApps && name !in q.geoLists && name !in q.order
        && (forall n :: n in p.profiles && n != name ==> n in q.profiles && q.profiles[n] == p.profiles[n])
        && (forall n :: n in p.profileApps && n != name ==> n in q.profileApps && q.profileApps[n] == p.profileApps[n])
        && (forall n :: n in p.geoLists && n != name ==> n in q.geoLists && q.geoLists[n] == p.geoLists[n])
        && (forall n :: n in q.order <==> n in p.order && n != name)
        && q.configProfiles.Keys == p.configProfiles.Keys
        && (forall c :: c in p.configProfiles ==>
              q.configProfiles[c] == if p.configProfiles[c] == name then "Default" else p.configProfiles[c])
        && (if p.active == name then
              q.active == "Default" && q.domains == p.profiles["Default"] && q.apps == p.profileApps["Default"]
            else q.active == p.active && q.domains == p.domains && q.apps == p.apps)
  {
  }

  /** A config has the profile it was given under the path it has now, and none under the one it had. */
  lemma AssignDoes(cfg: Settings, from: string, to: string, profile: string, env: Env, key: string -> string)
    ensures var p := cfg.split; var q := After(cfg, Assign(from, to, profile), env, key);
      && q == p.(configProfiles := q.configProfiles)
      && (profile == "Default" ==> to !in q.configProfiles)
      && (profile != "Default" ==> to in q.configProfiles && q.configProfiles[to] == profile)
      && (from != "" && from != to ==> from !in q.configProfiles)
      && (forall c :: (from == "" || c != from) && c != to ==>
            (c in q.configProfiles <==> c in p.configProfiles)
            && (c in p.configProfiles ==> q.configProfiles[c] == p.configProfiles[c]))
  {
  }

  // ---------- geo lists ----------

  function Lists(p: Split): seq<GeoList> { if p.active in p.geoLists then p.geoLists[p.active] else [] }

  /** A list added goes behind the others, unless one of its source and kind is there. */
  lemma NewGeoDoes(cfg: Settings, list: GeoList, env: Env, key: string -> string)
    ensures var p := cfg.split; var q := After(cfg, NewGeo(list), env, key);
      && OnlyGeo(p, q)
      && Lists(q) == if exists l :: l in Lists(p) && l.source == list.source && l.ips == list.ips then Lists(p)
                     else Lists(p) + [list]
  {
    var ls := Lists(cfg.split);
    assert ls == ActiveGeo(cfg.split);
    if i :| 0 <= i < |ls| && ls[i].source == list.source && ls[i].ips == list.ips { assert ls[i] in ls; }
  }

  predicate UniqueIds(ls: seq<GeoList>) { forall i, k :: 0 <= i < k < |ls| ==> ls[i].id != ls[k].id }

  /** The one list with the id is turned on or off, or round, and stays where it is; removed, it is
      gone and the others stay. */
  lemma GeoChangesDo(cfg: Settings, id: string, v: bool, env: Env, key: string -> string)
    requires UniqueIds(Lists(cfg.split))
    ensures var ls := Lists(cfg.split); var q := After(cfg, EnableGeo(id, v), env, key); var now := Lists(q);
      && OnlyGeo(cfg.split, q) && |now| == |ls|
      && forall i :: 0 <= i < |ls| ==> now[i] == if ls[i].id == id then ls[i].(enabled := v) else ls[i]
    ensures var ls := Lists(cfg.split); var q := After(cfg, TurnGeo(id, v), env, key); var now := Lists(q);
      && OnlyGeo(cfg.split, q) && |now| == |ls|
      && forall i :: 0 <= i < |ls| ==> now[i] == if ls[i].id == id then ls[i].(bypass := v) else ls[i]
  {
    var ls := ActiveGeo(cfg.split);
    var k := IndexOfGeo(ls, id);
  }

  lemma DropGeoDoes(cfg: Settings, id: string, env: Env, key: string -> string)
    requires UniqueIds(Lists(cfg.split))
    ensures var ls := Lists(cfg.split); var q := After(cfg, DropGeo(id), env, key);
      && OnlyGeo(cfg.split, q)
      && ((forall i :: 0 <= i < |ls| ==> ls[i].id != id) ==> Lists(q) == ls)
      && (forall i :: 0 <= i < |ls| && ls[i].id == id ==> OneGone(ls, Lists(q), i))
  {
    var ls := Lists(cfg.split);
    forall i | 0 <= i < |ls| && ls[i].id == id ensures OneGone(ls, WithoutGeo(ls, id), i) {
      OneListGoes(ls, id, i);
    }
    if forall i :: 0 <= i < |ls| ==> ls[i].id != id { NoListGoes(ls, id); }
  }

  lemma {:induction false} NoListGoes(ls: seq<GeoList>, id: string)
    requires forall i :: 0 <= i < |ls| ==> ls[i].id != id
    ensures WithoutGeo(ls, id) == ls
  {
    if ls != [] {
      NoListGoes(ls[1..], id);
      Cons(ls);
    }
  }

  lemma {:induction false} OneListGoes(ls: seq<GeoList>, id: string, i: nat)
    requires UniqueIds(ls) && i < |ls| && ls[i].id == id
    ensures WithoutGeo(ls, id) == ls[..i] + ls[i + 1..]
  {
    if i == 0 {
      NoListGoes(ls[1..], id);
      EmptyPlus(ls[1..]);
    } else {
      OneListGoes(ls[1..], id, i - 1);
      assert [ls[0]] + (ls[1..][..i - 1] + ls[1..][i..]) == ls[..i] + ls[i + 1..];
    }
  }
}
