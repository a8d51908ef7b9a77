/** The settings, and how they are written to and read from a store that may not tell the
    case of its keys apart (AppSettings.cpp). */
module AppSettings {
  import opened Text
  import opened BypassRules

  // ---------- settings ----------

  datatype GeoList = GeoList(id: string, name: string, source: string, ips: bool, bypass: bool, enabled: bool)

  /** The settings that are stored as they are and read back as they are. */
  datatype Plain =
    | LoggingEnabled | VerboseLogs | ThemeMode | Language | MinimizeToTray | AutoConnect | KillSwitch
    | KillSwitchPorts | LastConfig | Subscriptions

  const PLAIN: seq<Plain> := [
    LoggingEnabled, VerboseLogs, ThemeMode, Language, MinimizeToTray, AutoConnect, KillSwitch, KillSwitchPorts,
    LastConfig, Subscriptions]

  datatype General = General(plain: map<Plain, Value>, splitEnabled: bool, mode: string, logPath: string,
                             excludedRoutes: seq<string>)

  /** The split-tunnel profiles; `domains` and `apps` mirror those of the active one. */
  datatype Split = Split(domains: seq<string>, apps: seq<string>, active: string,
                         profiles: map<string, seq<string>>, profileApps: map<string, seq<string>>,
                         geoLists: map<string, seq<GeoList>>, order: seq<string>,
                         configProfiles: map<string, string>, geoHours: int)

  datatype Hotkeys = Hotkeys(enabled: bool, toggle: string, connect: string, disconnect: string)

  datatype Settings = Settings(general: General, split: Split, hotkeys: Hotkeys)

  const DEFAULT: string := "Default"
  const LEGACY_LOG_PATH: string := "/tmp/freetunnel.log"
  const SHIPPED: Hotkeys := Hotkeys(false, "Ctrl+Shift+T", "Ctrl+Shift+E", "Ctrl+Shift+D")

  // ---------- the store ----------

  datatype Row = Row(id: string, name: string, source: string, kind: string, direction: string, enabled: bool)

  datatype Value =
    | Flag(b: bool) | Text(s: string) | Number(n: int) | List(items: seq<string>) | Entries(m: map<string, string>)
    | Rows(rows: seq<Row>)

  datatype Group = Domains | Apps | Geo

  /** The fixed keys by what they hold, and a profile's entry in a group by its name as the store
      compares it. */
  datatype Key =
    | PlainKey(p: Plain) | SplitEnabled | Mode | LogPath | ExcludedRoutes | Rules | ActiveProfile | ProfileNames
    | ProfileOrder | AppsSeeded | OldAppRules | ConfigProfiles | GeoHours | GeoAuto | HotkeysEnabled | HotkeysOptIn
    | HotkeyToggle | HotkeyConnect | HotkeyDisconnect
    | Entry(group: Group, folded: string)

  type Store = map<Key, Value>

  /** How the store and Qt fold case, the order of a map's keys, and what ships with the program. */
  datatype Env = Env(fold: char -> char, same: char -> char, sorted: set<string> -> seq<string>, q: Parsers,
                     recommended: seq<string>, routes: seq<string>, logPath: string)

  /** The store folds no characters that Qt's comparison keeps apart; sorting lists each name once. */
  ghost predicate Fair(env: Env) {
    && (forall a, b :: env.fold(a) == env.fold(b) ==> env.same(a) == env.same(b))
    && (forall s :: NoDuplicates(env.sorted(s)) && forall x :: x in env.sorted(s) <==> x in s)
    && DomainsHaveDots(env.q)
    && (forall r :: r in env.routes ==> !IsEveryAddress(r, env.q))
    && env.logPath != "" && env.logPath != LEGACY_LOG_PATH
  }

  function Folded(name: string, f: char -> char): (r: string)
    ensures |r| == |name| && forall i :: 0 <= i < |r| ==> r[i] == f(name[i])
  {
    if name == "" then "" else [f(name[0])] + Folded(name[1..], f)
  }

  // ---------- saving ----------

  function WithoutGroup(s: Store, g: Group): Store {
    map k | k in s && !(k.Entry? && k.group == g) :: s[k]
  }

  /** Each profile's value under its name, one after another. */
  function PutAll(s: Store, g: Group, names: seq<string>, values: map<string, Value>, env: Env): Store
    requires forall n :: n in names ==> n in values
    decreases |names|
  {
    if names == [] then s
    else PutAll(s[Entry(g, Folded(names[0], env.fold)) := values[names[0]]], g, names[1..], values, env)
  }

  /** A group is dropped and written again. */
  function Rewritten(s: Store, g: Group, values: map<string, Value>, env: Env): Store
    requires Fair(env)
  {
    PutAll(WithoutGroup(s, g), g, env.sorted(values.Keys), values, env)
  }

  function ListValues(m: map<string, seq<string>>): map<string, Value> {
    map n | n in m :: List(m[n])
  }

  function RowOf(g: GeoList): Row {
    Row(g.id, g.name, g.source, if g.ips then "ips" else "sites", if g.bypass then "bypass" else "vpn", g.enabled)
  }

  function RowsOf(lists: seq<GeoList>): seq<Row> {
    if lists == [] then [] else [RowOf(lists[0])] + RowsOf(lists[1..])
  }

  function GeoValues(split: Split): map<string, Value> {
    map n | n in split.profiles :: Rows(RowsOf(if n in split.geoLists then split.geoLists[n] else []))
  }

  function PutPlain(s: Store, g: General): Store {
    s + (map p | p in g.plain :: PlainKey(p) := g.plain[p])
  }

  function PutGeneral(s: Store, g: General): Store {
    PutPlain(s, g)[LogPath := Text(g.logPath)][SplitEnabled := Flag(g.splitEnabled)][Mode := Text(g.mode)]
      [ExcludedRoutes := List(g.excludedRoutes)]
  }

  /** What of the profiles is written before the first group, between the groups, and before the last. */
  function Named(s: Store, p: Split, env: Env): Store
    requires Fair(env)
  {
    s[Rules := List(p.domains)][ActiveProfile := Text(p.active)]
      [ProfileNames := List(env.sorted(p.profiles.Keys))][ProfileOrder := List(p.order)]
  }

  function Seeded(s: Store, p: Split): Store {
    (s[AppsSeeded := Flag(true)] - {OldAppRules})[ConfigProfiles := Entries(p.configProfiles)]
      [GeoHours := Number(p.geoHours)] - {GeoAuto}
  }

  function PutSplit(s: Store, p: Split, env: Env): Store
    requires Fair(env)
  {
    var domains := Rewritten(Named(s, p, env), Domains, ListValues(p.profiles), env);
    var apps := Rewritten(domains, Apps, ListValues(p.profileApps), env);
    Rewritten(Seeded(apps, p), Geo, GeoValues(p), env)
  }

  function PutHotkeys(s: Store, h: Hotkeys): Store {
    s[HotkeysEnabled := Flag(h.enabled)][HotkeysOptIn := Flag(true)][HotkeyToggle := Text(h.toggle)]
      [HotkeyConnect := Text(h.connect)][HotkeyDisconnect := Text(h.disconnect)]
  }

  /** saveAppSettings() */
  function Saved(s: Store, cfg: Settings, env: Env): Store
    requires Fair(env)
  {
    PutHotkeys(PutSplit(PutGeneral(s, cfg.general), cfg.split, env), cfg.hotkeys)
  }

  // ---------- loading ----------

  function FlagAt(s: Store, k: Key, otherwise: bool): bool { if k in s && s[k].Flag? then s[k].b else otherwise }

  function TextAt(s: Store, k: Key, otherwise: string): string { if k in s && s[k].Text? then s[k].s else otherwise }

  function ListAt(s: Store, k: Key, otherwise: seq<string>): seq<string> {
    if k in s && s[k].List? then s[k].items else otherwise
  }

  function RowsAt(s: Store, k: Key): seq<Row> { if k in s && s[k].Rows? then s[k].rows else [] }

  function PlainDefault(p: Plain): Value {
    match p
    case LoggingEnabled => Flag(true)
    case ThemeMode => Text("system")
    case Language => Text("en")
    case KillSwitch => Flag(true)
    case LastConfig => Text("")
    case _ => Flag(false)
  }

  function LoadedPlain(s: Store): map<Plain, Value> {
    map p | p in PLAIN :: if PlainKey(p) in s then s[PlainKey(p)] else PlainDefault(p)
  }

  function NotEvery(routes: seq<string>, q: Parsers): (r: seq<string>)
    ensures forall x :: x in r ==> !IsEveryAddress(x, q)
    ensures (forall x :: x in routes ==> !IsEveryAddress(x, q)) ==> r == routes
  {
    if routes == [] then []
    else (if IsEveryAddress(routes[0], q) then [] else [routes[0]]) + NotEvery(routes[1..], q)
  }

  /** An unset path, and the one older versions used, is the default. */
  function LoadedLogPath(s: Store, env: Env): string {
    var path := TextAt(s, LogPath, env.logPath);
    if path == LEGACY_LOG_PATH || path == "" then env.logPath else path
  }

  function LoadedGeneral(s: Store, env: Env): General {
    General(LoadedPlain(s), FlagAt(s, SplitEnabled, true), TextAt(s, Mode, "general"), LoadedLogPath(s, env),
            NotEvery(ListAt(s, ExcludedRoutes, env.routes), env.q))
  }

  /** The list a profile starts from: its own entry, or what older versions kept. */
  function DomainsFor(s: Store, n: string, names: seq<string>, legacy: seq<string>, env: Env): seq<string> {
    var key := Entry(Domains, Folded(n, env.fold));
    if key in s then ListAt(s, key, [])
    else if n == DEFAULT then
      if legacy != [] && names == [DEFAULT] then legacy else Sanitized(env.recommended, env.q)
    else []
  }

  function LoadedProfiles(s: Store, env: Env): map<string, seq<string>> {
    var names := ListAt(s, ProfileNames, [DEFAULT]);
    var legacy := ListAt(s, Rules, []);
    var listed := map n | n in names :: Sanitized(DomainsFor(s, n, names, legacy, env), env.q);
    var some := if |listed| == 0 then map[DEFAULT := Sanitized(env.recommended, env.q)] else listed;
    if legacy != [] && (DEFAULT !in some || some[DEFAULT] == []) && names == [DEFAULT] then
      some[DEFAULT := Sanitized(legacy, env.q)]
    else some
  }

  /** Before 1.2.0 one list of programs was for every profile. */
  function LoadedApps(s: Store, profiles: map<string, seq<string>>, env: Env): map<string, seq<string>> {
    map n | n in profiles ::
      if FlagAt(s, AppsSeeded, false) then ListAt(s, Entry(Apps, Folded(n, env.fold)), [])
      else ListAt(s, OldAppRules, [])
  }

  predicate IsGeoRow(r: Row) {
    r.id != "" && (r.kind == "sites" || r.kind == "ips") && (r.direction == "vpn" || r.direction == "bypass")
  }

  /** The rows that are lists, each id once. */
  function GeoListsOf(rows: seq<Row>, ids: set<string>): seq<GeoList> {
    if rows == [] then []
    else
      var r := rows[0];
      if !IsGeoRow(r) || r.id in ids then GeoListsOf(rows[1..], ids)
      else
        [GeoList(r.id, r.name, r.source, r.kind == "ips", r.direction == "bypass", r.enabled)]
        + GeoListsOf(rows[1..], ids + {r.id})
  }

  function LoadedGeo(s: Store, profiles: map<string, seq<string>>, env: Env): map<string, seq<GeoList>> {
    map n | n in profiles :: GeoListsOf(RowsAt(s, Entry(Geo, Folded(n, env.fold))), {})
  }

  const GEO_HOURS: set<int> := {0, 1, 2, 5, 24}

  function LoadedHours(s: Store): int {
    var hours := if GeoHours in s && s[GeoHours].Number? then s[GeoHours].n else if FlagAt(s, GeoAuto, true) then 24 else 0;
    if hours in GEO_HOURS then hours else 24
  }

  /** The names of `from` that are profiles, each once, after those already taken. */
  function OrderAfter(order: seq<string>, from: seq<string>, profiles: set<string>): seq<string>
    decreases |from|
  {
    if from == [] then order
    else
      OrderAfter(if from[0] in profiles && from[0] !in order then order + [from[0]] else order, from[1..], profiles)
  }

  function LoadedOrder(s: Store, profiles: set<string>, env: Env): seq<string> {
    var names := env.sorted(profiles);
    var all := OrderAfter(OrderAfter([], ListAt(s, ProfileOrder, names), profiles), names, profiles);
    if DEFAULT in all then all else [DEFAULT] + all
  }

  function LoadedActive(s: Store, profiles: map<string, seq<string>>, env: Env): (active: string)
    requires Fair(env) && |profiles| > 0
    ensures active in profiles
  {
    var active := TextAt(s, ActiveProfile, DEFAULT);
    FirstKey(profiles, env);
    if active in profiles then active else env.sorted(profiles.Keys)[0]
  }

  lemma FirstKey(profiles: map<string, seq<string>>, env: Env)
    requires Fair(env) && |profiles| > 0
    ensures |env.sorted(profiles.Keys)| > 0 && env.sorted(profiles.Keys)[0] in profiles
  {
  }

  function LoadedSplit(s: Store, env: Env): Split
    requires Fair(env)
  {
    var profiles := LoadedProfiles(s, env);
    SomeProfile(s, env);
    var apps := LoadedApps(s, profiles, env);
    var active := LoadedActive(s, profiles, env);
    Split(profiles[active], apps[active], active, profiles, apps, LoadedGeo(s, profiles, env),
          LoadedOrder(s, profiles.Keys, env),
          if ConfigProfiles in s && s[ConfigProfiles].Entries? then s[ConfigProfiles].m else map[], LoadedHours(s))
  }

  lemma SomeProfile(s: Store, env: Env)
    ensures |LoadedProfiles(s, env)| > 0
  {
  }

  /** On before they were opt-in counts only where a combination was chosen too. */
  function LoadedHotkeys(s: Store): Hotkeys {
    var toggle := TextAt(s, HotkeyToggle, SHIPPED.toggle);
    var connect := TextAt(s, HotkeyConnect, SHIPPED.connect);
    var disconnect := TextAt(s, HotkeyDisconnect, SHIPPED.disconnect);
    var untouched := toggle == SHIPPED.toggle && connect == SHIPPED.connect && disconnect == SHIPPED.disconnect;
    Hotkeys(FlagAt(s, HotkeysEnabled, SHIPPED.enabled) && (FlagAt(s, HotkeysOptIn, false) || !untouched),
            toggle, connect, disconnect)
  }

  /** loadAppSettings() */
  function Loaded(s: Store, env: Env): Settings
    requires Fair(env)
  {
    Settings(LoadedGeneral(s, env), LoadedSplit(s, env), LoadedHotkeys(s))
  }
}
