/** The connect / switch / disconnect protocol of Backend together with the helper
    client it drives, as a state and one function for each handler. Every handler is
    one atomic step; what Qt delivers later (a credential read that finishes, a queued
    reconnect hop, a safety-net timer, a helper event) is a step of its own. */
module ConnectProtocol {
  import opened Text

  /** VpnHelperClient::State. */
  datatype Report = Disconnected | Connecting | Connected | Reconnecting
                  | WaitingForNetwork | Disconnecting | Error

  /** What a session is built from and keeps until it is rebuilt. */
  datatype SessionSettings = SessionSettings(routes: seq<string>, killSwitch: bool, portsFromConfig: bool)

  /** One connect command as it went to the helper. */
  datatype Session = Session(path: string, settings: SessionSettings)

  datatype Link = Down | Dialing | Up

  /** VpnHelperClient. `stopped`, `seen` and `over` are bookkeeping for the contract on the
      helper's reports: a disconnect was asked for since the last connect; the session of the
      last connect command has reported itself coming up; it has ended. No handler reads them. */
  datatype Client = Client(
    link: Link,
    helperReady: bool,
    handshake: bool,        // the deadline on the helper's answer, which outlives its socket
    connectPending: bool,
    state: Report,
    loaded: string,
    settings: SessionSettings,
    builtWith: Option<Session>,
    sent: seq<Session>,
    stopped: bool,
    seen: bool,
    over: bool)

  /** A credential read in flight: its generation and the config it builds. */
  datatype Read = Read(generation: nat, path: string)

  /** What Backend believes about the tunnel, and the client it hears it from: the part
      of the state that a call into the client, or a report from it, can change. */
  datatype Tunnel = Tunnel(
    connected: bool,
    connecting: bool,
    disconnecting: bool,
    reapplying: bool,
    pendingReconnect: bool,
    awaitingToml: bool,
    hops: nat,              // queued firePendingReconnect() calls
    client: Client)

  datatype State = State(
    tunnel: Tunnel,
    quitting: bool,
    autoConnectArmed: bool,
    connectGen: nat,
    reconnectGen: nat,
    paths: seq<string>,
    activePath: string,
    settings: SessionSettings,
    inFlight: seq<Read>,    // worker threads still reading the credential store
    nets: multiset<nat>,    // safety-net timers, by the rebuild they belong to
    handed: seq<nat>)       // generations that reached m_client.connectVpn()

  predicate GoingDown(r: Report) { r.Disconnecting? || r.Disconnected? }

  predicate ComingUp(r: Report) { !GoingDown(r) && !r.Error? }

  /** What a ready helper reports before a disconnect asked of it returns, if it reports
      anything: the client sends the command and returns, and most often it does not. */
  type Prompt = p: Option<Report> | p.Some? ==> GoingDown(p.value) witness None

  /** A call into the client starts and ends no read and no reconnect, and sets no guard. */
  ghost predicate GuardsKept(t: Tunnel, u: Tunnel) {
    && u.pendingReconnect == t.pendingReconnect && u.awaitingToml == t.awaitingToml
    && (u.reapplying ==> t.reapplying)
  }

  /** No connect command leaves for the helper, and none is loaded. */
  ghost predicate SendsNothing(t: Tunnel, u: Tunnel) {
    u.client.sent == t.client.sent && u.client.loaded == t.client.loaded
  }

  // ---------- the helper client reporting to Backend ----------

  /** The client's state set and reported, whether or not it changed:
      onVpnClientStateChanged(). */
  function Emit(t: Tunnel, st: Report): (u: Tunnel)
    ensures GuardsKept(t, u) && SendsNothing(t, u)
  {
    var reapplying := t.reapplying && !st.Connected? && !st.Error?;
    t.(connected := st.Connected?,
       reapplying := reapplying,
       connecting := st.Connecting? || st.Reconnecting? || st.WaitingForNetwork? || (reapplying && GoingDown(st)),
       disconnecting := st.Disconnecting? && !reapplying,
       hops := if st.Disconnected? && t.pendingReconnect then t.hops + 1 else t.hops,
       client := t.client.(state := st))
  }

  /** What a report says of the session of the last connect command. What goes down before
      that session has come up is the one before it; an error is its own. */
  function Heard(c: Client, st: Report): Client {
    c.(seen := c.seen || ComingUp(st), over := c.over || st.Error? || (GoingDown(st) && c.seen))
  }

  /** VpnHelperClient::setState(): silent when nothing changes. */
  function SetState(t: Tunnel, st: Report): (u: Tunnel)
    ensures GuardsKept(t, u) && SendsNothing(t, u)
  {
    if t.client.state == st then t else Emit(t, st)
  }

  /** The same for what a ready helper reports. */
  function OnReport(t: Tunnel, st: Report): (u: Tunnel)
    ensures GuardsKept(t, u) && SendsNothing(t, u)
  {
    if t.client.state == st then t else Emit(t.(client := Heard(t.client, st)), st)
  }

  /** onVpnErrorReceived() and settleRefusedConnect(). */
  function OnVpnError(t: Tunnel, chatter: bool): (u: Tunnel)
    ensures GuardsKept(t, u) && SendsNothing(t, u)
  {
    if t.reapplying || chatter || !t.connecting || t.awaitingToml
       || !(t.client.state.Disconnected? || t.client.state.Error?) then t
    else t.(connecting := false, client := t.client.(over := true))
  }

  /** The helper's socket is gone, and its session with it. */
  function LoseSocket(t: Tunnel): (u: Tunnel)
    ensures GuardsKept(t, u) && SendsNothing(t, u)
  {
    SetState(t.(client := t.client.(link := Down, helperReady := false, builtWith := None, over := true)), Disconnected)
  }

  /** abortStartup(): a live socket it aborts reports Disconnected on its way out. */
  function AbortStartup(t: Tunnel): (u: Tunnel)
    ensures GuardsKept(t, u) && SendsNothing(t, u)
  {
    var t1 := t.(client := t.client.(connectPending := false, helperReady := false, handshake := false,
                                    builtWith := None, over := true));
    if t.client.link.Up? then LoseSocket(t1) else t1.(client := t1.client.(link := Down))
  }

  /** VpnHelperClient::fail(). */
  function ClientFails(t: Tunnel): (u: Tunnel)
    ensures GuardsKept(t, u) && SendsNothing(t, u)
  {
    SetState(SetState(OnVpnError(AbortStartup(t), false), Error), Disconnected)
  }

  /** The "connect" command goes out. */
  function SendConnect(t: Tunnel): (u: Tunnel)
    ensures GuardsKept(t, u)
  {
    var session := Session(t.client.loaded, t.client.settings);
    t.(client := t.client.(builtWith := Some(session), sent := t.client.sent + [session],
                          seen := false, over := false))
  }

  /** VpnHelperClient::connectVpn(); `spawns` is whether starting a helper works. */
  function ClientConnect(t: Tunnel, spawns: bool): (u: Tunnel)
    ensures GuardsKept(t, u) && u.client.loaded == t.client.loaded
    ensures u.client.sent == t.client.sent || u.client.sent == t.client.sent + [Session(t.client.loaded, t.client.settings)]
  {
    var t1 := t.(client := t.client.(stopped := false));
    if t1.client.helperReady then SendConnect(t1)
    else if t1.client.link.Down? && !spawns then ClientFails(t1)
    else t1.(client := t1.client.(connectPending := true,
                                  link := if t1.client.link.Down? then Dialing else t1.client.link))
  }

  /** VpnHelperClient::disconnectVpn(). A ready helper is only told; `prompt` is the
      report it gives before the call returns, if it gives one. */
  function ClientDisconnect(t: Tunnel, prompt: Prompt): (u: Tunnel)
    ensures GuardsKept(t, u) && SendsNothing(t, u)
  {
    if !t.client.helperReady then
      var t1 := AbortStartup(t);
      Emit(t1.(client := t1.client.(stopped := true)), Disconnected)
    else
      var t1 := t.(client := t.client.(builtWith := None, stopped := true));
      match prompt
      case None => t1
      case Some(r) => SetState(t1, r)
  }

  /** handleReadyEvent(): a connect that waited for the helper goes out with every
      current setting. */
  function ClientReady(t: Tunnel): (u: Tunnel)
    ensures GuardsKept(t, u)
  {
    if !t.client.link.Up? || t.client.helperReady then t
    else if !t.client.connectPending then t.(client := t.client.(helperReady := true, handshake := false))
    else
      SendConnect(t.(client := t.client.(helperReady := true, handshake := false, connectPending := false,
                                         stopped := false)))
  }

  /** sessionSettingsChanged(). */
  predicate SessionSettingsChanged(c: Client) {
    c.builtWith.None? || c.builtWith.value.settings != c.settings
  }

  // ---------- connecting ----------

  /** No connect is handed to the client, and no command leaves for the helper. */
  ghost predicate StartsNothing(s: State, r: State) {
    r.handed == s.handed && SendsNothing(s.tunnel, r.tunnel)
  }

  function BuildToml(s: State): (r: State)
    ensures StartsNothing(s, r)
  {
    var g := s.connectGen + 1;
    s.(connectGen := g, tunnel := s.tunnel.(awaitingToml := true), inFlight := s.inFlight + [Read(g, s.activePath)])
  }

  function StartConnectAttempt(s: State): (r: State)
    ensures StartsNothing(s, r)
  {
    BuildToml(s.(tunnel := s.tunnel.(connecting := true)))
  }

  function ConnectVpn(s: State): (r: State)
    ensures StartsNothing(s, r)
  {
    if s.activePath == "" || s.tunnel.connected || s.tunnel.connecting || s.tunnel.disconnecting then s
    else StartConnectAttempt(s)
  }

  function DisconnectVpn(s: State, prompt: Prompt): (r: State)
    ensures StartsNothing(s, r)
  {
    var s1 := s.(autoConnectArmed := false);
    if !s.tunnel.connected && !s.tunnel.connecting then s1
    else
      s1.(connectGen := s.connectGen + 1, tunnel := ClientDisconnect(Cancelled(s.tunnel), prompt))
  }

  function Cancelled(t: Tunnel): Tunnel {
    t.(awaitingToml := false, reapplying := false, pendingReconnect := false,
       connecting := false, disconnecting := true)
  }

  function Toggle(s: State, prompt: Prompt): (r: State)
    ensures StartsNothing(s, r)
  {
    if s.tunnel.connected || s.tunnel.connecting then DisconnectVpn(s, prompt) else ConnectVpn(s)
  }

  function AutoConnectFires(s: State): (r: State)
    ensures StartsNothing(s, r)
  {
    if s.autoConnectArmed then ConnectVpn(s.(autoConnectArmed := false)) else s
  }

  function WithoutRead(all: seq<Read>, i: nat): seq<Read>
    requires i < |all|
  {
    all[..i] + all[i + 1..]
  }

  /** The i-th read in flight finishes: onConnectTomlReady() and failConnectNoPassword(). */
  function ReadFinished(s: State, i: nat, empty: bool, spawns: bool): State {
    if i >= |s.inFlight| then s
    else
      var read := s.inFlight[i];
      var s1 := s.(inFlight := WithoutRead(s.inFlight, i));
      if read.generation != s.connectGen then s1
      else if empty then
        s1.(tunnel := s.tunnel.(awaitingToml := false, connecting := false, reapplying := false))
      else
        s1.(handed := s.handed + [read.generation],
            tunnel := ClientConnect(Loaded(s.tunnel, read.path, s.settings), spawns))
  }

  /** The client given the config and every setting, right before its connect. */
  function Loaded(t: Tunnel, path: string, settings: SessionSettings): Tunnel {
    t.(awaitingToml := false, reapplying := false, client := t.client.(loaded := path, settings := settings))
  }

  // ---------- rebuilding ----------

  function ReconnectActiveConfig(s: State, prompt: Prompt): (r: State)
    ensures StartsNothing(s, r)
  {
    var t := s.tunnel;
    if s.activePath == "" || t.pendingReconnect then s
    else if t.awaitingToml || (t.connecting && !t.connected && !t.client.helperReady) then BuildToml(s)
    else if !t.connected && !t.connecting then s
    else
      var g := s.reconnectGen + 1;
      s.(tunnel := ClientDisconnect(Switching(t), prompt), reconnectGen := g, nets := s.nets + multiset{g})
  }

  function Switching(t: Tunnel): Tunnel {
    t.(reapplying := true, connecting := false, pendingReconnect := true)
  }

  function FirePendingReconnect(s: State): (r: State)
    ensures StartsNothing(s, r)
  {
    if !s.tunnel.pendingReconnect then s
    else if s.quitting || s.activePath == "" then
      s.(tunnel := s.tunnel.(pendingReconnect := false, reapplying := false))
    else StartConnectAttempt(s.(tunnel := s.tunnel.(pendingReconnect := false)))
  }

  function HopRuns(s: State): (r: State)
    ensures StartsNothing(s, r)
  {
    if s.tunnel.hops == 0 then s
    else FirePendingReconnect(s.(tunnel := s.tunnel.(hops := s.tunnel.hops - 1)))
  }

  function NetRuns(s: State, g: nat): (r: State)
    ensures StartsNothing(s, r)
  {
    if g !in s.nets then s
    else
      var s1 := s.(nets := s.nets - multiset{g});
      if g == s.reconnectGen then FirePendingReconnect(s1) else s1
  }

  function ReapplyIfConnected(s: State, prompt: Prompt): (r: State)
    ensures StartsNothing(s, r)
  {
    var t := s.tunnel;
    if t.awaitingToml || t.pendingReconnect || (!t.connected && !t.client.helperReady)
       || !SessionSettingsChanged(t.client) then s
    else ReconnectActiveConfig(s, prompt)
  }

  // ---------- the configs and the settings ----------

  function Adopt(s: State, path: string, prompt: Prompt): (r: State)
    ensures StartsNothing(s, r)
  {
    var s1 := s.(activePath := path);
    if s.tunnel.connected || s.tunnel.connecting then ReconnectActiveConfig(s1, prompt) else s1
  }

  function SelectConfig(s: State, i: int, prompt: Prompt): (r: State)
    ensures StartsNothing(s, r)
  {
    if i < 0 || i >= |s.paths| || s.paths[i] == s.activePath then s
    else Adopt(s, s.paths[i], prompt)
  }

  function Without(paths: seq<string>, path: string): (r: seq<string>)
    ensures |r| <= |paths| && forall p :: p in r ==> p in paths
  {
    if paths == [] then []
    else if paths[0] == path then Without(paths[1..], path)
    else [paths[0]] + Without(paths[1..], path)
  }

  function RemoveConfig(s: State, i: int, prompt: Prompt): (r: State)
    ensures StartsNothing(s, r)
  {
    if i < 0 || i >= |s.paths| then s
    else
      var path := s.paths[i];
      var s1 := if path == s.activePath && (s.tunnel.connected || s.tunnel.connecting)
                then DisconnectVpn(s, prompt) else s;
      var left := Without(s.paths, path);
      var active := if s.activePath == path then "" else s.activePath;
      s1.(paths := left, activePath := if active == "" && left != [] then left[0] else active)
  }

  /** The first `was` of the list made `path`. */
  function Put(paths: seq<string>, was: string, path: string): (r: seq<string>)
    ensures forall p :: p in r ==> p in paths || p == path
  {
    if paths == [] then []
    else if paths[0] == was then [path] + paths[1..]
    else [paths[0]] + Put(paths[1..], was, path)
  }

  /** Each path once, where it comes first. */
  function Once(paths: seq<string>): (r: seq<string>)
    ensures forall p :: p in r ==> p in paths
    decreases |paths|
  {
    if paths == [] then [] else [paths[0]] + Once(Without(paths[1..], paths[0]))
  }

  /** The list with `path` in it: in the active config's place if it was that one's file. */
  function Listed(s: State, path: string, renames: bool): (r: seq<string>)
    ensures forall p :: p in r ==> p in s.paths || p == path
  {
    if renames && s.activePath in s.paths then Once(Put(s.paths, s.activePath, path))
    else if path in s.paths then s.paths
    else [path] + s.paths
  }

  /** A config created as `path`, or the active one renamed or rewritten by the editor. */
  function SaveConfig(s: State, path: string, renames: bool, prompt: Prompt): (r: State)
    ensures StartsNothing(s, r)
  {
    if path == "" then s else Adopt(s.(paths := Listed(s, path, renames)), path, prompt)
  }

  /** `v` kept in the settings and pushed to the client, then applied. */
  function Edit(s: State, kept: SessionSettings, pushed: SessionSettings, prompt: Prompt): (r: State)
    ensures StartsNothing(s, r)
  {
    ReapplyIfConnected(s.(settings := kept, tunnel := s.tunnel.(client := s.tunnel.client.(settings := pushed))), prompt)
  }

  function SetExcludedRoutes(s: State, routes: seq<string>, prompt: Prompt): (r: State)
    ensures StartsNothing(s, r)
  {
    if s.settings.routes == routes then s
    else Edit(s, s.settings.(routes := routes), s.tunnel.client.settings.(routes := routes), prompt)
  }

  function SetKillSwitch(s: State, v: bool, prompt: Prompt): (r: State)
    ensures StartsNothing(s, r)
  {
    if s.settings.killSwitch == v then s
    else Edit(s, s.settings.(killSwitch := v), s.tunnel.client.settings.(killSwitch := v), prompt)
  }

  function SetPortsFromConfig(s: State, v: bool, prompt: Prompt): (r: State)
    ensures StartsNothing(s, r)
  {
    if s.settings.portsFromConfig == v then s
    else Edit(s, s.settings.(portsFromConfig := v), s.tunnel.client.settings.(portsFromConfig := v), prompt)
  }

  /** Any edit to what a running session takes live: address and program rules, the
      mode, the split switch. applySplitRules() sends the routes along. */
  function EditRules(s: State, prompt: Prompt): (r: State)
    ensures StartsNothing(s, r)
  {
    Edit(s, s.settings, s.tunnel.client.settings.(routes := s.settings.routes), prompt)
  }

  /** A refresh wrote the active config of a tunnel that is up. */
  function SubscriptionRebuild(s: State, prompt: Prompt): (r: State)
    ensures StartsNothing(s, r)
  {
    if s.tunnel.connected then ReconnectActiveConfig(s, prompt) else s
  }

  // ---------- the helper ----------

  /** What the helper and its socket do by themselves. */
  datatype HelperEvent =
    | DialDone
    | Ready
    | Reports(report: Report)
    | Errors(chatter: bool)
    | SocketLost
    | Fails

  function OnHelper(t: Tunnel, e: HelperEvent): (u: Tunnel)
    ensures GuardsKept(t, u) && (!e.Ready? ==> SendsNothing(t, u))
  {
    match e
    case DialDone => if t.client.link.Dialing? then t.(client := t.client.(link := Up, handshake := true)) else t
    case Ready => ClientReady(t)
    case Reports(st) => if t.client.helperReady then OnReport(t, st) else t
    case Errors(chatter) => if t.client.helperReady then OnVpnError(t, chatter) else t
    case SocketLost => if t.client.link.Up? then LoseSocket(t) else t
    case Fails => if t.client.link.Down? && !t.client.handshake then t else ClientFails(t)
  }

  // ---------- runs ----------

  datatype Action =
    | Toggles(prompt: Prompt)
    | Connects
    | Disconnects(prompt: Prompt)
    | AutoConnects
    | Selects(index: int, prompt: Prompt)
    | Removes(index: int, prompt: Prompt)
    | Saves(path: string, renames: bool, prompt: Prompt)
    | SetsRoutes(routes: seq<string>, prompt: Prompt)
    | SetsKillSwitch(v: bool, prompt: Prompt)
    | SetsPorts(v: bool, prompt: Prompt)
    | EditsRules(prompt: Prompt)
    | RebuildsForSubscription(prompt: Prompt)
    | FinishesRead(read: nat, empty: bool, spawns: bool)
    | RunsHop
    | RunsNet(generation: nat)
    | Helper(event: HelperEvent)
    | Quits

  function Step(s: State, a: Action): State {
    match a
    case Toggles(p) => Toggle(s, p)
    case Connects => ConnectVpn(s)
    case Disconnects(p) => DisconnectVpn(s, p)
    case AutoConnects => AutoConnectFires(s)
    case Selects(i, p) => SelectConfig(s, i, p)
    case Removes(i, p) => RemoveConfig(s, i, p)
    case Saves(path, renames, p) => SaveConfig(s, path, renames, p)
    case SetsRoutes(r, p) => SetExcludedRoutes(s, r, p)
    case SetsKillSwitch(v, p) => SetKillSwitch(s, v, p)
    case SetsPorts(v, p) => SetPortsFromConfig(s, v, p)
    case EditsRules(p) => EditRules(s, p)
    case RebuildsForSubscription(p) => SubscriptionRebuild(s, p)
    case FinishesRead(i, e, sp) => ReadFinished(s, i, e, sp)
    case RunsHop => HopRuns(s)
    case RunsNet(g) => NetRuns(s, g)
    case Helper(e) => s.(tunnel := OnHelper(s.tunnel, e))
    case Quits => s.(quitting := true)
  }

  function Run(s: State, actions: seq<Action>): State
    decreases |actions|
  {
    if actions == [] then s else Run(Step(s, actions[0]), actions[1..])
  }

  const NO_SETTINGS := SessionSettings([], false, false)

  const FRESH_CLIENT := Client(Down, false, false, false, Disconnected, "", NO_SETTINGS, None, [], false, false, true)

  const IDLE := Tunnel(false, false, false, false, false, false, 0, FRESH_CLIENT)

  /** Right after start-up. */
  function Initial(paths: seq<string>, active: string, settings: SessionSettings, autoConnect: bool): State {
    State(IDLE, false, autoConnect, 0, 0, paths, active, settings, [], multiset{}, [])
  }
}
