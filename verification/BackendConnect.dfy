/** Backend's connect, switch and disconnect handlers, step by step as they run. Each is proved
    to be its function in ConnectProtocol and to keep the generations and the guards; together
    they are the protocol's steps. A signal is a direct call: the client reports into Backend
    before its own call returns, in the middle of a handler. */
module BackendConnect {
  import opened Text
  import opened ConnectProtocol
  import opened ConnectSafety

  /** What the invariant speaks of is not touched. */
  lemma GuardsStay(s: State, r: State)
    requires Inv(s) && GuardsKept(s.tunnel, r.tunnel)
    requires r.connectGen == s.connectGen && r.reconnectGen == s.reconnectGen
    requires r.inFlight == s.inFlight && r.nets == s.nets && r.handed == s.handed
    ensures Inv(r)
  {
  }

  class Backend {
    var tunnel: Tunnel
    var quitting: bool
    var autoConnectArmed: bool
    var connectGen: nat
    var reconnectGen: nat
    var paths: seq<string>
    var activePath: string
    var settings: SessionSettings
    var inFlight: seq<Read>
    var nets: multiset<nat>
    var handed: seq<nat>

    ghost function View(): State
      reads this
    {
      State(tunnel, quitting, autoConnectArmed, connectGen, reconnectGen, paths, activePath, settings,
            inFlight, nets, handed)
    }

    /** What holds between handlers: reads in flight and handed over are told apart by their
        generations, and no guard outlives what will clear it. */
    ghost predicate Valid()
      reads this
    {
      Inv(View())
    }

    constructor (paths: seq<string>, active: string, settings: SessionSettings, autoConnect: bool)
      ensures Valid() && View() == Initial(paths, active, settings, autoConnect)
    {
      tunnel := IDLE;
      quitting, autoConnectArmed := false, autoConnect;
      connectGen, reconnectGen := 0, 0;
      this.paths, activePath, this.settings := paths, active, settings;
      inFlight, nets, handed := [], multiset{}, [];
    }

    // ---------- the client's side ----------

    method OnVpnClientStateChanged(st: Report)
      modifies `tunnel
      ensures tunnel == Emit(old(tunnel), st)
    {
      var reapplying := tunnel.reapplying;
      if reapplying && (st.Connected? || st.Error?) {
        reapplying := false;
      }
      var switching := reapplying && (st.Disconnecting? || st.Disconnected?);
      var hops := tunnel.hops;
      if st.Disconnected? && tunnel.pendingReconnect {
        hops := hops + 1;
      }
      tunnel := tunnel.(
        client := tunnel.client.(state := st),
        connected := st.Connected?,
        reapplying := reapplying,
        connecting := st.Connecting? || st.Reconnecting? || st.WaitingForNetwork? || switching,
        disconnecting := st.Disconnecting? && !reapplying,
        hops := hops);
    }

    method SetClientState(st: Report)
      modifies `tunnel
      ensures tunnel == SetState(old(tunnel), st)
    {
      if tunnel.client.state != st {
        OnVpnClientStateChanged(st);
      }
    }

    method OnVpnErrorReceived(chatter: bool)
      modifies `tunnel
      ensures tunnel == OnVpnError(old(tunnel), chatter)
    {
      if tunnel.reapplying || chatter {
        return;
      }
      // settleRefusedConnect()
      if !tunnel.connecting || tunnel.awaitingToml {
        return;
      }
      if tunnel.client.state != Disconnected && tunnel.client.state != Error {
        return;
      }
      tunnel := tunnel.(connecting := false);
      tunnel := tunnel.(client := tunnel.client.(over := true));
    }

    method AbortClientStartup()
      modifies `tunnel
      ensures tunnel == AbortStartup(old(tunnel))
    {
      tunnel := tunnel.(client := tunnel.client.(connectPending := false, helperReady := false, handshake := false,
                                               builtWith := None, over := true));
      var wasUp := tunnel.client.link.Up?;
      tunnel := tunnel.(client := tunnel.client.(link := Down));
      if wasUp {
        SetClientState(Disconnected);
      }
    }

    method FailClient()
      modifies `tunnel
      ensures tunnel == ClientFails(old(tunnel))
    {
      AbortClientStartup();
      OnVpnErrorReceived(false);
      SetClientState(Error);
      SetClientState(Disconnected);
    }

    method ConnectClient(spawns: bool)
      modifies `tunnel
      ensures tunnel == ClientConnect(old(tunnel), spawns)
    {
      tunnel := tunnel.(client := tunnel.client.(stopped := false));
      if !tunnel.client.helperReady && tunnel.client.link.Down? {
        if !spawns {
          FailClient();
          return;
        }
        tunnel := tunnel.(client := tunnel.client.(link := Dialing));
      }
      if !tunnel.client.helperReady {
        tunnel := tunnel.(client := tunnel.client.(connectPending := true));
        return;
      }
      var session := Session(tunnel.client.loaded, tunnel.client.settings);
      tunnel := tunnel.(client := tunnel.client.(sent := tunnel.client.sent + [session], builtWith := Some(session),
                                               seen := false, over := false));
    }

    method DisconnectClient(prompt: Prompt)
      modifies `tunnel
      ensures tunnel == ClientDisconnect(old(tunnel), prompt)
    {
      if !tunnel.client.helperReady {
        AbortClientStartup();
        tunnel := tunnel.(client := tunnel.client.(stopped := true));
        OnVpnClientStateChanged(Disconnected);
        return;
      }
      tunnel := tunnel.(client := tunnel.client.(builtWith := None, stopped := true));
      if prompt.Some? {
        SetClientState(prompt.value);
      }
    }

    // ---------- the helper's side ----------

    method OnStateEvent(st: Report)
      modifies `tunnel
      ensures tunnel == if old(tunnel).client.helperReady then OnReport(old(tunnel), st) else old(tunnel)
    {
      hide Emit, Heard;
      if !tunnel.client.helperReady || tunnel.client.state == st {
        return;
      }
      tunnel := tunnel.(client := Heard(tunnel.client, st));
      OnVpnClientStateChanged(st);
    }

    method OnSocketDisconnected()
      modifies `tunnel
      ensures tunnel == LoseSocket(old(tunnel))
    {
      tunnel := tunnel.(client := tunnel.client.(link := Down, helperReady := false, builtWith := None, over := true));
      SetClientState(Disconnected);
    }

    method HandleReadyEvent()
      modifies `tunnel
      ensures tunnel == ClientReady(old(tunnel))
    {
      if !tunnel.client.link.Up? || tunnel.client.helperReady {
        return;
      }
      tunnel := tunnel.(client := tunnel.client.(helperReady := true, handshake := false));
      if !tunnel.client.connectPending {
        return;
      }
      tunnel := tunnel.(client := tunnel.client.(connectPending := false));
      ConnectClient(true);
    }

    method OnHelperEvent(e: HelperEvent)
      requires Valid()
      modifies `tunnel
      ensures Valid() && View() == Step(old(View()), Helper(e))
    {
      hide Inv;
      StepKeepsInv(View(), Helper(e));
      match e {
        case DialDone =>
          if tunnel.client.link.Dialing? {
            tunnel := tunnel.(client := tunnel.client.(link := Up, handshake := true));
          }
        case Ready => HandleReadyEvent();
        case Reports(st) => OnStateEvent(st);
        case Errors(chatter) =>
          if tunnel.client.helperReady {
            OnVpnErrorReceived(chatter);
          }
        case SocketLost =>
          if tunnel.client.link.Up? {
            OnSocketDisconnected();
          }
        case Fails =>
          if !tunnel.client.link.Down? || tunnel.client.handshake {
            FailClient();
          }
      }
    }

    // ---------- connecting ----------

    method BuildConnectTomlAsync()
      modifies this
      ensures View() == BuildToml(old(View()))
    {
      connectGen := connectGen + 1;
      tunnel := tunnel.(awaitingToml := true);
      inFlight := inFlight + [Read(connectGen, activePath)];
    }

    method BeginConnectAttempt()
      modifies this
      ensures View() == StartConnectAttempt(old(View()))
    {
      if !tunnel.connecting {
        tunnel := tunnel.(connecting := true);
      }
      BuildConnectTomlAsync();
    }

    method Connect()
      requires Valid()
      modifies this
      ensures Valid() && View() == Step(old(View()), Connects)
    {
      hide Inv;
      StepKeepsInv(View(), Connects);
      if activePath == "" {
        return;
      }
      if tunnel.connected || tunnel.connecting || tunnel.disconnecting {
        return;
      }
      BeginConnectAttempt();
    }

    method Disconnect(prompt: Prompt)
      requires Valid()
      modifies this
      ensures Valid() && View() == DisconnectVpn(old(View()), prompt)
    {
      hide Inv, ClientDisconnect;
      DisconnectKeepsInv(View(), prompt);
      autoConnectArmed := false;
      if !tunnel.connected && !tunnel.connecting {
        return;
      }
      connectGen := connectGen + 1;
      tunnel := tunnel.(awaitingToml := false, reapplying := false, pendingReconnect := false,
                        connecting := false, disconnecting := true);
      assert tunnel == Cancelled(old(tunnel));
      DisconnectClient(prompt);
    }

    method ToggleVpn(prompt: Prompt)
      requires Valid()
      modifies this
      ensures Valid() && View() == Step(old(View()), Toggles(prompt))
    {
      hide Inv;
      StepKeepsInv(View(), Toggles(prompt));
      if tunnel.connected || tunnel.connecting {
        Disconnect(prompt);
      } else {
        Connect();
      }
    }

    method FailConnectNoPassword()
      modifies `tunnel
      ensures tunnel == old(tunnel).(connecting := false, reapplying := false)
    {
      tunnel := tunnel.(connecting := false);
      tunnel := tunnel.(reapplying := false);
    }

    /** The config and every setting, then the connect. */
    method HandOver(read: Read, spawns: bool)
      modifies `tunnel, `handed
      ensures tunnel == ClientConnect(Loaded(old(tunnel), read.path, settings), spawns)
      ensures handed == old(handed) + [read.generation]
    {
      hide ClientConnect;
      tunnel := tunnel.(awaitingToml := false, reapplying := false,
                        client := tunnel.client.(loaded := read.path, settings := settings));
      assert tunnel == Loaded(old(tunnel), read.path, settings);
      handed := handed + [read.generation];
      ConnectClient(spawns);
    }

    method OnConnectTomlReady(i: nat, empty: bool, spawns: bool)
      requires Valid()
      modifies this
      ensures Valid() && View() == ReadFinished(old(View()), i, empty, spawns)
    {
      hide Inv, ClientConnect, WithoutRead;
      ReadFinishedKeepsInv(View(), i, empty, spawns);
      if i >= |inFlight| {
        return;
      }
      var read := inFlight[i];
      inFlight := WithoutRead(inFlight, i);
      if read.generation != connectGen {
        return;
      }
      tunnel := tunnel.(awaitingToml := false);
      if empty {
        FailConnectNoPassword();
      } else {
        HandOver(read, spawns);
      }
    }

    // ---------- rebuilding ----------

    method Reconnect(prompt: Prompt)
      requires Valid()
      modifies this
      ensures Valid() && View() == ReconnectActiveConfig(old(View()), prompt)
    {
      hide Inv, ClientDisconnect, BuildToml;
      ReconnectKeepsInv(View(), prompt);
      if activePath == "" || tunnel.pendingReconnect {
        return;
      }
      if tunnel.awaitingToml || (tunnel.connecting && !tunnel.connected && !tunnel.client.helperReady) {
        BuildConnectTomlAsync();
        return;
      }
      if !tunnel.connected && !tunnel.connecting {
        return;
      }
      tunnel := tunnel.(reapplying := true, connecting := false, pendingReconnect := true);
      assert tunnel == Switching(old(tunnel));
      DisconnectClient(prompt);
      reconnectGen := reconnectGen + 1;
      nets := nets + multiset{reconnectGen};
    }

    method FireReconnect()
      modifies this
      ensures View() == FirePendingReconnect(old(View()))
    {
      hide BuildToml;
      if !tunnel.pendingReconnect {
        return;
      }
      tunnel := tunnel.(pendingReconnect := false);
      if quitting || activePath == "" {
        tunnel := tunnel.(reapplying := false);
        return;
      }
      BeginConnectAttempt();
    }

    method OnHop()
      requires Valid()
      modifies this
      ensures Valid() && View() == Step(old(View()), RunsHop)
    {
      hide Inv;
      StepKeepsInv(View(), RunsHop);
      if tunnel.hops > 0 {
        tunnel := tunnel.(hops := tunnel.hops - 1);
        FireReconnect();
      }
    }

    method OnSafetyNet(g: nat)
      requires Valid()
      modifies this
      ensures Valid() && View() == Step(old(View()), RunsNet(g))
    {
      hide Inv;
      StepKeepsInv(View(), RunsNet(g));
      if g in nets {
        nets := nets - multiset{g};
        if g == reconnectGen {
          FireReconnect();
        }
      }
    }

    method Reapply(prompt: Prompt)
      requires Valid()
      modifies this
      ensures Valid() && View() == ReapplyIfConnected(old(View()), prompt)
    {
      hide Inv;
      if tunnel.awaitingToml || tunnel.pendingReconnect {
        return;
      }
      if !tunnel.connected && !tunnel.client.helperReady {
        return;
      }
      if !SessionSettingsChanged(tunnel.client) {
        return;
      }
      Reconnect(prompt);
    }

    // ---------- the configs and the settings ----------

    method Select(i: int, prompt: Prompt)
      requires Valid()
      modifies this
      ensures Valid() && View() == Step(old(View()), Selects(i, prompt))
    {
      hide Inv;
      StepKeepsInv(View(), Selects(i, prompt));
      if i < 0 || i >= |paths| {
        return;
      }
      if paths[i] == activePath {
        return;
      }
      activePath := paths[i];
      GuardsStay(old(View()), View());
      if tunnel.connected || tunnel.connecting {
        Reconnect(prompt);
      }
    }

    method Remove(i: int, prompt: Prompt)
      requires Valid()
      modifies this
      ensures Valid() && View() == RemoveConfig(old(View()), i, prompt)
    {
      hide Inv, ClientDisconnect, Without;
      RemoveKeepsInv(View(), i, prompt);
      if i < 0 || i >= |paths| {
        return;
      }
      var path := paths[i];
      if path == activePath && (tunnel.connected || tunnel.connecting) {
        Disconnect(prompt);
      }
      paths := Without(paths, path);
      if activePath == path {
        activePath := "";
      }
      if activePath == "" && paths != [] {
        activePath := paths[0];
      }
    }

    method AutoConnect()
      requires Valid()
      modifies this
      ensures Valid() && View() == Step(old(View()), AutoConnects)
    {
      hide Inv;
      StepKeepsInv(View(), AutoConnects);
      if autoConnectArmed {
        autoConnectArmed := false;
        GuardsStay(old(View()), View());
        Connect();
      }
    }

    /** A config created, or the active one saved by the editor. */
    method Save(path: string, renames: bool, prompt: Prompt)
      requires Valid()
      modifies this
      ensures Valid() && View() == Step(old(View()), Saves(path, renames, prompt))
    {
      hide Inv, ReconnectActiveConfig, Put, Once;
      StepKeepsInv(View(), Saves(path, renames, prompt));
      if path == "" {
        return;
      }
      if renames && activePath in paths {
        paths := Once(Put(paths, activePath, path));
      } else if path !in paths {
        paths := [path] + paths;
      }
      activePath := path;
      GuardsStay(old(View()), View());
      if tunnel.connected || tunnel.connecting {
        Reconnect(prompt);
      }
    }

    method RebuildForSubscription(prompt: Prompt)
      requires Valid()
      modifies this
      ensures Valid() && View() == Step(old(View()), RebuildsForSubscription(prompt))
    {
      if tunnel.connected {
        Reconnect(prompt);
      }
    }

    method EditSplitRules(prompt: Prompt)
      requires Valid()
      modifies this
      ensures Valid() && View() == Step(old(View()), EditsRules(prompt))
    {
      hide Inv;
      tunnel := tunnel.(client := tunnel.client.(settings := tunnel.client.settings.(routes := settings.routes)));
      GuardsStay(old(View()), View());
      Reapply(prompt);
    }

    method PrepareQuit()
      requires Valid()
      modifies `quitting
      ensures Valid() && View() == Step(old(View()), Quits)
    {
      quitting := true;
    }

    method KillSwitch(v: bool, prompt: Prompt)
      requires Valid()
      modifies this
      ensures Valid() && View() == Step(old(View()), SetsKillSwitch(v, prompt))
    {
      hide Inv;
      StepKeepsInv(View(), SetsKillSwitch(v, prompt));
      if settings.killSwitch == v {
        return;
      }
      settings := settings.(killSwitch := v);
      tunnel := tunnel.(client := tunnel.client.(settings := tunnel.client.settings.(killSwitch := v)));
      GuardsStay(old(View()), View());
      Reapply(prompt);
    }

    method KillSwitchPorts(v: bool, prompt: Prompt)
      requires Valid()
      modifies this
      ensures Valid() && View() == Step(old(View()), SetsPorts(v, prompt))
    {
      hide Inv;
      StepKeepsInv(View(), SetsPorts(v, prompt));
      if settings.portsFromConfig == v {
        return;
      }
      settings := settings.(portsFromConfig := v);
      tunnel := tunnel.(client := tunnel.client.(settings := tunnel.client.settings.(portsFromConfig := v)));
      GuardsStay(old(View()), View());
      Reapply(prompt);
    }

    method ExcludedRoutes(routes: seq<string>, prompt: Prompt)
      requires Valid()
      modifies this
      ensures Valid() && View() == Step(old(View()), SetsRoutes(routes, prompt))
    {
      hide Inv;
      StepKeepsInv(View(), SetsRoutes(routes, prompt));
      if settings.routes == routes {
        return;
      }
      settings := settings.(routes := routes);
      tunnel := tunnel.(client := tunnel.client.(settings := tunnel.client.settings.(routes := routes)));
      GuardsStay(old(View()), View());
      Reapply(prompt);
    }

    /** One turn of the event loop: each step of the protocol is one handler, run to its end. */
    method Handle(a: Action)
      requires Valid()
      modifies this
      ensures Valid() && View() == Step(old(View()), a)
    {
      hide Inv, ReconnectActiveConfig, ReadFinished, RemoveConfig, DisconnectVpn, ConnectVpn;
      match a {
        case Toggles(prompt) => ToggleVpn(prompt);
        case Connects => Connect();
        case Disconnects(prompt) => Disconnect(prompt);
        case AutoConnects => AutoConnect();
        case Selects(i, prompt) => Select(i, prompt);
        case Removes(i, prompt) => Remove(i, prompt);
        case Saves(path, renames, prompt) => Save(path, renames, prompt);
        case SetsRoutes(routes, prompt) => ExcludedRoutes(routes, prompt);
        case SetsKillSwitch(v, prompt) => KillSwitch(v, prompt);
        case SetsPorts(v, prompt) => KillSwitchPorts(v, prompt);
        case EditsRules(prompt) => EditSplitRules(prompt);
        case RebuildsForSubscription(prompt) => RebuildForSubscription(prompt);
        case FinishesRead(i, empty, spawns) => OnConnectTomlReady(i, empty, spawns);
        case RunsHop => OnHop();
        case RunsNet(g) => OnSafetyNet(g);
        case Helper(e) => OnHelperEvent(e);
        case Quits => PrepareQuit();
      }
    }
  }
}
