/** What the steps of the connect protocol do, said of the state they leave, and what a few of
    them in a row come to. */
module ConnectSteps {
  import opened Text
  import opened ConnectProtocol
  import opened ConnectSafety
  import opened ConnectContract
  import opened ConnectLabels
  import opened ConnectSessions

  // ---------- what each step leaves ----------

  /** Nothing is under way or comes up any more: no read is awaited, no reconnect pends, reads
      still in flight are stale, and the client has been told to stop. */
  ghost predicate ToldToStop(s: State, r: State) {
    var t := r.tunnel;
    && !t.awaitingToml && !t.pendingReconnect && !t.reapplying && !t.connecting
    && r.connectGen == s.connectGen + 1 && r.inFlight == s.inFlight && !r.autoConnectArmed
    && t.client.stopped && t.client.builtWith.None? && !t.client.connectPending
    && (t.connected ==> s.tunnel.connected) && t.client.sent == s.tunnel.client.sent
    && r == s.(tunnel := t, connectGen := r.connectGen, autoConnectArmed := false)
  }

  /** An attempt has begun: it shows as connecting, and a read of the active config is in flight
      under a new generation, and awaited. Nothing else has changed. */
  ghost predicate AttemptBegun(s: State, r: State) {
    && r.connectGen == s.connectGen + 1 && r.inFlight == s.inFlight + [Read(r.connectGen, s.activePath)]
    && r.tunnel == s.tunnel.(connecting := true, awaitingToml := true)
    && r == s.(tunnel := r.tunnel, connectGen := r.connectGen, inFlight := r.inFlight)
  }

  /** What the client does with a disconnect: its session is over for it, and nothing goes out. */
  lemma ClientStops(t: Tunnel, prompt: Prompt)
    requires !t.connecting
    ensures var u := ClientDisconnect(t, prompt); var c := u.client;
      && c.stopped && c.builtWith.None? && (ClientShape(t) ==> !c.connectPending) && c.sent == t.client.sent
      && c.settings == t.client.settings && u.reapplying == t.reapplying && u.pendingReconnect == t.pendingReconnect
      && u.awaitingToml == t.awaitingToml && (u.connected ==> t.connected)
      && (!t.reapplying ==> !u.connecting && (!t.client.helperReady ==> !u.disconnecting))
  {
    if t.client.helperReady {
      ReadyStops(t.(client := t.client.(builtWith := None, stopped := true)), prompt);
    } else {
      hide Emit;
      AbortStops(t);
      var a := AbortStartup(t);
      ReadyStops(a.(client := a.client.(stopped := true)), Some(Disconnected));
      SaysOff(a.(client := a.client.(stopped := true)));
    }
  }

  lemma ReadyStops(t: Tunnel, prompt: Prompt)
    requires !t.connecting || t.reapplying
    ensures var u := if prompt.None? then t else Emit(t, prompt.value);
      && u.client == t.client.(state := u.client.state) && u.reapplying == t.reapplying
      && u.pendingReconnect == t.pendingReconnect && u.awaitingToml == t.awaitingToml && (u.connected ==> t.connected)
      && (!t.reapplying ==> !u.connecting)
  {
  }

  lemma SaysOff(t: Tunnel)
    ensures !t.reapplying ==> !Emit(t, Disconnected).disconnecting
  {
  }

  lemma AbortStops(t: Tunnel)
    requires !t.connecting
    ensures var u := AbortStartup(t);
      && u.client.builtWith.None? && !u.client.connectPending && u.client.sent == t.client.sent
      && u.client.settings == t.client.settings && u.reapplying == t.reapplying
      && u.pendingReconnect == t.pendingReconnect && u.awaitingToml == t.awaitingToml && (u.connected ==> t.connected)
      && (!t.reapplying ==> !u.connecting) && (u.connecting ==> u.reapplying)
  {
  }

  lemma StopDoes(s: State, prompt: Prompt)
    requires Inv(s) && Good(s)
    ensures Busy(s.tunnel) ==> var r := DisconnectVpn(s, prompt);
      ToldToStop(s, r) && (!s.tunnel.client.helperReady ==> !r.tunnel.disconnecting)
  {
    hide ClientDisconnect;
    ShapeOfCancelled(s.tunnel);
    ClientStops(Cancelled(s.tunnel), prompt);
  }

  /** A click disconnects what is up or coming up, begins to connect what is down with a config
      picked, and does nothing else. */
  lemma ToggleDoes(s: State, prompt: Prompt)
    requires Inv(s) && Good(s)
    ensures var r := Step(s, Toggles(prompt)); var t := s.tunnel;
      if t.connected || t.connecting then ToldToStop(s, r)
      else if !t.disconnecting && s.activePath != "" then AttemptBegun(s, r)
      else r == s
  {
    hide ClientDisconnect, ToldToStop;
    StopDoes(s, prompt);
  }

  /** A disconnect stops what is up or coming up; otherwise it only calls off the connect at start. */
  lemma DisconnectDoes(s: State, prompt: Prompt)
    requires Inv(s) && Good(s)
    ensures var r := Step(s, Disconnects(prompt)); var t := s.tunnel;
      if t.connected || t.connecting then ToldToStop(s, r) && (!t.client.helperReady ==> !r.tunnel.disconnecting)
      else r == s.(autoConnectArmed := false)
  {
    hide ClientDisconnect, ToldToStop;
    StopDoes(s, prompt);
  }

  /** A connect asked for, or due at start, begins an attempt when nothing is up, coming up or
      going down and a config is picked. */
  lemma ConnectDoes(s: State)
    ensures var t := s.tunnel;
      var idle := s.activePath != "" && !t.connected && !t.connecting && !t.disconnecting;
      var armed := s.(autoConnectArmed := false);
      && (if idle then AttemptBegun(s, Step(s, Connects)) else Step(s, Connects) == s)
      && (if !s.autoConnectArmed then Step(s, AutoConnects) == s
          else if idle then AttemptBegun(armed, Step(s, AutoConnects))
          else Step(s, AutoConnects) == armed)
  {
  }

  /** The read at `i` of those in flight is gone, and nothing else has changed. */
  ghost predicate OnlyReadGone(s: State, r: State, i: nat)
    requires i < |s.inFlight|
  {
    r == s.(inFlight := s.inFlight[..i] + s.inFlight[i + 1..])
  }

  /** A read that finishes: one that was superseded is dropped; one without a password settles
      what showed; one with is handed over with its own config and the settings of now, and goes
      out at once to a helper that is ready, or waits for one that starts. */
  lemma ReadDoes(s: State, i: nat, empty: bool, spawns: bool)
    requires Inv(s) && Good(s) && i < |s.inFlight|
    ensures var r := Step(s, FinishesRead(i, empty, spawns));
      var read := s.inFlight[i]; var t := r.tunnel; var c := s.tunnel.client;
      if read.generation != s.connectGen then OnlyReadGone(s, r, i)
      else if empty then
        OnlyReadGone(s.(tunnel := s.tunnel.(awaitingToml := false, connecting := false, reapplying := false)), r, i)
      else
        && OnlyReadGone(s.(tunnel := t, handed := s.handed + [read.generation]), r, i)
        && !t.awaitingToml && !t.reapplying && t.client.loaded == read.path && t.client.settings == s.settings
        && (c.helperReady ==>
              && t.client.sent == c.sent + [Session(read.path, s.settings)]
              && t.client.builtWith == Some(Session(read.path, s.settings)) && !t.client.stopped && t.connecting)
        && (!c.helperReady ==> t.client.sent == c.sent)
        && (!c.helperReady && (spawns || !c.link.Down?) ==>
              Waiting(t) && t.connecting && t.client.link == if c.link.Down? then Dialing else c.link)
        && (!c.helperReady && !spawns && c.link.Down? ==> !Busy(t) && !Waiting(t))
  {
    hide ClientConnect, Good, Inv;
    if s.inFlight[i].generation == s.connectGen && !empty {
      assert s.tunnel.awaitingToml by { NewestIsAwaited(s, i); }
      GoodLoads(s, s.inFlight[i].path);
      HandedConnects(Loaded(s.tunnel, s.inFlight[i].path, s.settings), spawns);
    }
  }

  lemma NewestIsAwaited(s: State, i: nat)
    requires Inv(s) && i < |s.inFlight| && s.inFlight[i].generation == s.connectGen
    ensures s.tunnel.awaitingToml
  {
    assert HasRead(s.inFlight, s.connectGen);
  }

  lemma GoodLoads(s: State, path: string)
    requires Inv(s) && Good(s) && s.tunnel.awaitingToml
    ensures var t := Loaded(s.tunnel, path, s.settings); ClientShape(t) && t.connecting && !TearingDown(t) && !t.reapplying
  {
  }

  lemma HandedConnects(t: Tunnel, spawns: bool)
    requires ClientShape(t) && t.connecting && !TearingDown(t) && !t.reapplying
    ensures var u := ClientConnect(t, spawns); var c := t.client; var session := Session(c.loaded, c.settings);
      && !u.awaitingToml && !u.reapplying && u.client.loaded == c.loaded && u.client.settings == c.settings
      && (c.helperReady ==>
            && u.client.sent == c.sent + [session] && u.client.builtWith == Some(session)
            && !u.client.stopped && u.connecting)
      && (!c.helperReady ==> u.client.sent == c.sent)
      && (!c.helperReady && (spawns || !c.link.Down?) ==>
            Waiting(u) && u.connecting && u.client.link == if c.link.Down? then Dialing else c.link)
      && (!c.helperReady && !spawns && c.link.Down? ==> !Busy(u) && !Waiting(u))
  {
    if !t.client.helperReady && !spawns && t.client.link.Down? { FailsIsIdle(t.(client := t.client.(stopped := false))); }
  }

  /** The tunnel is being torn down for a reconnect: its session is told to stop, the reconnect
      pends, and a safety net of its own is out. */
  ghost predicate TeardownBegun(s: State, r: State) {
    var t := r.tunnel;
    && t.pendingReconnect && t.reapplying && t.client.stopped && t.client.builtWith.None?
    && r.reconnectGen == s.reconnectGen + 1 && r.nets == s.nets + multiset{r.reconnectGen}
    && t.awaitingToml == s.tunnel.awaitingToml && t.client.sent == s.tunnel.client.sent
    && t.client.settings == s.tunnel.client.settings
    && r == s.(tunnel := t, reconnectGen := r.reconnectGen, nets := r.nets)
  }

  /** The read is started again for the config that is active now. */
  ghost predicate ReadAgain(s: State, r: State) {
    && r.connectGen == s.connectGen + 1 && r.inFlight == s.inFlight + [Read(r.connectGen, s.activePath)]
    && r == s.(tunnel := s.tunnel.(awaitingToml := true), connectGen := r.connectGen, inFlight := r.inFlight)
  }

  /** What a config picked, saved or refreshed does to the tunnel, once it is the active one. */
  ghost predicate RebuildBegun(s: State, r: State) {
    var t := s.tunnel;
    if t.pendingReconnect || !(t.connected || t.connecting) then r == s
    else if t.awaitingToml || (!t.connected && !t.client.helperReady) then ReadAgain(s, r)
    else TeardownBegun(s, r)
  }

  lemma RebuildDoes(s: State, prompt: Prompt)
    requires s.activePath != "" && (s.tunnel.awaitingToml ==> s.tunnel.connecting)
    ensures RebuildBegun(s, ReconnectActiveConfig(s, prompt))
    ensures ReconnectActiveConfig(s, prompt).paths == s.paths
  {
    hide ClientDisconnect;
    ClientStops(Switching(s.tunnel), prompt);
  }

  /** Another config picked is the active one, and what is up or coming up is rebuilt with it. */
  lemma SelectDoes(s: State, i: int, prompt: Prompt)
    requires Inv(s) && Good(s)
    ensures var r := Step(s, Selects(i, prompt));
      if 0 <= i < |s.paths| && s.paths[i] != s.activePath then RebuildBegun(s.(activePath := s.paths[i]), r)
      else r == s
  {
    hide ReconnectActiveConfig, RebuildBegun;
    if 0 <= i < |s.paths| && s.paths[i] != s.activePath {
      RebuildDoes(s.(activePath := s.paths[i]), prompt);
      NotBusyStays(s.(activePath := s.paths[i]));
    }
  }

  lemma NotBusyStays(s: State)
    ensures !Busy(s.tunnel) ==> RebuildBegun(s, s)
  {
  }

  /** A config saved is listed, active, and what is up or coming up is rebuilt with it; the file it
      was renamed from is not listed any more, and the other configs are. */
  lemma SaveDoes(s: State, path: string, renames: bool, prompt: Prompt)
    requires Inv(s) && Good(s) && NoDuplicates(s.paths)
    ensures var r := Step(s, Saves(path, renames, prompt));
      if path == "" then r == s
      else
        && RebuildBegun(s.(activePath := path, paths := r.paths), r) && NoDuplicates(r.paths)
        && (forall p :: p in r.paths <==> p == path || (p in s.paths && !(renames && p == s.activePath)))
  {
    hide ReconnectActiveConfig, RebuildBegun, Listed;
    if path != "" {
      var s1 := s.(activePath := path, paths := Listed(s, path, renames));
      RebuildDoes(s1, prompt);
      NotBusyStays(s1);
      ListedHas(s, path, renames);
    }
  }

  lemma ListedHas(s: State, path: string, renames: bool)
    requires NoDuplicates(s.paths)
    ensures forall p :: p in Listed(s, path, renames) <==> p == path || (p in s.paths && !(renames && p == s.activePath))
    ensures NoDuplicates(Listed(s, path, renames))
  {
    hide Once, Put, NoDuplicates;
    if renames && s.activePath in s.paths {
      PutHas(s.paths, s.activePath, path);
      OnceHas(Put(s.paths, s.activePath, path));
    } else if path !in s.paths {
      FrontIsNew(path, s.paths);
    }
  }

  lemma FrontIsNew(path: string, paths: seq<string>)
    requires NoDuplicates(paths) && path !in paths
    ensures NoDuplicates([path] + paths)
  {
  }

  lemma {:induction false} PutHas(paths: seq<string>, was: string, path: string)
    requires NoDuplicates(paths)
    ensures forall p :: p in Put(paths, was, path) <==> (p == path && was in paths) || (p in paths && p != was)
  {
    if paths != [] {
      var rest := paths[1..];
      assert NoDuplicates(rest) && paths[0] !in rest;
      PutHas(rest, was, path);
      if paths[0] != was {
        assert forall p :: p in Put(paths, was, path) <==> p == paths[0] || p in Put(rest, was, path);
      }
      assert forall p :: p in paths <==> p == paths[0] || p in rest;
    }
  }

  lemma {:induction false} WithoutHas(paths: seq<string>, path: string)
    ensures forall p :: p in Without(paths, path) <==> p in paths && p != path
    ensures NoDuplicates(paths) ==> NoDuplicates(Without(paths, path))
  {
    if paths != [] {
      WithoutHas(paths[1..], path);
      if NoDuplicates(paths) && paths[0] != path { FrontIsNew(paths[0], Without(paths[1..], path)); }
      assert forall p :: p in paths <==> p == paths[0] || p in paths[1..];
    }
  }

  lemma {:induction false} OnceHas(paths: seq<string>)
    ensures (forall p :: p in Once(paths) <==> p in paths) && NoDuplicates(Once(paths))
    decreases |paths|
  {
    if paths != [] {
      WithoutHas(paths[1..], paths[0]);
      OnceHas(Without(paths[1..], paths[0]));
      FrontIsNew(paths[0], Once(Without(paths[1..], paths[0])));
      assert forall p :: p in paths <==> p == paths[0] || p in paths[1..];
    }
  }

  /** A config removed is not listed any more. One that is active takes its tunnel down with it, and
      the first one left is the active one; another one goes and nothing else changes. */
  lemma RemoveDoes(s: State, i: int, prompt: Prompt)
    requires Inv(s) && Good(s)
    ensures var r := Step(s, Removes(i, prompt));
      if !(0 <= i < |s.paths|) then r == s
      else
        var path := s.paths[i]; var named := s.(paths := r.paths, activePath := r.activePath);
        && (forall p :: p in r.paths <==> p in s.paths && p != path)
        && (s.activePath != path && s.activePath != "" ==> r.activePath == s.activePath)
        && (s.activePath == path || s.activePath == "" ==> r.activePath == if r.paths == [] then "" else r.paths[0])
        && (if path == s.activePath && (s.tunnel.connected || s.tunnel.connecting) then ToldToStop(named, r) else r == named)
  {
    hide DisconnectVpn, Without, Inv, Good, ToldToStop;
    if 0 <= i < |s.paths| {
      WithoutHas(s.paths, s.paths[i]);
      StopDoes(s, prompt);
      StopIsElsewhere(s, DisconnectVpn(s, prompt), Step(s, Removes(i, prompt)));
    }
  }

  /** The list and the active config do not matter to what a disconnect does. */
  lemma StopIsElsewhere(s: State, d: State, r: State)
    ensures ToldToStop(s, d) && r == d.(paths := r.paths, activePath := r.activePath) ==>
      ToldToStop(s.(paths := r.paths, activePath := r.activePath), r)
  {
  }

  /** A setting of the session is stored and pushed to the client. What shows on a ready helper is
      rebuilt when its session was told to stop or was built with others; before a command is out
      the setting goes along with it. */
  ghost predicate SettingsChanged(s: State, kept: SessionSettings, r: State) {
    var t := s.tunnel;
    var stored := s.(settings := kept, tunnel := t.(client := t.client.(settings := r.tunnel.client.settings)));
    && (t.client.settings == s.settings ==> r.tunnel.client.settings == kept)
    && if t.client.helperReady && Busy(t) && !TearingDown(t) && s.activePath != ""
          && (t.client.builtWith.None? || t.client.builtWith.value.settings != kept)
       then TeardownBegun(stored, r)
       else r == stored
  }

  lemma EditDoes(s: State, kept: SessionSettings, pushed: SessionSettings, prompt: Prompt)
    requires Inv(s) && Good(s) && (s.tunnel.client.settings == s.settings ==> pushed == kept)
    ensures SettingsChanged(s, kept, Edit(s, kept, pushed, prompt))
  {
    hide ReconnectActiveConfig, TeardownBegun, ReadAgain;
    var s1 := s.(settings := kept, tunnel := s.tunnel.(client := s.tunnel.client.(settings := pushed)));
    if s.activePath == "" {
      NothingToReconnect(s1, prompt);
    } else {
      RebuildDoes(s1, prompt);
      TeardownKeepsSettings(s1, ReconnectActiveConfig(s1, prompt));
    }
  }

  lemma TeardownKeepsSettings(s: State, r: State)
    ensures TeardownBegun(s, r) ==> r.tunnel.client.settings == s.tunnel.client.settings
  {
  }

  lemma SettingsDo(s: State, a: Action)
    requires Inv(s) && Good(s) && (a.SetsRoutes? || a.SetsKillSwitch? || a.SetsPorts?)
    ensures var r := Step(s, a);
      var kept := match a
        case SetsRoutes(routes, _) => s.settings.(routes := routes)
        case SetsKillSwitch(v, _) => s.settings.(killSwitch := v)
        case SetsPorts(v, _) => s.settings.(portsFromConfig := v)
        case _ => s.settings;
      if kept == s.settings then r == s else SettingsChanged(s, kept, r)
  {
    hide Edit, Inv, Good, SettingsChanged;
    var c := s.tunnel.client.settings;
    match a
    case SetsRoutes(routes, p) => EditDoes(s, s.settings.(routes := routes), c.(routes := routes), p);
    case SetsKillSwitch(v, p) => EditDoes(s, s.settings.(killSwitch := v), c.(killSwitch := v), p);
    case SetsPorts(v, p) => EditDoes(s, s.settings.(portsFromConfig := v), c.(portsFromConfig := v), p);
  }

  /** So does a rule: the routes kept go along with it. */
  lemma RulesDo(s: State, prompt: Prompt)
    requires Inv(s) && Good(s)
    ensures SettingsChanged(s, s.settings, Step(s, EditsRules(prompt)))
    ensures Step(s, EditsRules(prompt)).tunnel.client.settings.routes == s.settings.routes
  {
    hide Edit, SettingsChanged;
    var pushed := s.tunnel.client.settings.(routes := s.settings.routes);
    EditDoes(s, s.settings, pushed, prompt);
    EditPushes(s, s.settings, pushed, prompt);
  }

  lemma EditPushes(s: State, kept: SessionSettings, pushed: SessionSettings, prompt: Prompt)
    requires s.tunnel.awaitingToml ==> s.tunnel.connecting
    ensures Edit(s, kept, pushed, prompt).tunnel.client.settings == pushed
  {
    hide ReconnectActiveConfig, TeardownBegun;
    var s1 := s.(settings := kept, tunnel := s.tunnel.(client := s.tunnel.client.(settings := pushed)));
    if s.activePath == "" {
      NothingToReconnect(s1, prompt);
    } else {
      RebuildDoes(s1, prompt);
      TeardownKeepsSettings(s1, ReconnectActiveConfig(s1, prompt));
    }
  }

  /** A refresh that wrote the active config rebuilds a tunnel that is up, and no other. */
  lemma RefreshDoes(s: State, prompt: Prompt)
    requires Inv(s) && Good(s)
    ensures var r := Step(s, RebuildsForSubscription(prompt));
      if s.tunnel.connected && s.activePath != "" then RebuildBegun(s, r) else r == s
  {
    hide ReconnectActiveConfig, RebuildBegun;
    if s.activePath == "" { NothingToReconnect(s, prompt); } else { RebuildDoes(s, prompt); }
  }

  /** A reconnect that pends begins its attempt; with the program quitting or no config left it is
      called off instead. */
  ghost predicate ReconnectTaken(s: State, r: State) {
    if !s.tunnel.pendingReconnect then r == s
    else if s.quitting || s.activePath == "" then
      r == s.(tunnel := s.tunnel.(pendingReconnect := false, reapplying := false))
    else AttemptBegun(s.(tunnel := s.tunnel.(pendingReconnect := false)), r)
  }

  /** What takes it up: a hop queued by a report, or the safety net of the last rebuild, each once;
      the net of an earlier rebuild does nothing. */
  lemma TimersDo(s: State, g: nat)
    ensures var t := s.tunnel;
      if t.hops == 0 then Step(s, RunsHop) == s
      else ReconnectTaken(s.(tunnel := t.(hops := t.hops - 1)), Step(s, RunsHop))
    ensures var left := s.(nets := s.nets - multiset{g});
      if s.nets[g] == 0 then Step(s, RunsNet(g)) == s
      else if g != s.reconnectGen then Step(s, RunsNet(g)) == left
      else ReconnectTaken(left, Step(s, RunsNet(g)))
  {
  }

  // ---------- what the helper does ----------

  /** What the window shows once `st` is reported, and the hop a teardown that ends queues. */
  ghost predicate Shows(t: Tunnel, u: Tunnel, st: Report) {
    var switching := t.reapplying && st != Connected && st != Error;
    && u.client.state == st && (u.connected <==> st == Connected) && (u.reapplying <==> switching)
    && (u.connecting <==> st == Connecting || st == Reconnecting || st == WaitingForNetwork
                          || (switching && (st == Disconnecting || st == Disconnected)))
    && (u.disconnecting <==> st == Disconnecting && !switching)
    && u.hops == t.hops + (if st == Disconnected && t.pendingReconnect then 1 else 0)
    && u.pendingReconnect == t.pendingReconnect && u.awaitingToml == t.awaitingToml
  }

  lemma EmitShows(t: Tunnel, st: Report)
    ensures var u := Emit(t, st); Shows(t, u, st) && u.client == t.client.(state := st)
  {
  }

  /** A report of a ready helper is shown when it is news. What was sent, and what waits, stays. */
  lemma ReportDoes(s: State, st: Report)
    ensures var r := Step(s, Helper(Reports(st))); var c := s.tunnel.client;
      if !c.helperReady || c.state == st then r == s
      else
        && Shows(s.tunnel, r.tunnel, st) && r == s.(tunnel := r.tunnel)
        && r.tunnel.client == c.(state := st, seen := c.seen || (st != Disconnecting && st != Disconnected && st != Error),
                                 over := c.over || st == Error || (c.seen && (st == Disconnecting || st == Disconnected)))
  {
    hide Emit, OnReport;
    NewsIsShown(s.tunnel, st);
    assert Step(s, Helper(Reports(st))).tunnel == if s.tunnel.client.helperReady then OnReport(s.tunnel, st) else s.tunnel;
  }

  lemma NewsIsShown(t: Tunnel, st: Report)
    ensures var u := OnReport(t, st); var c := t.client;
      if c.state == st then u == t
      else
        && Shows(t, u, st)
        && u.client == c.(state := st, seen := c.seen || (st != Disconnecting && st != Disconnected && st != Error),
                          over := c.over || st == Error || (c.seen && (st == Disconnecting || st == Disconnected)))
  {
    hide Emit;
    EmitShows(t.(client := Heard(t.client, st)), st);
  }

  /** An error of a ready helper settles an attempt that shows, unless it is chatter, a switch is
      under way, its read is awaited or the helper says it is at work. */
  lemma ErrorDoes(s: State, chatter: bool)
    ensures var r := Step(s, Helper(Errors(chatter))); var t := s.tunnel; var c := t.client;
      if c.helperReady && t.connecting && !chatter && !t.reapplying && !t.awaitingToml && c.state in {Disconnected, Error}
      then r == s.(tunnel := t.(connecting := false, client := c.(over := true)))
      else r == s
  {
  }

  /** A helper that goes away leaves nothing up, and what was built with it is forgotten; a connect
      that waits still waits. */
  lemma LostDoes(s: State)
    ensures var r := Step(s, Helper(SocketLost)); var c := s.tunnel.client; var d := r.tunnel.client;
      if !c.link.Up? then r == s
      else
        && d.link.Down? && !d.helperReady && d.builtWith.None? && d.connectPending == c.connectPending && d.sent == c.sent
        && d.settings == c.settings && d.state == Disconnected && d.over
        && (if c.state == Disconnected then r == s.(tunnel := s.tunnel.(client := d))
            else r == s.(tunnel := r.tunnel) && Shows(s.tunnel, r.tunnel, Disconnected))
  {
    hide Emit;
    var c := s.tunnel.client;
    EmitShows(s.tunnel.(client := c.(link := Down, helperReady := false, builtWith := None, over := true)), Disconnected);
  }

  /** A start of the helper that fails leaves nothing up and nothing waiting, whatever was on its way;
      a read that is awaited still is, and a reconnect that pends gets its hop. A switch still shows
      only where the error was no news. */
  lemma FailureDoes(s: State)
    ensures var r := Step(s, Helper(Fails)); var t := s.tunnel; var u := r.tunnel; var d := u.client;
      if t.client.link.Down? && !t.client.handshake then r == s
      else
        && r == s.(tunnel := u) && d.link.Down? && !d.helperReady && !d.handshake && d.builtWith.None? && !d.connectPending
        && d.over && d.sent == t.client.sent && d.settings == t.client.settings && d.state == Disconnected
        && !u.connected && !u.disconnecting && (u.connecting <==> u.reapplying)
        && (u.reapplying <==> t.reapplying && t.client.state == Error && !t.client.link.Up?)
        && u.pendingReconnect == t.pendingReconnect && u.awaitingToml == t.awaitingToml
        && (t.pendingReconnect ==> u.hops > t.hops) && (!t.pendingReconnect ==> u.hops == t.hops)
  {
    hide Emit, AbortStartup, SetState, OnVpnError, Shows;
    AbortEnds(s.tunnel);
    TellsErrorThenOff(AbortStartup(s.tunnel));
  }

  lemma AbortEnds(t: Tunnel)
    ensures var u := AbortStartup(t); var d := u.client;
      && d.link.Down? && !d.helperReady && !d.handshake && d.builtWith.None? && !d.connectPending
      && d.over && d.sent == t.client.sent && d.settings == t.client.settings && u.hops >= t.hops
      && (!t.pendingReconnect ==> u.hops == t.hops)
      && (d.state == t.client.state || (d.state == Disconnected && t.client.link.Up?))
      && (t.client.link.Up? ==> d.state == Disconnected) && (!t.client.link.Up? ==> u.reapplying == t.reapplying)
      && u.pendingReconnect == t.pendingReconnect && u.awaitingToml == t.awaitingToml
  {
    hide Emit;
    var c := t.client.(connectPending := false, helperReady := false, handshake := false, builtWith := None, over := true);
    EmitShows(t.(client := c.(link := Down)), Disconnected);
  }

  lemma TellsErrorThenOff(a: Tunnel)
    ensures var u := SetState(SetState(OnVpnError(a, false), Error), Disconnected); var d := u.client;
      && d == a.client.(state := Disconnected, over := d.over) && (a.client.over ==> d.over)
      && !u.connected && !u.disconnecting && (u.connecting <==> u.reapplying)
      && (u.reapplying <==> a.reapplying && a.client.state == Error)
      && u.pendingReconnect == a.pendingReconnect && u.awaitingToml == a.awaitingToml
      && u.hops == a.hops + (if a.pendingReconnect then 1 else 0)
  {
    hide Emit, OnVpnError;
    var b := OnVpnError(a, false);
    ErrorSettles(a);
    EmitShows(b, Error);
    EmitShows(SetState(b, Error), Disconnected);
  }

  lemma ErrorSettles(t: Tunnel)
    ensures var u := OnVpnError(t, false);
      u == t.(connecting := u.connecting, client := t.client.(over := u.client.over)) && (t.client.over ==> u.client.over)
  {
  }

  /** A helper that has started is spoken to; one that is ready gets the connect that waited for it,
      with its config and the settings of now, and no other command. */
  lemma ReadyDoes(s: State)
    ensures var r := Step(s, Helper(Ready)); var c := s.tunnel.client; var d := r.tunnel.client;
      if !c.link.Up? || c.helperReady then r == s
      else
        && r == s.(tunnel := s.tunnel.(client := d)) && d.helperReady && !d.handshake && !d.connectPending
        && d.state == c.state && d.link.Up? && d.settings == c.settings
        && (if c.connectPending then
              var session := Session(c.loaded, c.settings);
              d.sent == c.sent + [session] && d.builtWith == Some(session) && !d.stopped && !d.seen && !d.over
            else d == c.(helperReady := true, handshake := false))
    ensures Step(s, Helper(DialDone)) ==
      if s.tunnel.client.link.Dialing? then
        s.(tunnel := s.tunnel.(client := s.tunnel.client.(link := Up, handshake := true)))
      else s
  {
    hide ClientReady;
    ReadyIs(s.tunnel);
    assert Step(s, Helper(Ready)) == s.(tunnel := ClientReady(s.tunnel));
  }

  lemma ReadyIs(t: Tunnel)
    ensures var u := ClientReady(t); var c := t.client; var d := u.client;
      if !c.link.Up? || c.helperReady then u == t
      else
        && u == t.(client := d) && d.helperReady && !d.handshake && !d.connectPending
        && d.state == c.state && d.link.Up? && d.settings == c.settings
        && (if c.connectPending then
              var session := Session(c.loaded, c.settings);
              d.sent == c.sent + [session] && d.builtWith == Some(session) && !d.stopped && !d.seen && !d.over
            else d == c.(helperReady := true, handshake := false))
  {
  }

  // ---------- from what the user does to the command that goes out ----------

  /** The read that was started last. */
  function Newest(s: State): nat { if s.inFlight == [] then 0 else |s.inFlight| - 1 }

  /** The tunnel is torn down on a ready helper, for the config active now. */
  ghost predicate Lands(s: State) {
    && Inv(s) && s.tunnel.pendingReconnect && s.tunnel.reapplying && !s.tunnel.awaitingToml && !s.quitting
    && s.activePath != "" && s.tunnel.client.helperReady && !s.tunnel.client.state.Disconnected?
  }

  /** A teardown whose end the helper reports: the window shows connecting all along, and the next
      command is for the config and with the settings of then. */
  lemma TeardownLands(s: State)
    requires Lands(s)
    ensures var down := Step(s, Helper(Reports(Disconnected))); var read := Step(down, RunsHop);
      var sent := Step(read, FinishesRead(Newest(read), false, true));
      && down.tunnel.connecting && !down.tunnel.disconnecting && read.tunnel.connecting && read.tunnel.awaitingToml
      && sent.tunnel.connecting && !TearingDown(sent.tunnel) && !sent.tunnel.reapplying
      && sent.tunnel.client.sent == s.tunnel.client.sent + [Session(s.activePath, s.settings)]
      && sent.activePath == s.activePath && sent.settings == s.settings
  {
    var down := Step(s, Helper(Reports(Disconnected)));
    Reported(s);
    HopBegins(down);
    hide Step;
    NewestIsSent(Step(down, RunsHop));
  }

  lemma Reported(s: State)
    requires Lands(s)
    ensures var down := Step(s, Helper(Reports(Disconnected))); var t := down.tunnel;
      && down == s.(tunnel := t) && t.connecting && !t.disconnecting && !t.connected && t.pendingReconnect && t.reapplying
      && t.hops > 0 && !t.awaitingToml && t.client.sent == s.tunnel.client.sent && t.client.helperReady
      && t.client.state.Disconnected?
  {
  }

  lemma HopBegins(s: State)
    requires s.tunnel.pendingReconnect && s.tunnel.hops > 0 && !s.quitting && s.activePath != ""
    ensures var r := Step(s, RunsHop);
      && r.inFlight == s.inFlight + [Read(s.connectGen + 1, s.activePath)] && r.connectGen == s.connectGen + 1
      && r.tunnel == s.tunnel.(pendingReconnect := false, hops := s.tunnel.hops - 1, connecting := true, awaitingToml := true)
      && r == s.(tunnel := r.tunnel, connectGen := r.connectGen, inFlight := r.inFlight)
  {
  }

  lemma NewestIsSent(s: State)
    requires s.inFlight != [] && s.inFlight[|s.inFlight| - 1] == Read(s.connectGen, s.activePath)
    requires s.tunnel.client.helperReady && s.tunnel.connecting && !s.tunnel.pendingReconnect
    ensures var r := Step(s, FinishesRead(Newest(s), false, true));
      && r.tunnel.connecting && !TearingDown(r.tunnel) && !r.tunnel.reapplying
      && r.tunnel.client.sent == s.tunnel.client.sent + [Session(s.activePath, s.settings)]
      && r.activePath == s.activePath && r.settings == s.settings
  {
  }

  /** Another config picked while one is connected: once the helper reports the old session gone,
      the command for the new one goes out. */
  lemma SwitchArrives(s: State, j: nat)
    requires Inv(s) && Good(s) && !s.quitting && s.tunnel.connected && !TearingDown(s.tunnel)
    requires j < |s.paths| && s.paths[j] != s.activePath
    ensures var picked := Step(s, Selects(j, None)); var down := Step(picked, Helper(Reports(Disconnected)));
      var read := Step(down, RunsHop); var sent := Step(read, FinishesRead(Newest(read), false, true));
      && sent.tunnel.client.sent == s.tunnel.client.sent + [Session(s.paths[j], s.settings)]
      && sent.activePath == s.paths[j] && sent.tunnel.connecting && !TearingDown(sent.tunnel)
  {
    var a := Selects(j, None);
    StepKeepsInv(s, a);
    PickLands(s, j);
    hide Step;
    TeardownLands(Step(s, a));
  }

  lemma PickLands(s: State, j: nat)
    requires Inv(s) && Good(s) && !s.quitting && s.tunnel.connected && !TearingDown(s.tunnel)
    requires j < |s.paths| && s.paths[j] != s.activePath && Inv(Step(s, Selects(j, None)))
    ensures var r := Step(s, Selects(j, None));
      Lands(r) && r.activePath == s.paths[j] && r.settings == s.settings && r.tunnel.client.sent == s.tunnel.client.sent
  {
  }

  /** So it is with a setting of the session. */
  lemma KillSwitchArrives(s: State)
    requires Inv(s) && Good(s) && !s.quitting && s.tunnel.connected && CommandOut(s.tunnel) && !TearingDown(s.tunnel)
    ensures var v := !s.settings.killSwitch;
      var edited := Step(s, SetsKillSwitch(v, None)); var down := Step(edited, Helper(Reports(Disconnected)));
      var read := Step(down, RunsHop); var sent := Step(read, FinishesRead(Newest(read), false, true));
      && sent.tunnel.client.sent == s.tunnel.client.sent + [Session(s.activePath, s.settings.(killSwitch := v))]
      && sent.settings == s.settings.(killSwitch := v) && sent.tunnel.connecting && !TearingDown(sent.tunnel)
  {
    var a := SetsKillSwitch(!s.settings.killSwitch, None);
    StepKeepsInv(s, a);
    EditLands(s);
    hide Step;
    TeardownLands(Step(s, a));
  }

  lemma EditLands(s: State)
    requires Inv(s) && Good(s) && !s.quitting && s.tunnel.connected && CommandOut(s.tunnel) && !TearingDown(s.tunnel)
    requires Inv(Step(s, SetsKillSwitch(!s.settings.killSwitch, None)))
    ensures var v := !s.settings.killSwitch; var r := Step(s, SetsKillSwitch(v, None));
      && Lands(r) && r.activePath == s.activePath && r.settings == s.settings.(killSwitch := v)
      && r.tunnel.client.sent == s.tunnel.client.sent
  {
  }

  /** A connect asked for with nothing up starts a helper, and the command goes out once it is ready. */
  lemma ConnectArrives(s: State)
    requires Inv(s) && Good(s) && s.activePath != "" && !Busy(s.tunnel) && !s.tunnel.disconnecting && !TearingDown(s.tunnel)
    requires s.tunnel.client.link.Down?
    ensures var read := Step(s, Connects); var waits := Step(read, FinishesRead(Newest(read), false, true));
      var sent := Step(Step(waits, Helper(DialDone)), Helper(Ready));
      && waits.tunnel.client.sent == s.tunnel.client.sent && waits.tunnel.connecting
      && sent.tunnel.client.sent == s.tunnel.client.sent + [Session(s.activePath, s.settings)]
      && sent.tunnel.connecting && !TearingDown(sent.tunnel)
      && Step(sent, Helper(Reports(Connected))).tunnel.connected
  {
    var read := Step(s, Connects);
    var waits := Step(read, FinishesRead(Newest(read), false, true));
    assert waits.tunnel.client.loaded == s.activePath && waits.tunnel.client.settings == s.settings;
    assert Waiting(waits.tunnel) && waits.tunnel.client.link.Dialing?;
    WaitingGoesOut(waits);
  }

  lemma WaitingGoesOut(s: State)
    requires Waiting(s.tunnel) && s.tunnel.client.link.Dialing? && !s.tunnel.client.helperReady && s.tunnel.connecting
    requires !TearingDown(s.tunnel) && s.tunnel.client.state.Disconnected?
    ensures var sent := Step(Step(s, Helper(DialDone)), Helper(Ready));
      && sent.tunnel.client.sent == s.tunnel.client.sent + [Session(s.tunnel.client.loaded, s.tunnel.client.settings)]
      && sent.tunnel.connecting && !TearingDown(sent.tunnel)
      && Step(sent, Helper(Reports(Connected))).tunnel.connected
  {
  }

  /** A disconnect of what is connected shows as disconnecting, and as off once it is reported. */
  lemma DisconnectArrives(s: State)
    requires Inv(s) && Good(s) && s.tunnel.connected
    ensures var told := Step(s, Disconnects(None)); var off := Step(told, Helper(Reports(Disconnected)));
      && told.tunnel.disconnecting && off.tunnel.client.sent == s.tunnel.client.sent
      && !Busy(off.tunnel) && !off.tunnel.disconnecting && !TearingDown(off.tunnel) && off.tunnel.hops == s.tunnel.hops
  {
  }
}
