/** What every step under the contract keeps of the session handed to the helper. */
module ConnectSessions {
  import opened Text
  import opened ConnectProtocol
  import opened ConnectSafety
  import opened ConnectContract
  import opened ConnectLabels

  /** How the client's fields hang together, and with Backend's. */
  ghost predicate ClientShape(t: Tunnel) {
    && (t.connected <==> t.client.state.Connected?)
    && (t.client.helperReady ==> t.client.link.Up? && !t.client.connectPending)
    && (!t.client.helperReady ==> t.client.state.Disconnected? && t.client.builtWith.None? && t.client.over)
    && (!t.client.helperReady && !t.client.link.Down? ==> t.client.connectPending)
    && (t.client.helperReady ==> (t.client.stopped <==> t.client.builtWith.None?))
    && (CommandOut(t) && t.client.seen ==> ComingUp(t.client.state))
  }

  /** What the contract adds. */
  ghost predicate TunnelShape(t: Tunnel) {
    && ClientShape(t) && Shown(t)
    && (t.pendingReconnect ==> t.client.stopped && t.client.builtWith.None? && !Waiting(t))
    && (CommandOut(t) && t.client.seen ==> Busy(t))
    && (t.client.over ==> !t.connected)
    && (t.client.builtWith.Some? && t.client.over && Busy(t) ==> t.awaitingToml)
  }

  predicate Current(s: State) { s.tunnel.client.builtWith == Some(Session(s.activePath, s.settings)) }

  /** The command that is out, and the connect that waits, are what the user would get now, or a
      rebuild is on its way. */
  ghost predicate Fresh(s: State) {
    var t := s.tunnel;
    && (CommandOut(t) ==> TearingDown(t) || Current(s))
    && (Waiting(t) ==> t.awaitingToml || t.client.loaded == s.activePath)
    && (t.client.connectPending || t.client.builtWith.Some? ==> t.client.settings == s.settings)
    && (CommandOut(t) || Waiting(t) ==> s.activePath != "")
  }

  ghost predicate Good(s: State) { Labelled(s) && TunnelShape(s.tunnel) && Fresh(s) }

  // ---------- the helper ----------

  lemma HelperKeepsShape(t: Tunnel, e: HelperEvent)
    requires TunnelShape(t) && EventKeepsTeardown(t, e) && (t.reapplying ==> TearingDown(t))
    requires e.Reports? ==> ReportKeepsEnd(t, e.report)
    ensures TunnelShape(OnHelper(t, e))
  {
    match e
    case Fails => if !t.client.link.Down? || t.client.handshake { FailsIsIdle(t); }
    case _ =>
  }

  /** A helper that failed leaves nothing of the session behind. */
  lemma FailsIsIdle(t: Tunnel)
    requires ClientShape(t) && !TearingDown(t) && !t.reapplying
    ensures var u := ClientFails(t);
      && TunnelShape(u) && !Busy(u) && !u.client.helperReady && u.client.builtWith.None? && u.client.link.Down?
      && !u.client.connectPending && u.client.settings == t.client.settings && u.client.loaded == t.client.loaded
  {
    var a := AbortStartup(t);
    assert a.client.state.Disconnected? && a.client.link.Down? && !a.connected;
    var b := OnVpnError(a, false);
    assert b.client.state.Disconnected?;
  }

  lemma HelperKeepsGood(s: State, e: HelperEvent)
    requires Inv(s) && Good(s) && EventKeepsTeardown(s.tunnel, e) && (e.Reports? ==> ReportKeepsEnd(s.tunnel, e.report))
    ensures Good(s.(tunnel := OnHelper(s.tunnel, e)))
  {
    HelperKeepsShape(s.tunnel, e);
    if e.Fails? && (!s.tunnel.client.link.Down? || s.tunnel.client.handshake) { FailsIsIdle(s.tunnel); }
  }

  // ---------- the other steps ----------

  lemma ConnectKeepsGood(s: State)
    requires Inv(s) && Good(s) && !Gap(s.tunnel)
    ensures Good(ConnectVpn(s))
  {
    ConnectKeeps(s);
  }

  /** A disconnect asked of the client leaves no command out and no connect waiting. */
  lemma DisconnectStops(t: Tunnel, prompt: Prompt)
    requires ClientShape(t) && !t.awaitingToml && (t.pendingReconnect ==> t.reapplying) && (t.client.over ==> !t.connected)
    ensures var u := ClientDisconnect(t, prompt);
      && TunnelShape(u) && u.client.builtWith.None? && !u.client.connectPending && u.client.settings == t.client.settings
  {
    if t.client.helperReady { ReadyStops(t, prompt); } else { StartupStops(t, prompt); }
  }

  lemma ReadyStops(t: Tunnel, prompt: Prompt)
    requires ClientShape(t) && !t.awaitingToml && (t.pendingReconnect ==> t.reapplying) && (t.client.over ==> !t.connected)
    requires t.client.helperReady
    ensures var u := ClientDisconnect(t, prompt);
      && TunnelShape(u) && u.client.builtWith.None? && !u.client.connectPending && u.client.settings == t.client.settings
  {
    hide AbortStartup;
    assert ClientDisconnect(t, prompt).client.stopped;
  }

  lemma StartupStops(t: Tunnel, prompt: Prompt)
    requires ClientShape(t) && !t.awaitingToml && (t.pendingReconnect ==> t.reapplying) && (t.client.over ==> !t.connected)
    requires !t.client.helperReady
    ensures var u := ClientDisconnect(t, prompt);
      && TunnelShape(u) && u.client.builtWith.None? && !u.client.connectPending && u.client.settings == t.client.settings
  {
    assert AbortStartup(t).client.builtWith.None?;
  }

  lemma DisconnectKeepsGood(s: State, prompt: Prompt)
    requires Inv(s) && Good(s)
    ensures Good(DisconnectVpn(s, prompt))
    ensures Busy(s.tunnel) ==> var u := DisconnectVpn(s, prompt).tunnel; !CommandOut(u) && !Waiting(u) && !TearingDown(u)
  {
    hide ClientDisconnect;
    DisconnectKeeps(s, prompt);
    if Busy(s.tunnel) {
      ShapeOfCancelled(s.tunnel);
      DisconnectStops(Cancelled(s.tunnel), prompt);
    }
  }

  lemma ShapeOfCancelled(t: Tunnel)
    requires ClientShape(t)
    ensures ClientShape(Cancelled(t)) && ClientShape(Switching(t))
  {
  }

  /** A rebuild with the active config or the settings already the new ones. */
  lemma ReconnectKeepsGood(s: State, prompt: Prompt)
    requires Inv(s) && TunnelShape(s.tunnel) && "" !in s.paths && s.activePath != ""
    requires s.tunnel.client.connectPending || s.tunnel.client.builtWith.Some? ==> s.tunnel.client.settings == s.settings
    requires Busy(s.tunnel) || Good(s)
    ensures Good(ReconnectActiveConfig(s, prompt))
  {
    hide ClientDisconnect;
    ReconnectKeeps(s, prompt);
    var t := s.tunnel;
    if t.pendingReconnect {
    } else if t.awaitingToml || (t.connecting && !t.connected && !t.client.helperReady) {
      BuildKeepsShape(s);
    } else if Busy(t) {
      ShapeOfCancelled(t);
      DisconnectStops(Switching(t), prompt);
    }
  }

  lemma BuildKeepsShape(s: State)
    requires TunnelShape(s.tunnel) && s.tunnel.connecting && !s.tunnel.pendingReconnect
    ensures TunnelShape(BuildToml(s).tunnel)
  {
  }

  lemma ReadFinishedKeepsGood(s: State, i: nat, empty: bool, spawns: bool)
    requires Inv(s) && Good(s) && (empty ==> EmptyReadOk(s, i))
    ensures Good(ReadFinished(s, i, empty, spawns))
  {
    hide ClientConnect;
    ReadFinishedKeeps(s, i, empty, spawns);
    if i < |s.inFlight| && s.inFlight[i].generation == s.connectGen && !empty {
      ConnectHandsOver(Loaded(s.tunnel, s.inFlight[i].path, s.settings), spawns);
    }
  }

  /** A connect handed to the client goes out, or waits, as it was handed over; or the helper
      could not be started, and nothing is left of it. */
  lemma ConnectHandsOver(t: Tunnel, spawns: bool)
    requires ClientShape(t) && !TearingDown(t) && !t.reapplying && t.connecting && (t.client.over ==> !t.connected)
    ensures var u := ClientConnect(t, spawns);
      && TunnelShape(u) && u.client.settings == t.client.settings && u.client.loaded == t.client.loaded
      && (u.client.builtWith.Some? ==> u.client.builtWith == Some(Session(t.client.loaded, t.client.settings)))
  {
    if !t.client.helperReady && t.client.link.Down? && !spawns {
      FailsIsIdle(t.(client := t.client.(stopped := false)));
    }
  }

  lemma AdoptKeepsGood(s: State, path: string, prompt: Prompt)
    requires Inv(s) && Good(s) && path != ""
    requires !Busy(s.tunnel) && (CommandOut(s.tunnel) || Waiting(s.tunnel)) ==> path == s.activePath
    ensures Good(Adopt(s, path, prompt))
  {
    hide ReconnectActiveConfig;
    if Busy(s.tunnel) { ReconnectKeepsGood(s.(activePath := path), prompt); }
  }

  lemma RemoveKeepsGood(s: State, i: int, prompt: Prompt)
    requires Inv(s) && Good(s)
    requires !Busy(s.tunnel) && (CommandOut(s.tunnel) || Waiting(s.tunnel)) ==>
      RemoveConfig(s, i, prompt).activePath == s.activePath
    ensures Good(RemoveConfig(s, i, prompt))
  {
    hide DisconnectVpn;
    DisconnectKeepsGood(s, prompt);
  }

  lemma EditKeepsGood(s: State, kept: SessionSettings, pushed: SessionSettings, prompt: Prompt)
    requires Inv(s) && Good(s)
    requires s.tunnel.client.settings == s.settings ==> pushed == kept
    requires !Busy(s.tunnel) && CommandOut(s.tunnel) ==> kept == s.settings
    ensures Good(Edit(s, kept, pushed, prompt))
  {
    hide Good, Inv, ReconnectActiveConfig;
    var s1 := s.(settings := kept, tunnel := s.tunnel.(client := s.tunnel.client.(settings := pushed)));
    EditedShape(s, kept, pushed);
    if s.activePath == "" {
      NothingToReconnect(s1, prompt);
    } else if Busy(s.tunnel) {
      if !SettingsStay(s1.tunnel) { ReconnectKeepsGood(s1, prompt); }
    } else {
      NothingUp(s1, prompt);
    }
  }

  /** Why an edit may need no rebuild. */
  predicate SettingsStay(t: Tunnel) {
    t.awaitingToml || t.pendingReconnect || (!t.connected && !t.client.helperReady) || !SessionSettingsChanged(t.client)
  }

  lemma EditedShape(s: State, kept: SessionSettings, pushed: SessionSettings)
    requires Inv(s) && Good(s)
    requires s.tunnel.client.settings == s.settings ==> pushed == kept
    requires !Busy(s.tunnel) && CommandOut(s.tunnel) ==> kept == s.settings
    ensures var s1 := s.(settings := kept, tunnel := s.tunnel.(client := s.tunnel.client.(settings := pushed)));
      && Inv(s1) && TunnelShape(s1.tunnel) && "" !in s1.paths && (!Busy(s.tunnel) ==> !s.tunnel.awaitingToml)
      && (s1.tunnel.client.connectPending || s1.tunnel.client.builtWith.Some? ==> s1.tunnel.client.settings == s1.settings)
      && (!Busy(s.tunnel) || s.activePath == "" || SettingsStay(s1.tunnel) ==> Good(s1))
  {
  }

  lemma NothingUp(s: State, prompt: Prompt)
    requires !Busy(s.tunnel) && !s.tunnel.awaitingToml
    ensures ReconnectActiveConfig(s, prompt) == s
  {
  }

  lemma FireKeepsGood(s: State)
    requires DistinctUpTo(s.inFlight, s.connectGen) && Good(s)
    ensures Good(FirePendingReconnect(s))
  {
  }

  lemma EditedSettings(s: State, kept: SessionSettings, pushed: SessionSettings, prompt: Prompt)
    ensures Edit(s, kept, pushed, prompt).settings == kept
  {
    hide ClientDisconnect;
  }

  lemma EditStepKeepsGood(s: State, a: Action)
    requires Inv(s) && Good(s) && Honours(s, a) && (a.SetsRoutes? || a.SetsKillSwitch? || a.SetsPorts? || a.EditsRules?)
    ensures Good(Step(s, a))
  {
    hide Good, Inv, Edit;
    var c := s.tunnel.client.settings;
    match a
    case SetsRoutes(r, p) =>
      EditedSettings(s, s.settings.(routes := r), c.(routes := r), p);
      if r != s.settings.routes { EditKeepsGood(s, s.settings.(routes := r), c.(routes := r), p); }
    case SetsKillSwitch(v, p) =>
      EditedSettings(s, s.settings.(killSwitch := v), c.(killSwitch := v), p);
      if v != s.settings.killSwitch { EditKeepsGood(s, s.settings.(killSwitch := v), c.(killSwitch := v), p); }
    case SetsPorts(v, p) =>
      EditedSettings(s, s.settings.(portsFromConfig := v), c.(portsFromConfig := v), p);
      if v != s.settings.portsFromConfig {
        EditKeepsGood(s, s.settings.(portsFromConfig := v), c.(portsFromConfig := v), p);
      }
    case EditsRules(p) => EditKeepsGood(s, s.settings, c.(routes := s.settings.routes), p);
  }

  lemma ConfigStepKeepsGood(s: State, a: Action)
    requires Inv(s) && Good(s) && Honours(s, a) && (a.Selects? || a.Removes? || a.Saves?)
    ensures Good(Step(s, a))
  {
    hide Adopt, RemoveConfig, EmptyReadOk;
    match a
    case Selects(i, p) =>
      if 0 <= i < |s.paths| {
        AdoptedIsActive(s, s.paths[i], p);
        if s.paths[i] != s.activePath { AdoptKeepsGood(s, s.paths[i], p); }
      }
    case Removes(i, p) => RemoveKeepsGood(s, i, p);
    case Saves(path, renames, p) =>
      if path != "" {
        var s1 := s.(paths := Listed(s, path, renames));
        assert Good(s1);
        AdoptedIsActive(s1, path, p);
        AdoptKeepsGood(s1, path, p);
      }
  }

  lemma TimedStepKeepsGood(s: State, a: Action)
    requires Inv(s) && Good(s) && Honours(s, a) && (a.AutoConnects? || a.RunsHop? || a.RunsNet?)
    ensures Good(Step(s, a))
  {
    hide ConnectVpn, FirePendingReconnect;
    match a
    case AutoConnects => if s.autoConnectArmed { ConnectKeepsGood(s.(autoConnectArmed := false)); }
    case RunsHop => if s.tunnel.hops > 0 { FireKeepsGood(s.(tunnel := s.tunnel.(hops := s.tunnel.hops - 1))); }
    case RunsNet(g) => FireKeepsGood(s.(nets := s.nets - multiset{g}));
  }

  lemma StepKeepsGood(s: State, a: Action)
    requires Inv(s) && Good(s) && Honours(s, a)
    ensures Good(Step(s, a))
  {
    hide ConnectVpn, DisconnectVpn, ReconnectActiveConfig, ReadFinished, OnHelper, FirePendingReconnect, Edit, SelectConfig,
      RemoveConfig, SaveConfig;
    match a
    case Toggles(p) => if Busy(s.tunnel) { DisconnectKeepsGood(s, p); } else { ConnectKeepsGood(s); }
    case Connects => ConnectKeepsGood(s);
    case Disconnects(p) => DisconnectKeepsGood(s, p);
    case AutoConnects => TimedStepKeepsGood(s, a);
    case RebuildsForSubscription(p) =>
      if s.activePath != "" { ReconnectKeepsGood(s, p); } else { NothingToReconnect(s, p); }
    case FinishesRead(i, e, sp) => ReadFinishedKeepsGood(s, i, e, sp);
    case Helper(e) => HelperKeepsGood(s, e);
    case RunsHop => TimedStepKeepsGood(s, a);
    case RunsNet(_) => TimedStepKeepsGood(s, a);
    case Selects(_, _) => ConfigStepKeepsGood(s, a);
    case Removes(_, _) => ConfigStepKeepsGood(s, a);
    case Saves(_, _, _) => ConfigStepKeepsGood(s, a);
    case Quits =>
    case _ => EditStepKeepsGood(s, a);
  }

  lemma {:induction false} RunKeepsGood(s: State, actions: seq<Action>)
    requires Inv(s) && Good(s) && AllHonour(s, actions)
    ensures Inv(Run(s, actions)) && Good(Run(s, actions))
    decreases |actions|
  {
    hide Inv, Good, Step, Honours;
    if actions != [] {
      StepKeepsInv(s, actions[0]);
      StepKeepsGood(s, actions[0]);
      RunKeepsGood(Step(s, actions[0]), actions[1..]);
    }
  }

  lemma ReachedIsGood(s: State, actions: seq<Action>)
    requires Start(s) && AllHonour(s, actions)
    ensures Inv(Run(s, actions)) && Good(Run(s, actions))
  {
    StartIsLabelled(s);
    RunKeepsGood(s, actions);
  }
}
