/** A read is always of the config the window names, when a teardown reports its end only and no
    connect is asked for in the gap before that report; and exactly what goes wrong otherwise. */
module ConnectLabels {
  import opened Text
  import opened ConnectProtocol
  import opened ConnectSafety
  import opened ConnectContract

  // ---------- the invariant ----------

  /** A read that is awaited is shown as connecting, and is the only thing outstanding. */
  predicate Shown(t: Tunnel) {
    && (t.awaitingToml ==> t.connecting && !t.pendingReconnect)
    && (t.pendingReconnect ==> t.reapplying)
  }

  ghost predicate NewestIs(inFlight: seq<Read>, g: nat, path: string) {
    forall i :: 0 <= i < |inFlight| && inFlight[i].generation == g ==> inFlight[i].path == path
  }

  ghost predicate Labelled(s: State) {
    && Shown(s.tunnel) && "" !in s.paths
    && (s.tunnel.awaitingToml ==> s.activePath != "" && NewestIs(s.inFlight, s.connectGen, s.activePath))
  }

  lemma BuildKeeps(s: State)
    requires DistinctUpTo(s.inFlight, s.connectGen)
    requires "" !in s.paths && s.activePath != "" && s.tunnel.connecting && !s.tunnel.pendingReconnect
    ensures Labelled(BuildToml(s))
  {
  }

  lemma ConnectKeeps(s: State)
    requires Inv(s) && Labelled(s) && !Gap(s.tunnel)
    ensures Labelled(ConnectVpn(s))
  {
  }

  lemma ClientDisconnectShows(t: Tunnel, prompt: Prompt)
    requires !t.awaitingToml && (t.pendingReconnect ==> t.reapplying)
    ensures Shown(ClientDisconnect(t, prompt)) && !ClientDisconnect(t, prompt).awaitingToml
  {
  }

  lemma DisconnectKeeps(s: State, prompt: Prompt)
    requires Labelled(s)
    ensures Labelled(DisconnectVpn(s, prompt)) && !DisconnectVpn(s, prompt).tunnel.awaitingToml
  {
  }

  /** A rebuild with the active config already the new one. */
  lemma ReconnectKeeps(s: State, prompt: Prompt)
    requires Inv(s) && Shown(s.tunnel) && "" !in s.paths && s.activePath != ""
    ensures Labelled(ReconnectActiveConfig(s, prompt))
  {
    hide ClientDisconnect;
    var t := s.tunnel;
    if t.pendingReconnect {
    } else if t.awaitingToml || (t.connecting && !t.connected && !t.client.helperReady) {
      BuildKeeps(s);
    } else if t.connected || t.connecting {
      ClientDisconnectShows(Switching(t), prompt);
    }
  }

  lemma FireKeeps(s: State)
    requires DistinctUpTo(s.inFlight, s.connectGen) && Labelled(s)
    ensures Labelled(FirePendingReconnect(s))
  {
  }

  lemma AdoptKeeps(s: State, path: string, prompt: Prompt)
    requires Inv(s) && Labelled(s) && path != ""
    ensures Labelled(Adopt(s, path, prompt))
  {
    hide ReconnectActiveConfig;
    if Busy(s.tunnel) { ReconnectKeeps(s.(activePath := path), prompt); }
  }

  lemma EditKeeps(s: State, kept: SessionSettings, pushed: SessionSettings, prompt: Prompt)
    requires Inv(s) && Labelled(s)
    ensures Labelled(Edit(s, kept, pushed, prompt))
  {
  }

  lemma NothingToReconnect(s: State, prompt: Prompt)
    requires s.activePath == ""
    ensures ReconnectActiveConfig(s, prompt) == s
  {
  }

  lemma ReadFinishedKeeps(s: State, i: nat, empty: bool, spawns: bool)
    requires Inv(s) && Labelled(s)
    ensures Labelled(ReadFinished(s, i, empty, spawns))
    ensures ReadFinished(s, i, empty, spawns).handed != s.handed ==>
      ReadFinished(s, i, empty, spawns).tunnel.client.loaded == s.activePath
  {
  }

  lemma HelperKeeps(t: Tunnel, e: HelperEvent)
    requires Shown(t) && EventKeepsTeardown(t, e)
    ensures Shown(OnHelper(t, e))
  {
  }

  lemma EditStepKeeps(s: State, a: Action)
    requires Inv(s) && Labelled(s) && KeepsLabels(s, a)
    requires a.SetsRoutes? || a.SetsKillSwitch? || a.SetsPorts? || a.EditsRules?
    ensures Labelled(Step(s, a))
  {
    hide Edit, Labelled;
    var c := s.tunnel.client.settings;
    match a
    case SetsRoutes(r, p) => EditKeeps(s, s.settings.(routes := r), c.(routes := r), p);
    case SetsKillSwitch(v, p) => EditKeeps(s, s.settings.(killSwitch := v), c.(killSwitch := v), p);
    case SetsPorts(v, p) => EditKeeps(s, s.settings.(portsFromConfig := v), c.(portsFromConfig := v), p);
    case EditsRules(p) => EditKeeps(s, s.settings, c.(routes := s.settings.routes), p);
  }

  lemma ConfigStepKeeps(s: State, a: Action)
    requires Inv(s) && Labelled(s) && KeepsLabels(s, a) && (a.Selects? || a.Removes? || a.Saves?)
    ensures Labelled(Step(s, a))
  {
    hide Adopt, DisconnectVpn, NewestIs;
    match a
    case Selects(i, p) => if 0 <= i < |s.paths| { AdoptKeeps(s, s.paths[i], p); }
    case Removes(i, p) => DisconnectKeeps(s, p);
    case Saves(path, renames, p) => if path != "" { AdoptKeeps(s.(paths := Listed(s, path, renames)), path, p); }
  }

  lemma StepKeeps(s: State, a: Action)
    requires Inv(s) && Labelled(s) && KeepsLabels(s, a)
    ensures Labelled(Step(s, a))
  {
    hide ConnectVpn, DisconnectVpn, ReconnectActiveConfig, ReadFinished, OnHelper, FirePendingReconnect, Edit, SelectConfig,
      RemoveConfig, SaveConfig;
    match a
    case Toggles(p) => if Busy(s.tunnel) { DisconnectKeeps(s, p); } else { ConnectKeeps(s); }
    case Connects => ConnectKeeps(s);
    case Disconnects(p) => DisconnectKeeps(s, p);
    case AutoConnects => if s.autoConnectArmed { ConnectKeeps(s.(autoConnectArmed := false)); }
    case RebuildsForSubscription(p) =>
      if s.activePath != "" { ReconnectKeeps(s, p); } else { NothingToReconnect(s, p); }
    case FinishesRead(i, e, sp) => ReadFinishedKeeps(s, i, e, sp);
    case Helper(e) => HelperKeeps(s.tunnel, e);
    case RunsHop => if s.tunnel.hops > 0 { FireKeeps(s.(tunnel := s.tunnel.(hops := s.tunnel.hops - 1))); }
    case RunsNet(g) => FireKeeps(s.(nets := s.nets - multiset{g}));
    case Selects(_, _) => ConfigStepKeeps(s, a);
    case Removes(_, _) => ConfigStepKeeps(s, a);
    case Saves(_, _, _) => ConfigStepKeeps(s, a);
    case Quits =>
    case _ => EditStepKeeps(s, a);
  }

  // ---------- what it says of every run ----------

  lemma {:induction false} RunKeeps(s: State, actions: seq<Action>)
    requires Inv(s) && Labelled(s) && AllKeepLabels(s, actions)
    ensures Inv(Run(s, actions)) && Labelled(Run(s, actions))
    decreases |actions|
  {
    hide Inv, Labelled, Step, KeepsLabels;
    if actions != [] {
      StepKeepsInv(s, actions[0]);
      StepKeeps(s, actions[0]);
      RunKeeps(Step(s, actions[0]), actions[1..]);
    }
  }

  lemma StartIsLabelled(s: State)
    requires Start(s)
    ensures Inv(s) && Labelled(s)
  {
  }

  /** Whenever Backend waits for a credential read, the newest read is of the config that is
      active now. */
  lemma AwaitedReadIsOfTheActiveConfig(s: State, actions: seq<Action>)
    requires Start(s) && AllKeepLabels(s, actions)
    ensures var r := Run(s, actions);
      r.tunnel.awaitingToml ==> exists i :: 0 <= i < |r.inFlight| && r.inFlight[i] == Read(r.connectGen, r.activePath)
  {
    StartIsLabelled(s);
    RunKeeps(s, actions);
    var r := Run(s, actions);
    if r.tunnel.awaitingToml {
      var i :| 0 <= i < |r.inFlight| && r.inFlight[i].generation == r.connectGen;
      assert r.inFlight[i] == Read(r.connectGen, r.activePath);
    }
  }

  /** So every connect handed to the client was built from the config active at that moment. */
  lemma HandedIsTheActiveConfig(s: State, actions: seq<Action>, a: Action)
    requires Start(s) && AllKeepLabels(s, actions)
    ensures var r := Run(s, actions);
      Step(r, a).handed != r.handed ==>
        a.FinishesRead? && Step(r, a).tunnel.client.loaded == r.activePath == Step(r, a).activePath
  {
    StartIsLabelled(s);
    RunKeeps(s, actions);
    var r := Run(s, actions);
    match a
    case FinishesRead(i, e, sp) =>
      hide Labelled, Inv;
      ReadFinishedKeeps(r, i, e, sp);
    case _ =>
  }

  // ---------- exactly what goes wrong otherwise ----------

  /** The read awaited, if one is, is of the active config. */
  ghost predicate RightlyAwaited(s: State) {
    s.tunnel.awaitingToml ==> NewestIs(s.inFlight, s.connectGen, s.activePath)
  }

  /** The active config changes where the read that is awaited is not started again: nothing looks
      busy, or a teardown is outstanding as well. */
  predicate PicksUnread(s: State, a: Action) {
    && s.tunnel.awaitingToml && Step(s, a).activePath != s.activePath
    && (!Busy(s.tunnel) || if a.Removes? then s.activePath == "" else s.tunnel.pendingReconnect)
  }

  lemma BuildIsRight(s: State)
    requires DistinctUpTo(s.inFlight, s.connectGen)
    ensures RightlyAwaited(BuildToml(s))
  {
  }

  lemma ReconnectIsRight(s: State, prompt: Prompt)
    requires Inv(s) && (RightlyAwaited(s) || (s.activePath != "" && !s.tunnel.pendingReconnect))
    ensures RightlyAwaited(ReconnectActiveConfig(s, prompt))
    ensures ReconnectActiveConfig(s, prompt).activePath == s.activePath
  {
    hide ClientDisconnect;
    BuildIsRight(s);
  }

  lemma FireIsRight(s: State)
    requires DistinctUpTo(s.inFlight, s.connectGen) && RightlyAwaited(s)
    ensures RightlyAwaited(FirePendingReconnect(s)) && FirePendingReconnect(s).activePath == s.activePath
  {
  }

  lemma FinishedIsRight(s: State, i: nat, empty: bool, spawns: bool)
    requires Inv(s) && RightlyAwaited(s)
    ensures RightlyAwaited(ReadFinished(s, i, empty, spawns)) && ReadFinished(s, i, empty, spawns).activePath == s.activePath
  {
    hide ClientConnect;
  }

  lemma AdoptIsRightIff(s: State, path: string, prompt: Prompt)
    requires Inv(s) && RightlyAwaited(s) && path != ""
    ensures RightlyAwaited(Adopt(s, path, prompt)) <==>
      !(s.tunnel.awaitingToml && path != s.activePath && (!Busy(s.tunnel) || s.tunnel.pendingReconnect))
  {
    hide ReconnectActiveConfig;
    var s1 := s.(activePath := path);
    if s.tunnel.awaitingToml {
      var i :| 0 <= i < |s.inFlight| && s.inFlight[i].generation == s.connectGen;
    }
    if Busy(s.tunnel) {
      if s.tunnel.pendingReconnect { ReconnectWaits(s1, prompt); } else { ReconnectIsRight(s1, prompt); }
    }
  }

  lemma ReconnectWaits(s: State, prompt: Prompt)
    requires s.tunnel.pendingReconnect
    ensures ReconnectActiveConfig(s, prompt) == s
  {
  }

  lemma AdoptedIsActive(s: State, path: string, prompt: Prompt)
    ensures Adopt(s, path, prompt).activePath == path
  {
  }

  lemma RemoveIsRightIff(s: State, i: int, prompt: Prompt)
    requires Inv(s) && RightlyAwaited(s) && "" !in s.paths
    ensures RightlyAwaited(RemoveConfig(s, i, prompt)) <==>
      !(s.tunnel.awaitingToml && RemoveConfig(s, i, prompt).activePath != s.activePath
        && (!Busy(s.tunnel) || s.activePath == ""))
  {
    hide ClientDisconnect;
    if s.tunnel.awaitingToml {
      var k :| 0 <= k < |s.inFlight| && s.inFlight[k].generation == s.connectGen;
    }
  }

  /** With no contract at all: a step leaves the read that is awaited wrong just when it is such a
      change. */
  lemma RightlyAwaitedIff(s: State, a: Action)
    requires Inv(s) && RightlyAwaited(s) && "" !in s.paths
    ensures RightlyAwaited(Step(s, a)) <==> !PicksUnread(s, a)
  {
    hide ConnectVpn, DisconnectVpn, ReconnectActiveConfig, ReadFinished, OnHelper, FirePendingReconnect, Adopt, RemoveConfig,
      RightlyAwaited, Inv;
    match a
    case Selects(i, p) =>
      if 0 <= i < |s.paths| && s.paths[i] != s.activePath {
        AdoptIsRightIff(s, s.paths[i], p);
        AdoptedIsActive(s, s.paths[i], p);
      }
    case Saves(path, renames, p) =>
      if path != "" {
        var s1 := s.(paths := Listed(s, path, renames));
        SameReads(s, s1);
        AdoptIsRightIff(s1, path, p);
        AdoptedIsActive(s1, path, p);
      }
    case Removes(i, p) => RemoveIsRightIff(s, i, p);
    case _ => OtherStepsAreRight(s, a);
  }

  lemma SameReads(s: State, r: State)
    requires Inv(s) && RightlyAwaited(s)
    requires r.tunnel.awaitingToml == s.tunnel.awaitingToml && r.tunnel.pendingReconnect == s.tunnel.pendingReconnect
    requires r.tunnel.reapplying == s.tunnel.reapplying && r.inFlight == s.inFlight && r.connectGen == s.connectGen
    requires r.activePath == s.activePath && r.nets == s.nets && r.handed == s.handed && r.reconnectGen == s.reconnectGen
    ensures Inv(r) && RightlyAwaited(r)
  {
  }

  lemma EditIsRight(s: State, kept: SessionSettings, pushed: SessionSettings, prompt: Prompt)
    requires Inv(s) && RightlyAwaited(s)
    ensures RightlyAwaited(Edit(s, kept, pushed, prompt)) && Edit(s, kept, pushed, prompt).activePath == s.activePath
  {
    hide ReconnectActiveConfig;
    var s1 := s.(settings := kept, tunnel := s.tunnel.(client := s.tunnel.client.(settings := pushed)));
    SameReads(s, s1);
    ReconnectIsRight(s1, prompt);
  }

  lemma EditStepIsRight(s: State, a: Action)
    requires Inv(s) && RightlyAwaited(s) && (a.SetsRoutes? || a.SetsKillSwitch? || a.SetsPorts? || a.EditsRules?)
    ensures RightlyAwaited(Step(s, a)) && Step(s, a).activePath == s.activePath
  {
    hide Edit, Inv, RightlyAwaited;
    var c := s.tunnel.client.settings;
    match a
    case SetsRoutes(r, p) => EditIsRight(s, s.settings.(routes := r), c.(routes := r), p);
    case SetsKillSwitch(v, p) => EditIsRight(s, s.settings.(killSwitch := v), c.(killSwitch := v), p);
    case SetsPorts(v, p) => EditIsRight(s, s.settings.(portsFromConfig := v), c.(portsFromConfig := v), p);
    case EditsRules(p) => EditIsRight(s, s.settings, c.(routes := s.settings.routes), p);
  }

  lemma AskedIsRight(s: State, a: Action)
    requires Inv(s) && RightlyAwaited(s) && (a.Toggles? || a.Connects? || a.Disconnects? || a.AutoConnects?)
    ensures RightlyAwaited(Step(s, a)) && Step(s, a).activePath == s.activePath
  {
    hide ClientDisconnect;
  }

  lemma OtherStepsAreRight(s: State, a: Action)
    requires Inv(s) && RightlyAwaited(s) && !a.Selects? && !a.Saves? && !a.Removes?
    ensures RightlyAwaited(Step(s, a)) && Step(s, a).activePath == s.activePath
  {
    hide ReconnectActiveConfig, ReadFinished, OnHelper, FirePendingReconnect, Edit, ConnectVpn, DisconnectVpn;
    match a
    case FinishesRead(i, e, sp) => FinishedIsRight(s, i, e, sp);
    case RunsHop => if s.tunnel.hops > 0 { FireIsRight(s.(tunnel := s.tunnel.(hops := s.tunnel.hops - 1))); }
    case RunsNet(g) => FireIsRight(s.(nets := s.nets - multiset{g}));
    case RebuildsForSubscription(p) => ReconnectIsRight(s, p);
    case SetsRoutes(_, _) => EditStepIsRight(s, a);
    case SetsKillSwitch(_, _) => EditStepIsRight(s, a);
    case SetsPorts(_, _) => EditStepIsRight(s, a);
    case EditsRules(_) => EditStepIsRight(s, a);
    case Toggles(_) => AskedIsRight(s, a);
    case Connects => AskedIsRight(s, a);
    case Disconnects(_) => AskedIsRight(s, a);
    case AutoConnects => AskedIsRight(s, a);
    case _ =>
  }

  /** Some read in flight, finishing now, is handed over with another config active. */
  ghost predicate HandsAnother(s: State) {
    exists i :: 0 <= i < |s.inFlight| && ReadFinished(s, i, false, true).handed != s.handed
                && ReadFinished(s, i, false, true).tunnel.client.loaded != s.activePath
  }

  /** In every state the contract allows, a connect asked for, then another config picked, hand
      over a read of the wrong one if and only if the connect came in the gap. */
  lemma ConnectThenPickIff(s: State, j: nat, prompt: Prompt)
    requires Inv(s) && Labelled(s) && s.activePath != "" && j < |s.paths| && s.paths[j] != s.activePath
    ensures HandsAnother(SelectConfig(ConnectVpn(s), j, prompt)) <==> Gap(s.tunnel)
  {
    var c := ConnectVpn(s);
    var p := SelectConfig(c, j, prompt);
    if Gap(s.tunnel) {
      var n := |s.inFlight|;
      assert c.inFlight == s.inFlight + [Read(s.connectGen + 1, s.activePath)];
      assert p.inFlight[n] == Read(p.connectGen, s.activePath) && p.activePath == s.paths[j];
      assert ReadFinished(p, n, false, true).tunnel.client.loaded == s.activePath;
    } else {
      ConnectKeeps(s);
      ConnectKeepsInv(s);
      SelectKeepsInv(c, j, prompt);
      AdoptKeeps(c, s.paths[j], prompt);
      forall i | 0 <= i < |p.inFlight| && ReadFinished(p, i, false, true).handed != p.handed
        ensures ReadFinished(p, i, false, true).tunnel.client.loaded == p.activePath
      {
        ReadFinishedKeeps(p, i, false, true);
      }
    }
  }
}
