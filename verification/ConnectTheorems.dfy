/** The main results about the connect protocol: over every run that keeps the contract, exactly
    when each of them fails, and runs in which it does. */
module ConnectTheorems {
  import opened Text
  import opened ConnectProtocol
  import opened ConnectSafety
  import opened ConnectContract
  import opened ConnectLabels
  import opened ConnectSessions

  // ---------- sessions ----------

  /** A connect command that leaves for the helper carries the current settings and the
      active config, unless a newer read is already on its way to replace it. */
  lemma CommandsAreForTheActiveConfig(s: State, actions: seq<Action>, a: Action)
    requires Start(s) && AllHonour(s, actions)
    ensures var r := Run(s, actions); var t := Step(r, a);
      t.tunnel.client.sent != r.tunnel.client.sent ==>
        exists path :: && t.tunnel.client.sent == r.tunnel.client.sent + [Session(path, r.settings)]
                       && (path == t.activePath || t.tunnel.awaitingToml)
  {
    hide ReadFinished, OnHelper, Good, Inv, ConnectVpn, DisconnectVpn, ReconnectActiveConfig, FirePendingReconnect, Adopt,
      Edit;
    ReachedIsGood(s, actions);
    var r := Run(s, actions);
    match a
    case FinishesRead(i, empty, spawns) => ReadSends(r, i, empty, spawns);
    case Helper(e) => if e.Ready? { ReadySends(r); } else { OnlyReadsAndReadySend(r, a); }
    case _ => OnlyReadsAndReadySend(r, a);
  }

  lemma ReadSends(s: State, i: nat, empty: bool, spawns: bool)
    requires Inv(s) && Good(s)
    ensures var t := ReadFinished(s, i, empty, spawns);
      && t.activePath == s.activePath
      && (t.tunnel.client.sent == s.tunnel.client.sent
          || t.tunnel.client.sent == s.tunnel.client.sent + [Session(s.activePath, s.settings)])
  {
    hide ClientConnect;
  }

  lemma ReadySends(s: State)
    requires Good(s)
    ensures var u := OnHelper(s.tunnel, Ready);
      && u.awaitingToml == s.tunnel.awaitingToml
      && (u.client.sent == s.tunnel.client.sent
          || (u.client.sent == s.tunnel.client.sent + [Session(s.tunnel.client.loaded, s.settings)]
              && (s.tunnel.client.loaded == s.activePath || s.tunnel.awaitingToml)))
  {
  }

  lemma OnlyReadsAndReadySend(s: State, a: Action)
    requires !a.FinishesRead? && a != Helper(Ready)
    ensures StartsNothing(s, Step(s, a))
  {
  }

  /** No live session keeps what it was built with after the user changed it. One that was not
      told to stop, and that the helper has not said the end of or the window shows, is of the
      active config with the current excluded routes, kill switch and ports setting, or a
      rebuild is on its way; and once it has reported itself coming up the window shows it. */
  lemma NoStaleSession(s: State, actions: seq<Action>)
    requires Start(s) && AllHonour(s, actions)
    ensures var r := Run(s, actions); var t := r.tunnel;
      t.client.helperReady && !t.client.stopped && (Busy(t) || !t.client.over) ==>
        && (t.awaitingToml || t.pendingReconnect || t.client.builtWith == Some(Session(r.activePath, r.settings)))
        && (t.client.seen && !t.client.over ==> Busy(t))
  {
    ReachedIsGood(s, actions);
  }

  /** Exactly when a pick or an edit leaves such a session, or a connect that waits for the helper,
      with something else than the user chose: made while one is on its way and nothing looks busy. */
  lemma UnseenChoiceIff(s: State, a: Action)
    requires Inv(s) && Good(s)
    requires a.Selects? || a.Saves? || a.Removes? || a.SetsRoutes? || a.SetsKillSwitch? || a.SetsPorts? || a.EditsRules?
    ensures Fresh(Step(s, a)) <==> ChoiceIsSeen(s, a)
  {
    if ChoiceIsSeen(s, a) {
      StepKeepsGood(s, a);
    } else {
      UnseenChoice(s, a);
    }
  }

  lemma UnseenChoice(s: State, a: Action)
    requires Inv(s) && Good(s) && !ChoiceIsSeen(s, a)
    requires a.Selects? || a.Saves? || a.Removes? || a.SetsRoutes? || a.SetsKillSwitch? || a.SetsPorts? || a.EditsRules?
    ensures !Fresh(Step(s, a))
  {
    hide Step, Inv;
    UnseenStays(s);
    if a.Selects? || a.Saves? || a.Removes? { UnseenPick(s, a); } else { UnseenEdit(s, a); }
  }

  lemma UnseenStays(s: State)
    requires Inv(s) && Good(s) && !Busy(s.tunnel) && (CommandOut(s.tunnel) || Waiting(s.tunnel))
    ensures !TearingDown(s.tunnel)
  {
  }

  /** Nothing rebuilds what is on its way. */
  predicate LeftAlone(t: Tunnel, u: Tunnel) { u == t.(client := t.client.(settings := u.client.settings)) }

  lemma UnseenPick(s: State, a: Action)
    requires !Busy(s.tunnel) && (a.Selects? || a.Saves? || a.Removes?)
    ensures LeftAlone(s.tunnel, Step(s, a).tunnel)
  {
    hide ReconnectActiveConfig, DisconnectVpn, Listed, Without;
    match a
    case Selects(_, _) =>
    case Saves(_, _, _) =>
    case Removes(_, _) =>
  }

  lemma UnseenEdit(s: State, a: Action)
    requires !Busy(s.tunnel) && !TearingDown(s.tunnel)
    requires a.SetsRoutes? || a.SetsKillSwitch? || a.SetsPorts? || a.EditsRules?
    ensures LeftAlone(s.tunnel, Step(s, a).tunnel)
  {
    hide Edit;
    var c := s.tunnel.client.settings;
    match a
    case SetsRoutes(r, p) => EditLeavesAlone(s, s.settings.(routes := r), c.(routes := r), p);
    case SetsKillSwitch(v, p) => EditLeavesAlone(s, s.settings.(killSwitch := v), c.(killSwitch := v), p);
    case SetsPorts(v, p) => EditLeavesAlone(s, s.settings.(portsFromConfig := v), c.(portsFromConfig := v), p);
    case EditsRules(p) => EditLeavesAlone(s, s.settings, c.(routes := s.settings.routes), p);
  }

  lemma EditLeavesAlone(s: State, kept: SessionSettings, pushed: SessionSettings, prompt: Prompt)
    requires !Busy(s.tunnel) && !TearingDown(s.tunnel)
    ensures LeftAlone(s.tunnel, Edit(s, kept, pushed, prompt).tunnel)
  {
    hide ReconnectActiveConfig;
    NothingUp(s.(settings := kept, tunnel := s.tunnel.(client := s.tunnel.client.(settings := pushed))), prompt);
  }

  /** What an edit to anything a running session takes live changes: the client's settings. It
      starts no rebuild, if and only if no tunnel that was told to stop still shows as up or coming up. */
  lemma RuleEditsRebuildNothingIff(s: State, actions: seq<Action>, prompt: Prompt)
    requires Start(s) && AllHonour(s, actions)
    ensures var r := Run(s, actions); var t := r.tunnel;
      var e := Step(r, EditsRules(prompt));
      e == r.(tunnel := t.(client := t.client.(settings := e.tunnel.client.settings))) <==>
        !(t.client.helperReady && Busy(t) && t.client.builtWith.None? && !TearingDown(t) && r.activePath != "")
  {
    ReachedIsGood(s, actions);
    RuleEditIff(Run(s, actions), prompt);
  }

  lemma RuleEditIff(s: State, prompt: Prompt)
    requires Inv(s) && Good(s)
    ensures var t := s.tunnel;
      var e := Step(s, EditsRules(prompt));
      e == s.(tunnel := t.(client := t.client.(settings := e.tunnel.client.settings))) <==>
        !(t.client.helperReady && Busy(t) && t.client.builtWith.None? && !TearingDown(t) && s.activePath != "")
  {
    hide ClientDisconnect, BuildToml;
  }

  /** A read that finds no password leaves what goes out at the helper's next Ready right, if and
      only if no connect to another config waits for the helper. */
  lemma EmptyReadLeavesTheRightConnectIff(s: State, i: nat, spawns: bool)
    requires Inv(s) && Good(s) && i < |s.inFlight| && s.inFlight[i].generation == s.connectGen
    ensures var r := ReadFinished(s, i, true, spawns);
      var t := Step(Step(r, Helper(DialDone)), Helper(Ready));
      (t.tunnel.client.sent == r.tunnel.client.sent
       || t.tunnel.client.sent == r.tunnel.client.sent + [Session(t.activePath, t.settings)])
      <==> !Waiting(s.tunnel) || s.tunnel.client.loaded == s.activePath
  {
    var r := ReadFinished(s, i, true, spawns);
    var t := Step(Step(r, Helper(DialDone)), Helper(Ready));
    if Waiting(s.tunnel) {
      var n := |r.tunnel.client.sent|;
      assert t.tunnel.client.sent[n] == Session(s.tunnel.client.loaded, s.settings);
    }
  }

  /** And leaves the command that is out right and shown as well, if and only if its clause holds. */
  lemma EmptyReadKeepsGoodIff(s: State, i: nat, spawns: bool)
    requires Inv(s) && Good(s) && i < |s.inFlight|
    ensures Good(ReadFinished(s, i, true, spawns)) <==> EmptyReadOk(s, i)
  {
    if EmptyReadOk(s, i) { ReadFinishedKeepsGood(s, i, true, spawns); }
  }

  // ---------- after a disconnect ----------

  /** Nothing is up, on its way up, or waiting to be started. */
  ghost predicate Quiet(s: State) {
    && !Busy(s.tunnel) && !TearingDown(s.tunnel) && !s.autoConnectArmed && !s.tunnel.reapplying
    && !CommandOut(s.tunnel) && !Waiting(s.tunnel)
  }

  lemma HelperStaysQuiet(s: State, e: HelperEvent)
    requires Good(s) && Quiet(s) && Honours(s, Helper(e)) && KeepsStop(s.tunnel, Helper(e))
    ensures Quiet(Step(s, Helper(e))) && StartsNothing(s, Step(s, Helper(e)))
  {
    if e.Fails? && (!s.tunnel.client.link.Down? || s.tunnel.client.handshake) { FailsIsIdle(s.tunnel); }
  }

  lemma QuietStepStaysQuiet(s: State, a: Action)
    requires Inv(s) && Good(s) && Quiet(s) && Honours(s, a) && KeepsStop(s.tunnel, a) && !Asks(a)
    ensures Quiet(Step(s, a)) && StartsNothing(s, Step(s, a))
  {
    hide Step;
    if a.Helper? {
      HelperStaysQuiet(s, a.event);
    } else if a.FinishesRead? {
      StaleReadDoesNothing(s, a);
    } else {
      OnlyReadsAndReadySend(s, a);
      OtherStepStaysQuiet(s, a);
    }
  }

  lemma OtherStepStaysQuiet(s: State, a: Action)
    requires Inv(s) && Quiet(s) && !Asks(a) && !a.Helper? && !a.FinishesRead?
    ensures Quiet(Step(s, a))
  {
    hide ClientDisconnect, ClientConnect, BuildToml, Inv, Listed, Without;
    match a
    case Selects(_, _) =>
    case Removes(_, _) =>
    case Saves(_, _, _) =>
    case SetsRoutes(_, _) =>
    case SetsKillSwitch(_, _) =>
    case SetsPorts(_, _) =>
    case EditsRules(_) =>
    case RebuildsForSubscription(_) =>
    case _ =>
  }

  lemma StaleReadDoesNothing(s: State, a: Action)
    requires Inv(s) && Quiet(s) && a.FinishesRead?
    ensures Quiet(Step(s, a)) && StartsNothing(s, Step(s, a))
  {
    hide ClientDisconnect, ClientConnect, BuildToml;
    assert !HasRead(s.inFlight, s.connectGen);
  }

  lemma {:induction false} QuietRunStaysQuiet(s: State, actions: seq<Action>)
    requires Inv(s) && Good(s) && Quiet(s) && Unasked(s, actions)
    ensures Quiet(Run(s, actions)) && Run(s, actions).handed == s.handed
    ensures Run(s, actions).tunnel.client.sent == s.tunnel.client.sent
    decreases |actions|
  {
    hide Inv, Good, Quiet, Step, Honours, KeepsStop;
    if actions != [] {
      StepKeepsInv(s, actions[0]);
      StepKeepsGood(s, actions[0]);
      QuietStepStaysQuiet(s, actions[0]);
      QuietRunStaysQuiet(Step(s, actions[0]), actions[1..]);
    }
  }

  /** What a caller can see before a disconnect: a tunnel that shows as up is reported going down
      before the call returns; with nothing that looks busy, no switch waits for its teardown, no
      command is out and no connect waits for the helper. */
  predicate StopsAll(t: Tunnel, prompt: Prompt) {
    if Busy(t) then !(t.connected && prompt.None?)
    else !t.pendingReconnect && !CommandOut(t) && !Waiting(t)
  }

  lemma QuietAfterDisconnectIff(s: State, prompt: Prompt)
    requires Inv(s) && Good(s)
    ensures Quiet(DisconnectVpn(s, prompt)) <==> StopsAll(s.tunnel, prompt)
  {
    hide ClientDisconnect;
    if Busy(s.tunnel) {
      DisconnectKeepsGood(s, prompt);
      ShownAfterDisconnect(Cancelled(s.tunnel), prompt);
    }
  }

  lemma ShownAfterDisconnect(t: Tunnel, prompt: Prompt)
    requires ClientShape(t) && !t.connecting && !t.reapplying
    ensures Busy(ClientDisconnect(t, prompt)) <==> t.connected && prompt.None?
  {
  }

  /** No run in which the user asks for no connect hands anything over, or sends a command. */
  ghost predicate NothingStartsAfter(d: State) {
    forall after :: Unasked(d, after) ==>
      Run(d, after).handed == d.handed && Run(d, after).tunnel.client.sent == d.tunnel.client.sent
  }

  /** After a disconnect no session starts, and no connect command leaves, until the user asks for
      a connect, whatever else is picked, edited or reported: just when the disconnect stops all. */
  lemma NothingStartsAfterDisconnectIff(s: State, before: seq<Action>, prompt: Prompt)
    requires Start(s) && AllHonour(s, before) && !Run(s, before).quitting
    ensures NothingStartsAfter(DisconnectVpn(Run(s, before), prompt)) <==> StopsAll(Run(s, before).tunnel, prompt)
  {
    hide DisconnectVpn, Inv, Good, Quiet, StopsAll;
    var r := Run(s, before);
    var d := DisconnectVpn(r, prompt);
    ReachedIsGood(s, before);
    DisconnectKeepsInv(r, prompt);
    DisconnectKeepsGood(r, prompt);
    QuietAfterDisconnectIff(r, prompt);
    if StopsAll(r.tunnel, prompt) {
      forall after | Unasked(d, after)
        ensures Run(d, after).handed == d.handed && Run(d, after).tunnel.client.sent == d.tunnel.client.sent
      {
        QuietRunStaysQuiet(d, after);
      }
    } else {
      SomethingCanStart(r, prompt);
    }
  }

  // ---------- a run that starts something ----------

  ghost predicate Begins(s: State, r: State) {
    |r.handed| > |s.handed| || |r.tunnel.client.sent| > |s.tunnel.client.sent|
  }

  ghost predicate CanStart(s: State) {
    exists after :: Unasked(s, after) && Begins(s, Run(s, after))
  }

  predicate Free(s: State, a: Action) { Honours(s, a) && KeepsStop(s.tunnel, a) && !Asks(a) }

  lemma StepGrows(s: State, a: Action)
    ensures |Step(s, a).handed| >= |s.handed| && |Step(s, a).tunnel.client.sent| >= |s.tunnel.client.sent|
  {
    hide Step;
    match a
    case FinishesRead(i, empty, spawns) => FinishedGrows(s, i, empty, spawns);
    case Helper(e) => if e.Ready? { ReadyGrows(s); } else { OnlyReadsAndReadySend(s, a); }
    case _ => OnlyReadsAndReadySend(s, a);
  }

  lemma FinishedGrows(s: State, i: nat, empty: bool, spawns: bool)
    ensures var r := Step(s, FinishesRead(i, empty, spawns));
      |r.handed| >= |s.handed| && |r.tunnel.client.sent| >= |s.tunnel.client.sent|
  {
    hide ClientConnect;
  }

  lemma ReadyGrows(s: State)
    ensures var r := Step(s, Helper(Ready));
      |r.handed| >= |s.handed| && |r.tunnel.client.sent| >= |s.tunnel.client.sent|
  {
  }

  lemma CanStartBefore(s: State, a: Action)
    requires Free(s, a) && (CanStart(Step(s, a)) || Begins(s, Step(s, a)))
    ensures CanStart(s)
  {
    hide Honours, KeepsStop, Step;
    var next := Step(s, a);
    StepGrows(s, a);
    if Begins(s, next) {
      assert [a][1..] == [] && Unasked(next, []) && Run(next, []) == next;
      assert Unasked(s, [a]) && Begins(s, Run(s, [a]));
    } else {
      var rest :| Unasked(next, rest) && Begins(next, Run(next, rest));
      var all := [a] + rest;
      assert all[0] == a && all[1..] == rest;
      assert Unasked(s, all) && Begins(s, Run(s, all));
    }
  }

  lemma AwaitedCanStart(s: State)
    requires Inv(s) && s.inFlight != [] && s.inFlight[|s.inFlight| - 1].generation == s.connectGen
    ensures CanStart(s)
  {
    var a := FinishesRead(|s.inFlight| - 1, false, true);
    assert Begins(s, Step(s, a));
    CanStartBefore(s, a);
  }

  lemma FiredCanStart(s: State, a: Action)
    requires Inv(s) && s.tunnel.pendingReconnect && !s.quitting && s.activePath != ""
    requires (a == RunsNet(s.reconnectGen)) || (a == RunsHop && s.tunnel.hops > 0)
    ensures CanStart(s)
  {
    StepKeepsInv(s, a);
    AwaitedCanStart(Step(s, a));
    CanStartBefore(s, a);
  }

  /** A teardown that is under way, once its end is reported. */
  lemma SwitchCanStart(s: State)
    requires Inv(s) && s.tunnel.pendingReconnect && s.tunnel.reapplying && !s.quitting && s.activePath != ""
    requires s.tunnel.connected && s.tunnel.client.helperReady && s.tunnel.client.state.Connected?
    ensures CanStart(s)
  {
    var a := Helper(Reports(Disconnected));
    StepKeepsInv(s, a);
    FiredCanStart(Step(s, a), RunsHop);
    CanStartBefore(s, a);
  }

  /** A tunnel that shows as up when the disconnect returned: a config saved now rebuilds it. */
  lemma ShownCanStart(s: State)
    requires Inv(s) && ClientShape(s.tunnel) && s.tunnel.connected && !TearingDown(s.tunnel) && !s.quitting
    ensures CanStart(s)
  {
    var a := Saves("new", false, None);
    StepKeepsInv(s, a);
    SwitchCanStart(Step(s, a));
    CanStartBefore(s, a);
  }

  lemma GapCanStart(s: State)
    requires Inv(s) && Good(s) && s.tunnel.pendingReconnect && !Busy(s.tunnel) && !s.quitting
    ensures CanStart(s)
  {
    var a := Saves("new", false, None);
    StepKeepsInv(s, a);
    FiredCanStart(Step(s, a), RunsNet(s.reconnectGen));
    CanStartBefore(s, a);
  }

  lemma CommandCanStart(s: State)
    requires Inv(s) && Good(s) && CommandOut(s.tunnel) && !Busy(s.tunnel) && !s.tunnel.pendingReconnect && !s.quitting
    ensures CanStart(s)
  {
    var a := Helper(Reports(Connected));
    StepKeepsInv(s, a);
    StepKeepsGood(s, a);
    ShownCanStart(Step(s, a));
    CanStartBefore(s, a);
  }

  lemma WaitingCanStart(s: State)
    requires Inv(s) && Good(s) && Waiting(s.tunnel)
    ensures CanStart(s)
  {
    var next := Step(s, Helper(DialDone));
    assert Begins(next, Step(next, Helper(Ready)));
    CanStartBefore(next, Helper(Ready));
    CanStartBefore(s, Helper(DialDone));
  }

  lemma SomethingCanStart(s: State, prompt: Prompt)
    requires Inv(s) && Good(s) && !s.quitting && !StopsAll(s.tunnel, prompt)
    ensures CanStart(DisconnectVpn(s, prompt))
  {
    var d := DisconnectVpn(s, prompt);
    DisconnectKeepsInv(s, prompt);
    DisconnectKeepsGood(s, prompt);
    if Busy(s.tunnel) {
      ShownCanStart(d);
    } else if s.tunnel.pendingReconnect {
      GapCanStart(d);
    } else if CommandOut(s.tunnel) {
      CommandCanStart(d);
    } else {
      WaitingCanStart(d);
    }
  }
}
