/** The contract the results on the connect protocol rest on, clause by clause, as conditions on
    the steps of a run. Each result names the clauses it needs. */
module ConnectContract {
  import opened Text
  import opened ConnectProtocol

  predicate Busy(t: Tunnel) { t.connected || t.connecting }

  predicate TearingDown(t: Tunnel) { t.awaitingToml || t.pendingReconnect }

  /** A connect command is out that the helper has not said the end of. */
  predicate CommandOut(t: Tunnel) { t.client.builtWith.Some? && !t.client.over }

  /** A connect waits for a helper that is starting. */
  predicate Waiting(t: Tunnel) { t.client.connectPending && !t.client.link.Down? }

  // ---------- what a teardown that is outstanding may report ----------

  /** While a read or a switch's teardown is outstanding there is no Error and no Connected, and
      what goes down is the end of that teardown. */
  predicate ReportKeepsTeardown(t: Tunnel, st: Report) {
    t.client.helperReady && st != t.client.state && TearingDown(t) ==>
      !st.Error? && !st.Connected? && (GoingDown(st) ==> t.reapplying)
  }

  predicate EventKeepsTeardown(t: Tunnel, e: HelperEvent) {
    match e
    case Reports(st) => ReportKeepsTeardown(t, st)
    case SocketLost => t.client.link.Up? && !t.client.state.Disconnected? && TearingDown(t) ==> t.reapplying
    case Fails => (t.client.link.Down? && !t.client.handshake) || !TearingDown(t)
    case _ => true
  }

  /** A switch whose teardown the helper has not reported yet, with nothing that looks busy. */
  predicate Gap(t: Tunnel) { t.pendingReconnect && !t.connected && !t.connecting && !t.disconnecting }

  predicate Attempts(s: State, a: Action) { a.Connects? || a.Toggles? || (a.AutoConnects? && s.autoConnectArmed) }

  /** The clauses the labels need: the one on teardowns, and no connect asked for in the gap. */
  predicate KeepsLabels(s: State, a: Action) {
    (a.Helper? ==> EventKeepsTeardown(s.tunnel, a.event)) && !(Gap(s.tunnel) && Attempts(s, a))
  }

  // ---------- what a session may report ----------

  /** A session that has ended does not come back before the next connect. */
  predicate ReportKeepsEnd(t: Tunnel, st: Report) {
    t.client.helperReady && st != t.client.state && t.client.over ==> GoingDown(st) || st.Error?
  }

  /** A read that finds no password finds no connect to another config waiting for the helper,
      and no command out but for the active config, up or not heard of yet. */
  predicate EmptyReadOk(s: State, i: nat) {
    var t := s.tunnel;
    i < |s.inFlight| && s.inFlight[i].generation == s.connectGen ==>
      && (Waiting(t) ==> t.client.loaded == s.activePath)
      && (CommandOut(t) ==>
            t.client.builtWith == Some(Session(s.activePath, s.settings)) && (t.connected || !t.client.seen))
  }

  /** With a connect on its way and nothing that looks busy, no other config becomes the active
      one, and a session under way keeps its settings. */
  predicate ChoiceIsSeen(s: State, a: Action) {
    !Busy(s.tunnel) ==>
      && (CommandOut(s.tunnel) || Waiting(s.tunnel) ==> Step(s, a).activePath == s.activePath)
      && (CommandOut(s.tunnel) ==> Step(s, a).settings == s.settings)
  }

  predicate Honours(s: State, a: Action) {
    && KeepsLabels(s, a) && ChoiceIsSeen(s, a)
    && (a.Helper? && a.event.Reports? ==> ReportKeepsEnd(s.tunnel, a.event.report))
    && (a.FinishesRead? && a.empty ==> EmptyReadOk(s, a.read))
  }

  /** What is asked besides once the user disconnected: until the next connect the helper reports
      nothing but the end of the session. */
  predicate KeepsStop(t: Tunnel, a: Action) {
    a.Helper? && a.event.Reports? && t.client.helperReady && t.client.stopped && a.event.report != t.client.state ==>
      GoingDown(a.event.report)
  }

  // ---------- runs ----------

  ghost predicate AllKeepLabels(s: State, actions: seq<Action>)
    decreases |actions|
  {
    actions != [] ==> KeepsLabels(s, actions[0]) && AllKeepLabels(Step(s, actions[0]), actions[1..])
  }

  ghost predicate AllHonour(s: State, actions: seq<Action>)
    decreases |actions|
  {
    actions != [] ==> Honours(s, actions[0]) && AllHonour(Step(s, actions[0]), actions[1..])
  }

  predicate Asks(a: Action) { a.Connects? || a.Toggles? }

  /** A run under the contract in which the user asks for no connect. */
  ghost predicate Unasked(s: State, actions: seq<Action>)
    decreases |actions|
  {
    actions != [] ==>
      && Honours(s, actions[0]) && KeepsStop(s.tunnel, actions[0]) && !Asks(actions[0])
      && Unasked(Step(s, actions[0]), actions[1..])
  }

  /** Right after start-up, with configs that have paths. */
  ghost predicate Start(s: State) {
    exists paths: seq<string>, active: string, settings: SessionSettings, auto: bool ::
      s == Initial(paths, active, settings, auto) && "" !in paths
  }
}
