/** Runs of the connect protocol that go wrong, each where one clause of the contract is dropped,
    or where no clause would help. */
module ConnectRuns {
  import opened Text
  import opened ConnectProtocol
  import opened ConnectContract
  import opened ConnectTheorems

  const TWO := Initial(["a", "b"], "a", NO_SETTINGS, false)

  const SESSION_A := Session("a", NO_SETTINGS)

  /** A helper that is ready and has been handed the connect to "a". */
  const READY_A := State(
    Tunnel(false, true, false, false, false, false, 0,
           Client(Up, true, false, false, Disconnected, "a", NO_SETTINGS, Some(SESSION_A), [SESSION_A],
                  false, false, false)),
    false, false, 1, 0, ["a", "b"], "a", NO_SETTINGS, [], multiset{}, [1])

  lemma ReadyAIsReached()
    ensures Run(TWO, [Connects, FinishesRead(0, false, true), Helper(DialDone), Helper(Ready)]) == READY_A
  {
  }

  lemma RunOfFour(s: State, a: Action, b: Action, c: Action, d: Action)
    ensures Run(s, [a, b, c, d]) == Step(Step(Step(Step(s, a), b), c), d)
  {
    assert [a, b, c, d][1..] == [b, c, d] && [b, c, d][1..] == [c, d] && [c, d][1..] == [d] && [d][1..] == [];
    assert Run(Step(s, a), [b, c, d]) == Run(Step(Step(s, a), b), [c, d]);
    assert Run(Step(Step(s, a), b), [c, d]) == Run(Step(Step(Step(s, a), b), c), [d]);
  }

  lemma HopStartsTheRead(s: State)
    requires s.tunnel.pendingReconnect && s.tunnel.hops == 0 && s.activePath != "" && s.inFlight == [] && !s.quitting
    requires s.tunnel.client.helperReady && !s.tunnel.client.state.Disconnected?
    ensures var t := Step(Step(s, Helper(Reports(Disconnected))), RunsHop);
      && t.inFlight == [Read(s.connectGen + 1, s.activePath)] && t.connectGen == s.connectGen + 1 && t.handed == s.handed
      && t.tunnel.awaitingToml && !t.quitting
  {
  }

  lemma ReadIsHanded(s: State, path: string)
    requires s.inFlight == [Read(s.connectGen, path)] && s.tunnel.awaitingToml && !s.quitting
    ensures Step(s, FinishesRead(0, false, true)).handed == s.handed + [s.connectGen]
  {
  }

  /** Another config picked, its teardown landed and its hop run. */
  lemma SwitchLands(s: State)
    requires s.tunnel.pendingReconnect && s.tunnel.hops == 0 && s.activePath != "" && s.inFlight == [] && !s.quitting
    requires s.tunnel.client.helperReady && !s.tunnel.client.state.Disconnected?
    ensures Run(s, [Helper(Reports(Disconnected)), RunsHop, FinishesRead(0, false, true), Helper(Ready)]).handed
            == s.handed + [s.connectGen + 1]
  {
    hide Run, Step;
    RunOfFour(s, Helper(Reports(Disconnected)), RunsHop, FinishesRead(0, false, true), Helper(Ready));
    HopStartsTheRead(s);
    var t := Step(Step(s, Helper(Reports(Disconnected))), RunsHop);
    ReadIsHanded(t, s.activePath);
    OnlyReadsHand(Step(t, FinishesRead(0, false, true)), Helper(Ready));
  }

  lemma OnlyReadsHand(s: State, a: Action)
    requires !a.FinishesRead?
    ensures Step(s, a).handed == s.handed
  {
  }

  /** The client tells a ready helper to disconnect and returns; the report comes later.
      Picking another config in between starts a session after the disconnect. */
  lemma DisconnectThenSelectReconnects()
    ensures var d := Step(Step(READY_A, Helper(Reports(Connected))), Disconnects(None));
      Run(Step(d, Selects(1, None)),
          [Helper(Reports(Disconnected)), RunsHop, FinishesRead(0, false, true), Helper(Ready)]).handed
      == d.handed + [3]
  {
    var d := Step(Step(READY_A, Helper(Reports(Connected))), Disconnects(None));
    assert d.tunnel.connected && d.connectGen == 2;
    SwitchLands(Step(d, Selects(1, None)));
  }

  /** A switch made while the first connect is still coming up clears "Connecting" before
      the helper reports the teardown. A disconnect asked for in that moment is ignored,
      and the switch connects. */
  lemma DisconnectDuringSwitchIsIgnored()
    ensures var w := Step(Step(READY_A, Helper(Reports(Connecting))), Selects(1, None));
      && Step(w, Disconnects(None)) == w
      && Run(w, [Helper(Reports(Disconnected)), RunsHop, FinishesRead(0, false, true), Helper(Ready)]).handed
         == w.handed + [2]
  {
    var w := Step(Step(READY_A, Helper(Reports(Connecting))), Selects(1, None));
    assert w.tunnel.pendingReconnect && !Busy(w.tunnel) && w.connectGen == 1;
    SwitchLands(w);
  }

  lemma EmptyReadLeavesPending()
    ensures var s := Run(TWO, [Connects, FinishesRead(0, false, true), Selects(1, None), FinishesRead(0, true, true)]);
      && s.tunnel.client.connectPending && s.tunnel.client.loaded == "a" && s.tunnel.client.settings == NO_SETTINGS
      && s.tunnel.client.link.Dialing? && !s.tunnel.client.helperReady && !Busy(s.tunnel) && !TearingDown(s.tunnel)
      && s.activePath == "b"
  {
    RunOfFour(TWO, Connects, FinishesRead(0, false, true), Selects(1, None), FinishesRead(0, true, true));
    hide Run;
    var s1 := Step(TWO, Connects);
    assert s1.inFlight == [Read(1, "a")];
    var s2 := Step(s1, FinishesRead(0, false, true));
    assert s2.inFlight == [] && s2.tunnel.client.connectPending && s2.tunnel.client.loaded == "a";
    var s3 := Step(s2, Selects(1, None));
    assert s3.inFlight == [Read(2, "b")] && s3.connectGen == 2;
  }

  /** While the helper starts for "a", "b" is picked and has no password: the error is
      shown, and the connect to "a" still goes out, under the label of "b". */
  lemma EmptyReadLeavesTheOldConnect()
    ensures var s := Run(TWO, [Connects, FinishesRead(0, false, true), Selects(1, None), FinishesRead(0, true, true)]);
      var t := Step(Step(s, Helper(DialDone)), Helper(Ready));
      && t.activePath == "b" && !t.tunnel.awaitingToml && !t.tunnel.pendingReconnect
      && t.tunnel.client.builtWith == Some(SESSION_A)
  {
    EmptyReadLeavesPending();
    hide Run;
  }

  /** And a disconnect in that state is ignored: the connect to "a" goes out after it. */
  lemma EmptyReadThenDisconnectConnects()
    ensures var s := Run(TWO, [Connects, FinishesRead(0, false, true), Selects(1, None), FinishesRead(0, true, true)]);
      var d := Step(s, Disconnects(None));
      Step(Step(d, Helper(DialDone)), Helper(Ready)).tunnel.client.sent == d.tunnel.client.sent + [SESSION_A]
  {
    EmptyReadLeavesPending();
    hide Run;
  }

  /** Clause (iii) dropped: a session that ended in an error reports Connected after all, once
      a disconnect found nothing to do. Another config picked then starts a session. */
  lemma LateReportReconnects()
    ensures var e := Step(READY_A, Helper(Reports(Error)));
      var d := Step(e, Disconnects(None));
      var w := Step(Step(d, Helper(Reports(Connected))), Selects(1, Some(Disconnecting)));
      && d.tunnel == e.tunnel
      && Run(w, [Helper(Reports(Disconnected)), RunsHop, FinishesRead(0, false, true), Helper(Ready)]).handed
         == d.handed + [2]
  {
    var e := Step(READY_A, Helper(Reports(Error)));
    assert !Busy(e.tunnel) && e.tunnel.client.state.Error? && e.connectGen == 1;
    var l := Step(Step(e, Disconnects(None)), Helper(Reports(Connected)));
    assert l.tunnel.connected && l.connectGen == 1 && l.inFlight == [];
    SwitchLands(Step(l, Selects(1, Some(Disconnecting))));
  }

  /** Clause (ii) dropped: an Error reported while a read is out leaves the read waiting and
      nothing that looks busy, so the next pick does not start it again. The read of "b"
      is handed to the client with "a" active. */
  lemma ErrorDuringReadMislabels()
    ensures var s := Run(TWO, [Connects, FinishesRead(0, false, true), Selects(1, None), Helper(DialDone)]);
      var e := Step(Step(s, Helper(Ready)), Helper(Reports(Error)));
      var t := Step(Step(e, Selects(0, None)), FinishesRead(0, false, true));
      t.activePath == "a" && t.tunnel.client.loaded == "b" && t.handed == [1, 2]
  {
    RunOfFour(TWO, Connects, FinishesRead(0, false, true), Selects(1, None), Helper(DialDone));
    var s1 := Step(TWO, Connects);
    assert s1.inFlight == [Read(1, "a")];
    var s2 := Step(s1, FinishesRead(0, false, true));
    assert s2.inFlight == [] && s2.tunnel.client.connectPending && s2.tunnel.client.loaded == "a";
    var s4 := Step(Step(s2, Selects(1, None)), Helper(DialDone));
    assert s4.inFlight == [Read(2, "b")] && s4.connectGen == 2 && s4.handed == [1];
    assert s4.tunnel.client.link.Up? && s4.tunnel.awaitingToml;
    ReadyThenError(s4.tunnel);
    ReadUnderAnotherLabel(Step(Step(s4, Helper(Ready)), Helper(Reports(Error))));
  }

  lemma ReadyThenError(t: Tunnel)
    requires t.awaitingToml && t.client.link.Up? && !t.client.helperReady && t.client.state.Disconnected?
    ensures var u := OnHelper(OnHelper(t, Ready), Reports(Error));
      !Busy(u) && u.awaitingToml && u.client.helperReady
  {
  }

  lemma ReadUnderAnotherLabel(s: State)
    requires s.inFlight == [Read(s.connectGen, "b")] && s.activePath == "b" && s.paths == ["a", "b"]
    requires !Busy(s.tunnel)
    ensures var t := Step(Step(s, Selects(0, None)), FinishesRead(0, false, true));
      t.activePath == "a" && t.tunnel.client.loaded == "b" && t.handed == s.handed + [s.connectGen]
  {
  }

  /** A connect asked for in the gap, then the config picked that was active before. */
  lemma GapThenPick(w: State)
    requires Gap(w.tunnel) && w.tunnel.client.helperReady && w.inFlight == [] && w.activePath == "b" && w.paths == ["a", "b"]
    ensures var p := Step(Step(w, Connects), Selects(0, None));
      && p.activePath == "a" && p.inFlight == [Read(w.connectGen + 1, "b")] && p.connectGen == w.connectGen + 1
      && p.handed == w.handed && p.tunnel.client == w.tunnel.client && p.settings == w.settings
  {
    hide ClientDisconnect;
  }

  lemma ReadGoesOut(s: State)
    requires s.inFlight == [Read(s.connectGen, "b")] && s.tunnel.client.helperReady
    ensures var t := Step(s, FinishesRead(0, false, true));
      && t.activePath == s.activePath && t.tunnel.client.loaded == "b" && t.handed == s.handed + [s.connectGen]
      && t.tunnel.client.sent == s.tunnel.client.sent + [Session("b", s.settings)]
  {
  }

  /** A connect asked for while a switch waits for its teardown starts a read of its own, which a
      further pick does not start again: the read of "b" is handed over with "a" active. */
  lemma ConnectInTheGapMislabels()
    ensures var w := Step(Step(READY_A, Helper(Reports(Connecting))), Selects(1, None));
      var p := Step(Step(w, Connects), Selects(0, None));
      var t := Step(p, FinishesRead(0, false, true));
      && t.activePath == "a" && t.tunnel.client.loaded == "b" && t.handed == [1, 2]
      && t.tunnel.client.sent == [SESSION_A, Session("b", NO_SETTINGS)]
  {
    var w := Step(Step(READY_A, Helper(Reports(Connecting))), Selects(1, None));
    assert Gap(w.tunnel) && w.tunnel.client.helperReady && w.connectGen == 1 && w.inFlight == [] && w.handed == [1];
    assert w.activePath == "b" && w.paths == ["a", "b"] && w.settings == NO_SETTINGS && w.tunnel.client.sent == [SESSION_A];
    hide Step, Gap;
    GapThenPick(w);
    ReadGoesOut(Step(Step(w, Connects), Selects(0, None)));
  }

  /** A disconnect ends the client's record of the session while the tunnel still shows as up, so
      an edit to the rules finds it without one, and restarts it. */
  lemma RuleEditAfterDisconnectReconnects()
    ensures var d := Step(Step(READY_A, Helper(Reports(Connected))), Disconnects(None));
      Run(Step(d, EditsRules(None)),
          [Helper(Reports(Disconnected)), RunsHop, FinishesRead(0, false, true), Helper(Ready)]).handed
      == d.handed + [3]
  {
    var d := Step(Step(READY_A, Helper(Reports(Connected))), Disconnects(None));
    assert d.tunnel.connected && d.connectGen == 2;
    SwitchLands(Step(d, EditsRules(None)));
  }

  lemma RetryIsSent()
    ensures var e := Step(READY_A, Helper(Reports(Error)));
      var r := Step(Step(e, Connects), FinishesRead(0, false, true));
      && r.tunnel.connecting && CommandOut(r.tunnel) && r.tunnel.client.state.Error? && !r.tunnel.client.seen
      && !TearingDown(r.tunnel) && !r.tunnel.reapplying && r.tunnel.client.helperReady && !r.tunnel.connected
      && r.activePath == "a" && r.paths == ["a", "b"] && r.tunnel.client.builtWith == Some(SESSION_A)
  {
    var e := Step(READY_A, Helper(Reports(Error)));
    assert !Busy(e.tunnel) && e.tunnel.client.over && e.connectGen == 1 && e.inFlight == [] && e.settings == NO_SETTINGS;
    var c := Step(e, Connects);
    assert c.inFlight == [Read(2, "a")] && c.connectGen == 2;
  }

  /** A helper whose core is in Error answers the next connect with Disconnected and Connecting.
      The contract allows it, and the session is not over for it. */
  lemma RetryAfterAnErrorIsAllowed()
    ensures var e := Step(READY_A, Helper(Reports(Error)));
      var r := Step(Step(e, Connects), FinishesRead(0, false, true));
      var down := Step(r, Helper(Reports(Disconnected)));
      && Honours(r, Helper(Reports(Disconnected))) && Honours(down, Helper(Reports(Connecting)))
      && CommandOut(down.tunnel) && !Busy(down.tunnel)
      && Busy(Step(down, Helper(Reports(Connecting))).tunnel)
  {
    RetryIsSent();
    hide Step;
    RetryReports(Step(Step(Step(READY_A, Helper(Reports(Error))), Connects), FinishesRead(0, false, true)));
  }

  lemma RetryReports(r: State)
    requires CommandOut(r.tunnel) && r.tunnel.client.state.Error? && !r.tunnel.client.seen && !TearingDown(r.tunnel)
    requires !r.tunnel.reapplying && r.tunnel.client.helperReady && r.tunnel.connecting
    ensures var down := Step(r, Helper(Reports(Disconnected)));
      && Honours(r, Helper(Reports(Disconnected))) && Honours(down, Helper(Reports(Connecting)))
      && down == r.(tunnel := down.tunnel) && CommandOut(down.tunnel) && !Busy(down.tunnel) && !TearingDown(down.tunnel)
      && down.tunnel.client.helperReady && down.tunnel.client.builtWith == r.tunnel.client.builtWith
      && down.tunnel.client.state.Disconnected?
      && Busy(Step(down, Helper(Reports(Connecting))).tunnel)
  {
  }

  lemma PickedThenUp(d: State)
    requires !Busy(d.tunnel) && !TearingDown(d.tunnel) && d.activePath == "a" && d.paths == ["a", "b"]
    requires d.tunnel.client.helperReady && d.tunnel.client.state.Disconnected?
    ensures var p := Step(d, Selects(1, None));
      var t := Step(Step(p, Helper(Reports(Connecting))), Helper(Reports(Connected)));
      && t.tunnel.connected && t.activePath == "b" && t.tunnel.client.builtWith == d.tunnel.client.builtWith
      && !TearingDown(t.tunnel)
  {
    assert Step(d, Selects(1, None)) == d.(activePath := "b");
  }

  /** A config picked between those two reports, with nothing that looks busy, rebuilds nothing:
      the session to "a" comes up under the label of "b". */
  lemma PickDuringRetryMislabels()
    ensures var e := Step(READY_A, Helper(Reports(Error)));
      var r := Step(Step(e, Connects), FinishesRead(0, false, true));
      var p := Step(Step(r, Helper(Reports(Disconnected))), Selects(1, None));
      var t := Step(Step(p, Helper(Reports(Connecting))), Helper(Reports(Connected)));
      && t.tunnel.connected && t.activePath == "b" && t.tunnel.client.builtWith == Some(SESSION_A)
      && !TearingDown(t.tunnel)
  {
    RetryIsSent();
    hide Step;
    var r := Step(Step(Step(READY_A, Helper(Reports(Error))), Connects), FinishesRead(0, false, true));
    RetryReports(r);
    PickedThenUp(Step(r, Helper(Reports(Disconnected))));
  }

  /** A session that comes up after all once a disconnect found it on its way: another config
      picked then starts one. */
  lemma ReportAfterDisconnectReconnects()
    ensures var d := Step(READY_A, Disconnects(None));
      var w := Step(Step(d, Helper(Reports(Connected))), Selects(1, None));
      && StopsAll(READY_A.tunnel, None)
      && Run(w, [Helper(Reports(Disconnected)), RunsHop, FinishesRead(0, false, true), Helper(Ready)]).handed
         == d.handed + [3]
  {
    var d := Step(READY_A, Disconnects(None));
    assert !Busy(d.tunnel) && d.connectGen == 2 && d.tunnel.client.state.Disconnected?;
    var l := Step(d, Helper(Reports(Connected)));
    assert l.tunnel.connected && l.connectGen == 2 && l.inFlight == [];
    SwitchLands(Step(l, Selects(1, None)));
  }
}
