/** What every run of the connect protocol keeps, with no assumption on what the
    helper reports. */
module ConnectSafety {
  import opened Text
  import opened ConnectProtocol

  // ---------- generations ----------

  predicate HasRead(inFlight: seq<Read>, g: nat) {
    exists i :: 0 <= i < |inFlight| && inFlight[i].generation == g
  }

  ghost predicate DistinctUpTo(inFlight: seq<Read>, g: nat) {
    && (forall i :: 0 <= i < |inFlight| ==> inFlight[i].generation <= g)
    && (forall i, j :: 0 <= i < j < |inFlight| ==> inFlight[i].generation != inFlight[j].generation)
  }

  ghost predicate IncreasingBelow(handed: seq<nat>, bound: nat) {
    && (forall i :: 0 <= i < |handed| ==> handed[i] < bound)
    && (forall i, j :: 0 <= i < j < |handed| ==> handed[i] < handed[j])
  }

  ghost predicate Generations(awaiting: bool, connectGen: nat, inFlight: seq<Read>, handed: seq<nat>) {
    && DistinctUpTo(inFlight, connectGen)
    && (awaiting <==> HasRead(inFlight, connectGen))
    && IncreasingBelow(handed, if awaiting then connectGen else connectGen + 1)
  }

  /** No guard outlives what will clear it. */
  ghost predicate NoLatch(t: Tunnel, reconnectGen: nat, nets: multiset<nat>) {
    && (t.reapplying ==> t.pendingReconnect || t.awaitingToml)
    && (t.pendingReconnect ==> reconnectGen in nets)
    && (forall g :: g in nets ==> g <= reconnectGen)
  }

  ghost predicate Inv(s: State) {
    && Generations(s.tunnel.awaitingToml, s.connectGen, s.inFlight, s.handed)
    && NoLatch(s.tunnel, s.reconnectGen, s.nets)
  }

  lemma ReadRemoved(inFlight: seq<Read>, i: nat, g: nat)
    requires i < |inFlight| && DistinctUpTo(inFlight, g)
    ensures DistinctUpTo(WithoutRead(inFlight, i), g)
    ensures inFlight[i].generation == g ==> !HasRead(WithoutRead(inFlight, i), g)
    ensures inFlight[i].generation != g ==> (HasRead(WithoutRead(inFlight, i), g) <==> HasRead(inFlight, g))
  {
    var rest := WithoutRead(inFlight, i);
    assert forall k :: 0 <= k < |rest| ==> rest[k] == inFlight[if k < i then k else k + 1];
    if HasRead(inFlight, g) && inFlight[i].generation != g {
      var j :| 0 <= j < |inFlight| && inFlight[j].generation == g;
      assert rest[if j < i then j else j - 1].generation == g;
    }
  }

  lemma BuildKeepsInv(s: State)
    requires Inv(s)
    ensures Inv(BuildToml(s))
  {
    var t := BuildToml(s);
    assert t.inFlight[|s.inFlight|].generation == t.connectGen;
  }

  lemma ConnectKeepsInv(s: State)
    requires Inv(s)
    ensures Inv(ConnectVpn(s))
  {
    BuildKeepsInv(s.(tunnel := s.tunnel.(connecting := true)));
  }

  lemma DisconnectKeepsInv(s: State, prompt: Prompt)
    requires Inv(s)
    ensures Inv(DisconnectVpn(s, prompt))
  {
  }

  lemma ReconnectKeepsInv(s: State, prompt: Prompt)
    requires Inv(s)
    ensures Inv(ReconnectActiveConfig(s, prompt))
  {
    BuildKeepsInv(s);
  }

  lemma FireKeepsInv(s: State)
    requires Generations(s.tunnel.awaitingToml, s.connectGen, s.inFlight, s.handed)
    requires forall g :: g in s.nets ==> g <= s.reconnectGen
    requires s.tunnel.pendingReconnect || NoLatch(s.tunnel, s.reconnectGen, s.nets)
    ensures Inv(FirePendingReconnect(s))
  {
    if s.tunnel.pendingReconnect && !s.quitting && s.activePath != "" {
      var t := FirePendingReconnect(s);
      assert t.inFlight[|s.inFlight|].generation == t.connectGen;
    }
  }

  lemma ReadFinishedKeepsInv(s: State, i: nat, empty: bool, spawns: bool)
    requires Inv(s)
    ensures Inv(ReadFinished(s, i, empty, spawns))
  {
    if i < |s.inFlight| {
      ReadRemoved(s.inFlight, i, s.connectGen);
    }
  }

  /** A call into the client, or a report from it, touches nothing Inv speaks of. */
  lemma TunnelKeepsInv(s: State, u: Tunnel)
    requires Inv(s) && GuardsKept(s.tunnel, u)
    ensures Inv(s.(tunnel := u))
  {
  }

  lemma AdoptKeepsInv(s: State, path: string, prompt: Prompt)
    requires Inv(s)
    ensures Inv(Adopt(s, path, prompt))
  {
    ReconnectKeepsInv(s.(activePath := path), prompt);
  }

  lemma SaveKeepsInv(s: State, path: string, renames: bool, prompt: Prompt)
    requires Inv(s)
    ensures Inv(SaveConfig(s, path, renames, prompt))
  {
    AdoptKeepsInv(s.(paths := Listed(s, path, renames)), path, prompt);
  }

  lemma SelectKeepsInv(s: State, i: int, prompt: Prompt)
    requires Inv(s)
    ensures Inv(SelectConfig(s, i, prompt))
  {
    if 0 <= i < |s.paths| { AdoptKeepsInv(s, s.paths[i], prompt); }
  }

  lemma RemoveKeepsInv(s: State, i: int, prompt: Prompt)
    requires Inv(s)
    ensures Inv(RemoveConfig(s, i, prompt))
  {
  }

  lemma EditKeepsInv(s: State, kept: SessionSettings, pushed: SessionSettings, prompt: Prompt)
    requires Inv(s)
    ensures Inv(Edit(s, kept, pushed, prompt))
  {
  }

  lemma EditStepKeepsInv(s: State, a: Action)
    requires Inv(s) && (a.SetsRoutes? || a.SetsKillSwitch? || a.SetsPorts? || a.EditsRules?)
    ensures Inv(Step(s, a))
  {
    var c := s.tunnel.client.settings;
    match a
    case SetsRoutes(r, p) => EditKeepsInv(s, s.settings.(routes := r), c.(routes := r), p);
    case SetsKillSwitch(v, p) => EditKeepsInv(s, s.settings.(killSwitch := v), c.(killSwitch := v), p);
    case SetsPorts(v, p) => EditKeepsInv(s, s.settings.(portsFromConfig := v), c.(portsFromConfig := v), p);
    case EditsRules(p) => EditKeepsInv(s, s.settings, c.(routes := s.settings.routes), p);
  }

  lemma HopKeepsInv(s: State)
    requires Inv(s)
    ensures Inv(HopRuns(s))
  {
    if s.tunnel.hops > 0 {
      var s1 := s.(tunnel := s.tunnel.(hops := s.tunnel.hops - 1));
      assert NoLatch(s1.tunnel, s1.reconnectGen, s1.nets);
      FireKeepsInv(s1);
    }
  }

  lemma NetKeepsInv(s: State, g: nat)
    requires Inv(s)
    ensures Inv(NetRuns(s, g))
  {
    if g in s.nets {
      var s1 := s.(nets := s.nets - multiset{g});
      if g == s.reconnectGen { FireKeepsInv(s1); } else { assert NoLatch(s1.tunnel, s1.reconnectGen, s1.nets); }
    }
  }

  lemma OwnStepKeepsInv(s: State, a: Action)
    requires Inv(s) && (a.AutoConnects? || a.Helper? || a.Quits?)
    ensures Inv(Step(s, a))
  {
    match a
    case AutoConnects => ConnectKeepsInv(s.(autoConnectArmed := false));
    case Helper(e) => TunnelKeepsInv(s, OnHelper(s.tunnel, e));
    case Quits =>
  }

  lemma StepKeepsInv(s: State, a: Action)
    requires Inv(s)
    ensures Inv(Step(s, a))
  {
    hide Inv, OnHelper;
    match a
    case Toggles(p) => DisconnectKeepsInv(s, p); ConnectKeepsInv(s);
    case Connects => ConnectKeepsInv(s);
    case Disconnects(p) => DisconnectKeepsInv(s, p);
    case AutoConnects => OwnStepKeepsInv(s, a);
    case RebuildsForSubscription(p) => ReconnectKeepsInv(s, p);
    case FinishesRead(i, e, sp) => ReadFinishedKeepsInv(s, i, e, sp);
    case Helper(_) => OwnStepKeepsInv(s, a);
    case Quits => OwnStepKeepsInv(s, a);
    case Selects(i, p) => SelectKeepsInv(s, i, p);
    case Removes(i, p) => RemoveKeepsInv(s, i, p);
    case Saves(path, renames, p) => SaveKeepsInv(s, path, renames, p);
    case RunsHop => HopKeepsInv(s);
    case RunsNet(g) => NetKeepsInv(s, g);
    case _ => EditStepKeepsInv(s, a);
  }

  /** Over any run, whatever the helper reports, no guard latches. */
  lemma {:induction false} RunKeepsInv(s: State, actions: seq<Action>)
    requires Inv(s)
    ensures Inv(Run(s, actions))
    decreases |actions|
  {
    if actions != [] {
      StepKeepsInv(s, actions[0]);
      RunKeepsInv(Step(s, actions[0]), actions[1..]);
    }
  }

  lemma {:induction false} InitialHasInv(paths: seq<string>, active: string, settings: SessionSettings, auto: bool)
    ensures Inv(Initial(paths, active, settings, auto))
  {
  }

  /** From start-up on, the generations that reach the client only grow: a superseded
      read never starts a session after the one that superseded it. */
  lemma HandedGenerationsIncrease(paths: seq<string>, active: string, settings: SessionSettings, auto: bool,
                                  actions: seq<Action>, i: nat, j: nat)
    requires i < j < |Run(Initial(paths, active, settings, auto), actions).handed|
    ensures var handed := Run(Initial(paths, active, settings, auto), actions).handed;
      handed[i] < handed[j]
  {
    InitialHasInv(paths, active, settings, auto);
    RunKeepsInv(Initial(paths, active, settings, auto), actions);
  }

  /** The safety net of an older rebuild changes nothing but itself. */
  lemma StaleNetIsHarmless(s: State, g: nat)
    requires g != s.reconnectGen
    ensures NetRuns(s, g) == s.(nets := NetRuns(s, g).nets)
  {
  }

  /** Whatever state a run has reached, what is already outstanding is enough to clear
      every guard: the current safety net, then the current read. */
  lemma GuardsCanClear(s: State) returns (actions: seq<Action>)
    requires Inv(s)
    ensures |actions| <= 2
    ensures forall a :: a in actions ==> a.RunsNet? || a.FinishesRead?
    ensures FirstIsOutstanding(s, actions)
    ensures var t := Run(s, actions).tunnel; !t.reapplying && !t.pendingReconnect && !t.awaitingToml
  {
    hide Step, Generations;
    actions := [];
    var s1 := s;
    if s.tunnel.pendingReconnect {
      actions := [RunsNet(s.reconnectGen)];
      s1 := Step(s, actions[0]);
      StepKeepsInv(s, actions[0]);
      NetClears(s);
    }
    RunOfOne(s, RunsNet(s.reconnectGen));
    if s1.tunnel.awaitingToml {
      var i := ReadClears(s1);
      RunOfOne(s1, FinishesRead(i, true, true));
      RunOfTwo(s, RunsNet(s.reconnectGen), FinishesRead(i, true, true));
      actions := actions + [FinishesRead(i, true, true)];
    }
  }

  lemma RunOfOne(s: State, a: Action)
    ensures Run(s, [a]) == Step(s, a)
  {
    assert [a][1..] == [];
  }

  lemma RunOfTwo(s: State, a: Action, b: Action)
    ensures [a] + [b] == [a, b] && Run(s, [a, b]) == Step(Step(s, a), b)
  {
    RunOfOne(Step(s, a), b);
    assert [a, b][1..] == [b];
  }

  lemma NetClears(s: State)
    requires s.tunnel.pendingReconnect && s.reconnectGen in s.nets
    ensures !Step(s, RunsNet(s.reconnectGen)).tunnel.pendingReconnect
  {
  }

  lemma ReadClears(s: State) returns (i: nat)
    requires Inv(s) && s.tunnel.awaitingToml
    ensures i < |s.inFlight|
    ensures var t := Step(s, FinishesRead(i, true, true)).tunnel;
      !t.reapplying && !t.awaitingToml && t.pendingReconnect == s.tunnel.pendingReconnect
  {
    i :| 0 <= i < |s.inFlight| && s.inFlight[i].generation == s.connectGen;
  }

  /** A first step on a timer needs that timer, and a first step on a read that read. */
  ghost predicate FirstIsOutstanding(s: State, actions: seq<Action>) {
    actions != [] ==>
      && (actions[0].RunsNet? ==> actions[0].generation in s.nets)
      && (actions[0].FinishesRead? ==> actions[0].read < |s.inFlight|)
  }
}
