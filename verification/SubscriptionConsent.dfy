/** A refresh moves a config to another server only with the user's consent, given for that
    server and that config, and used once. */
module SubscriptionConsent {
  import opened Text
  import opened SubscriptionControl
  import opened SubscriptionSteps

  // ---------- consent, read off what happened ----------

  /** Whether the event ends what the user accepted for the config: an update applied or found
      to change nothing, another server held, the link gone. */
  predicate Ends(e: Event, path: string) {
    match e
    case Held(p, _) => p == path
    case Written(p, _, _) => p == path
    case Unchanged(p) => p == path
    case Forgot(p) => p == path
    case _ => false
  }

  /** Which acceptance stands for the config after what happened; a rename takes it along. */
  function Standing(log: seq<Event>, path: string): (r: Option<nat>)
    ensures r.Some? ==> r.value < |log| && log[r.value].Accepted?
    decreases |log|
  {
    if log == [] then None
    else
      var n := |log| - 1;
      var e, before := log[n], log[..n];
      if e.Accepted? && e.path == path then Some(n)
      else if Ends(e, path) then None
      else if e.Renamed? && path == e.from then None
      else if e.Renamed? && path == e.to && Standing(before, e.from).Some? then Standing(before, e.from)
      else Standing(before, path)
  }

  /** The controller remembers just the acceptances that stand. */
  ghost predicate Agrees(accepted: map<string, string>, log: seq<Event>) {
    forall p ::
      match Standing(log, p)
      case None => p !in accepted
      case Some(j) => p in accepted && log[j].host == accepted[p]
  }

  lemma OneMore(log: seq<Event>, e: Event)
    ensures (log + [e])[..|log|] == log
  {
  }

  lemma AgreesAside(accepted: map<string, string>, log: seq<Event>, e: Event)
    requires Agrees(accepted, log) && (e.Started? || e.Linked? || e.Refused?)
    ensures Agrees(accepted, log + [e])
  {
  }

  lemma AgreesEnded(accepted: map<string, string>, log: seq<Event>, e: Event, path: string)
    requires Agrees(accepted, log) && Ends(e, path)
    ensures Agrees(accepted - {path}, log + [e])
  {
  }

  lemma AgreesAccepted(accepted: map<string, string>, log: seq<Event>, path: string, host: string)
    requires Agrees(accepted, log)
    ensures Agrees(accepted[path := host], log + [Accepted(path, host)])
  {
  }

  lemma AgreesRenamed(accepted: map<string, string>, log: seq<Event>, from: string, to: string)
    requires Agrees(accepted, log) && from != to
    ensures Agrees(Moved(accepted, from, to), log + [Renamed(from, to)])
  {
  }

  // ---------- every write has its consent ----------

  predicate ChangesServer(e: Event, identity: string -> string) {
    e.Written? && !SameHost(identity, e.before, e.after)
  }

  /** The write has an acceptance that stands for its config and names its server. */
  predicate HasConsent(log: seq<Event>, i: nat, identity: string -> string)
    requires i < |log| && log[i].Written?
  {
    var j := Standing(log[..i], log[i].path);
    j.Some? && SameHost(identity, log[j.value].host, log[i].after)
  }

  ghost predicate Consented(log: seq<Event>, identity: string -> string) {
    forall i :: 0 <= i < |log| && ChangesServer(log[i], identity) ==> HasConsent(log, i, identity)
  }

  lemma ConsentedGrows(log: seq<Event>, e: Event, identity: string -> string)
    requires Consented(log, identity)
    requires ChangesServer(e, identity) ==>
      Standing(log, e.path).Some? && SameHost(identity, log[Standing(log, e.path).value].host, e.after)
    ensures Consented(log + [e], identity)
  {
    hide Standing;
    var more := log + [e];
    forall i | 0 <= i < |more| && ChangesServer(more[i], identity) ensures HasConsent(more, i, identity) {
      assert more[..i] == log[..i];
      if i == |log| {
        assert log[..i] == log;
      } else {
        assert HasConsent(log, i, identity);
      }
    }
  }

  ghost predicate Kept(w: World, identity: string -> string) {
    Agrees(w.ctl.accepted, w.log) && Consented(w.log, identity)
  }

  /** Nothing that concerns consent changed but an event aside. */
  ghost predicate Aside(w: World, v: World) {
    && v.ctl.accepted == w.ctl.accepted
    && (v.log == w.log || exists e :: v.log == w.log + [e] && (e.Started? || e.Linked? || e.Refused?))
  }

  lemma AsideKeeps(w: World, v: World, identity: string -> string)
    requires Kept(w, identity) && Aside(w, v)
    ensures Kept(v, identity)
  {
    hide Agrees, Consented;
    if v.log != w.log {
      var e :| v.log == w.log + [e] && (e.Started? || e.Linked? || e.Refused?);
      AgreesAside(w.ctl.accepted, w.log, e);
      ConsentedGrows(w.log, e, identity);
    }
  }

  lemma EndedKeeps(w: World, v: World, e: Event, path: string, identity: string -> string)
    requires Kept(w, identity) && Ends(e, path) && v.log == w.log + [e] && v.ctl.accepted == w.ctl.accepted - {path}
    requires ChangesServer(e, identity) ==> HostnameAccepted(w.ctl, e.path, e.after, identity)
    ensures Kept(v, identity)
  {
    AgreesEnded(w.ctl.accepted, w.log, e, path);
    ConsentedGrows(w.log, e, identity);
  }

  lemma StartIsAside(w: World, path: string, manual: bool, unlocked: bool, clock: Clock)
    ensures Aside(w, StartRefresh(w, path, manual, unlocked, clock))
  {
  }

  lemma AppliedKeeps(w: World, path: string, u: Update, check: Check, identity: string -> string, clock: Clock)
    requires Kept(w, identity)
    ensures Kept(Applied(w, path, u, check, identity, clock), identity)
  {
    hide Kept, MarkDocument, MarkFailure, Ends;
    var v := Applied(w, path, u, check, identity, clock);
    if v.log == w.log {
      AsideKeeps(w, v, identity);
    } else {
      var e := v.log[|w.log|];
      EndsOfApplied(w, path, u, check, identity, clock);
      EndedKeeps(w, v, e, path, identity);
    }
  }

  lemma EndsOfApplied(w: World, path: string, u: Update, check: Check, identity: string -> string, clock: Clock)
    ensures var v := Applied(w, path, u, check, identity, clock);
      v.log != w.log ==>
        && v.ctl.accepted == w.ctl.accepted - {path} && |v.log| == |w.log| + 1 && v.log == w.log + [v.log[|w.log|]]
        && var e := v.log[|w.log|];
          Ends(e, path) && (ChangesServer(e, identity) ==> HostnameAccepted(w.ctl, e.path, e.after, identity))
  {
    hide MarkDocument, MarkFailure;
  }

  lemma AnsweredKeeps(w: World, path: string, accept: bool, enabled: bool, unlocked: bool, clock: Clock,
                      identity: string -> string)
    requires Kept(w, identity)
    ensures Kept(Answered(w, path, accept, enabled, unlocked, clock), identity)
  {
    hide Agrees, Consented, StartRefresh, Aside;
    var v := Answered(w, path, accept, enabled, unlocked, clock);
    if AwaitsAnswer(w.ctl, path) {
      var told := WithCtl(w, AnswerHostname(w.ctl, path, accept));
      if !accept {
        AgreesAside(w.ctl.accepted, w.log, Refused(path));
        ConsentedGrows(w.log, Refused(path), identity);
      } else {
        var host := w.ctl.records[path].heldHostname;
        var noted := Note(told, Accepted(path, host));
        AgreesAccepted(w.ctl.accepted, w.log, path, host);
        ConsentedGrows(w.log, Accepted(path, host), identity);
        StartIsAside(noted, path, true, unlocked, clock);
        AsideKeeps(noted, StartRefresh(noted, path, true, unlocked, clock), identity);
      }
    }
  }

  lemma ForgettingKeeps(w: World, path: string, identity: string -> string)
    requires Kept(w, identity)
    ensures Kept(Forgetting(w, path), identity)
  {
    hide Kept;
    assert Forget(w.ctl, path).accepted == w.ctl.accepted - {path};
    EndedKeeps(w, Forgetting(w, path), Forgot(path), path, identity);
  }

  lemma MovingKeeps(w: World, from: string, to: string, identity: string -> string)
    requires Kept(w, identity)
    ensures Kept(Moving(w, from, to), identity)
  {
    hide Agrees, Consented, Moved;
    if from != to && from in w.ctl.records {
      AgreesRenamed(w.ctl.accepted, w.log, from, to);
      ConsentedGrows(w.log, Renamed(from, to), identity);
    }
  }

  lemma ConfirmedKeeps(w: World, i: Import, clock: Clock, identity: string -> string)
    requires Kept(w, identity)
    ensures Kept(Confirmed(w, i, clock), identity)
  {
    hide Kept, LinkedRecord, Forget;
    var kept := WithCtl(w, StoreAddress(w.ctl, i.sourceId, i.url, i.stored));
    AsideKeeps(w, kept, identity);
    ForgettingKeeps(kept, i.path, identity);
    var config := (if i.replacing then Forgetting(kept, i.path) else kept).(hosts := w.hosts[i.path := i.host]);
    AsideKeeps(if i.replacing then Forgetting(kept, i.path) else kept, config, identity);
    var v := Confirmed(w, i, clock);
    if !i.stored {
    } else if !i.written {
      AsideKeeps(w, v, identity);
    } else {
      if i.saved {
        assert v.log == config.log + [Linked(i.path)] && Linked(i.path).Linked?;
      }
      AsideKeeps(config, v, identity);
    }
  }

  lemma StepKeeps(w: World, a: Action, jitter: int, identity: string -> string)
    requires Kept(w, identity)
    ensures Kept(Step(w, a, jitter, identity), identity)
  {
    hide Kept, Due, StartRefresh, Applied, Answered, Forgetting, Moving, Confirmed, MarkFailure;
    var clock := Clock(w.now, jitter);
    match a
    case Tick(path, allowed, unlocked) =>
      StartIsAside(w, path, false, unlocked, clock);
      AsideKeeps(w, TickOne(w, path, allowed, unlocked, clock), identity);
    case UserRefresh(path, unlocked) =>
      StartIsAside(w, path, true, unlocked, clock);
      AsideKeeps(w, StartRefresh(w, path, true, unlocked, clock), identity);
    case Arrived(path, reply) => AsideKeeps(w, ArrivedReply(w, path, reply, clock), identity);
    case EndApply(path, check) =>
      if path in w.applying {
        var ended := w.(ctl := SetBusy(w.ctl, path, false), applying := w.applying - {path});
        AsideKeeps(w, ended, identity);
        AppliedKeeps(ended, path, w.applying[path], check, identity, clock);
      }
    case Flush(path, waits) => AsideKeeps(w, FlushOne(w, path, waits, clock), identity);
    case Answer(path, accept, enabled, unlocked) => AnsweredKeeps(w, path, accept, enabled, unlocked, clock, identity);
    case Confirm(i) => ConfirmedKeeps(w, i, clock, identity);
    case Remove(path) => ForgettingKeeps(w, path, identity);
    case Move(from, to) => MovingKeeps(w, from, to, identity);
    case Edit(path, host) => AsideKeeps(w, w.(hosts := w.hosts[path := host]), identity);
    case Wait(seconds) => AsideKeeps(w, w.(now := w.now + seconds), identity);
  }

  /** In every run, each write of a refresh that changes a config's server has an acceptance of
      that server that stands for that config. */
  lemma {:induction false} EveryWriteHasConsent(w: World, turns: seq<Turn>, identity: string -> string)
    requires Kept(w, identity)
    ensures Kept(Run(w, turns, identity), identity)
    decreases |turns|
  {
    hide Step, Kept;
    if turns != [] {
      StepKeeps(w, turns[0].action, turns[0].jitter, identity);
      EveryWriteHasConsent(Step(w, turns[0].action, turns[0].jitter, identity), turns[1..], identity);
    }
  }

  lemma InitialIsKept(c: Controller, hosts: map<string, string>, now: int, identity: string -> string)
    ensures Kept(Initial(c, hosts, now), identity)
  {
  }

  /** A refresh writes no server that is not in the log: the other steps that change a config's
      host are the user's own. */
  lemma RefreshWritesAreLogged(w: World, a: Action, jitter: int, identity: string -> string, path: string)
    requires !a.Edit? && !a.Confirm? && !a.Move?
    ensures var v := Step(w, a, jitter, identity);
      HostOf(v, path) != HostOf(w, path) ==> v.log == w.log + [Written(path, HostOf(w, path), HostOf(v, path))]
  {
    hide MarkFailure, MarkDocument, Due;
  }

  // ---------- one acceptance, one write ----------

  /** No two configs share an acceptance. */
  lemma {:induction false} StandsForOne(log: seq<Event>, p: string, q: string)
    requires p != q && Standing(log, p).Some?
    ensures Standing(log, q) != Standing(log, p)
    decreases |log|
  {
    var n := |log| - 1;
    var e, before := log[n], log[..n];
    if !(e.Accepted? && (e.path == p || e.path == q)) && !Ends(e, p) && !Ends(e, q) {
      if e.Renamed? && (p == e.to || q == e.to) {
        if p == e.to && Standing(before, e.from).Some? {
          if e.from != q { StandsForOne(before, e.from, q); }
        } else if q == e.to && Standing(before, e.from).Some? {
          if e.from != p { StandsForOne(before, p, e.from); }
        } else {
          StandsForOne(before, p, q);
        }
      } else {
        StandsForOne(before, p, q);
      }
    }
  }

  /** An acceptance no config has any more is not had again. */
  lemma {:induction false} StaysGone(log: seq<Event>, k: nat, j: nat)
    requires j < k <= |log| && forall p :: Standing(log[..k], p) != Some(j)
    ensures forall p :: Standing(log, p) != Some(j)
    decreases |log|
  {
    if k < |log| {
      var before := log[..|log| - 1];
      assert before[..k] == log[..k];
      StaysGone(before, k, j);
    } else {
      assert log[..k] == log;
    }
  }

  /** An acceptance is used up by the write it was for: no later write, of any config, has it. */
  lemma ConsentIsUsedOnce(log: seq<Event>, i: nat, k: nat)
    requires i < k < |log| && log[i].Written? && log[k].Written? && Standing(log[..i], log[i].path).Some?
    ensures Standing(log[..k], log[k].path) != Standing(log[..i], log[i].path)
  {
    var j := Standing(log[..i], log[i].path).value;
    var used := log[..i + 1];
    assert used[..i] == log[..i] && used[i] == log[i];
    forall p ensures Standing(used, p) != Some(j) {
      if p != log[i].path { StandsForOne(log[..i], log[i].path, p); }
    }
    assert log[..k][..i + 1] == used;
    StaysGone(log[..k], i + 1, j);
  }

  /** While no config is renamed, an acceptance that stands was given for that config, and since
      then no update was applied to it, no server was held for it, and its link stayed. */
  lemma {:induction false} StandingMeans(log: seq<Event>, path: string, j: nat)
    requires Standing(log, path) == Some(j) && forall k :: j < k < |log| ==> !log[k].Renamed?
    ensures log[j].path == path
    ensures forall k :: j < k < |log| ==> !Ends(log[k], path) && !(log[k].Accepted? && log[k].path == path)
    decreases |log|
  {
    var n := |log| - 1;
    if j < n {
      var before := log[..n];
      StandingMeans(before, path, j);
      assert forall k :: j < k < n ==> before[k] == log[k];
    } else {
      assert Standing(log[..n], path) != Some(n);
    }
  }
}
