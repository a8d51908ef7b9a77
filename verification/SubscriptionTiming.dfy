/** When configs are refreshed by themselves: never twice within ten minutes, and never once
    automatic refresh is off. */
module SubscriptionTiming {
  import opened Text
  import opened SubscriptionControl
  import opened SubscriptionSteps

  // ---------- spacing ----------

  /** When the last fetch for the config started, as far as its path has named it. */
  function LastStart(log: seq<Event>, path: string): Option<int>
    decreases |log|
  {
    if log == [] then None
    else
      var e, before := log[|log| - 1], log[..|log| - 1];
      if e.Started? && e.path == path then Some(e.at)
      else if e.Renamed? && e.to == path then None
      else LastStart(before, path)
  }

  /** Fetches are in the log in the order of the times they started at. */
  ghost predicate Ordered(log: seq<Event>) {
    forall i, k :: 0 <= i < k < |log| && log[i].Started? && log[k].Started? ==> log[i].at <= log[k].at
  }

  /** No fetch started later than this. */
  ghost predicate StartedBy(log: seq<Event>, now: int) {
    && Ordered(log) && (forall i :: 0 <= i < |log| && log[i].Started? ==> log[i].at <= now)
    && (forall p :: LastStart(log, p).Some? ==> LastStart(log, p).value <= now)
  }

  /** The last fetch has been counted as an attempt, or still runs, or what it gave is being
      applied. */
  predicate Counted(w: World, path: string) {
    match LastStart(w.log, path)
    case None => true
    case Some(t) =>
      path in w.ctl.records ==> t <= w.ctl.records[path].lastAttemptAt || path in w.fetching || path in w.ctl.busy
  }

  predicate IsAutomatic(e: Event) { e.Started? && !e.manual }

  /** An automatic fetch starts a check or more after any other fetch for that config. */
  predicate SpacedAt(log: seq<Event>, i: nat)
    requires i < |log| && IsAutomatic(log[i])
  {
    var t := LastStart(log[..i], log[i].path);
    t.Some? ==> log[i].at - t.value >= CHECK_SECONDS
  }

  ghost predicate Spaced(log: seq<Event>) {
    forall i :: 0 <= i < |log| && IsAutomatic(log[i]) ==> SpacedAt(log, i)
  }

  ghost predicate Timed(w: World) {
    StartedBy(w.log, w.now) && (forall p :: Counted(w, p)) && Spaced(w.log)
  }

  lemma OneMore(log: seq<Event>, e: Event)
    ensures (log + [e])[..|log|] == log
  {
  }

  lemma SpacedGrows(log: seq<Event>, e: Event)
    requires Spaced(log)
    requires IsAutomatic(e) ==> LastStart(log, e.path).Some? ==> e.at - LastStart(log, e.path).value >= CHECK_SECONDS
    ensures Spaced(log + [e])
  {
    hide LastStart;
    var more := log + [e];
    forall i | 0 <= i < |more| && IsAutomatic(more[i]) ensures SpacedAt(more, i) {
      assert more[..i] == log[..i];
      if i == |log| { assert log[..i] == log; } else { assert SpacedAt(log, i); }
    }
  }

  /** An event that starts no fetch. */
  lemma OtherEvent(log: seq<Event>, e: Event, now: int)
    requires !e.Started? && StartedBy(log, now) && Spaced(log)
    ensures StartedBy(log + [e], now) && Spaced(log + [e])
    ensures forall p :: LastStart(log + [e], p) == LastStart(log, p) || LastStart(log + [e], p).None?
    ensures e.Renamed? ==> LastStart(log + [e], e.to).None?
  {
    OneMore(log, e);
    SpacedGrows(log, e);
  }

  /** What a step leaves of one config, that it did not start a fetch for. */
  predicate StillCounted(w: World, v: World, p: string) {
    p in v.ctl.records ==>
      || (p in w.ctl.records && v.ctl.records[p].lastAttemptAt >= w.ctl.records[p].lastAttemptAt
          && (p in w.fetching ==> p in v.fetching || p in v.ctl.busy)
          && (p in w.ctl.busy ==> p in v.ctl.busy))
      || v.ctl.records[p].lastAttemptAt == w.now
  }

  lemma CountedStays(w: World, v: World, p: string)
    requires Counted(w, p) && StillCounted(w, v, p) && StartedBy(w.log, w.now)
    requires LastStart(v.log, p) == LastStart(w.log, p) || LastStart(v.log, p).None?
    ensures Counted(v, p)
  {
  }

  /** No event, or one that starts no fetch. */
  ghost predicate AtMostOne(before: seq<Event>, after: seq<Event>) {
    after == before
    || (|after| == |before| + 1 && after == before + [after[|before|]] && !after[|before|].Started?)
  }

  /** A step that starts no fetch. */
  lemma QuietStep(w: World, v: World)
    requires Timed(w) && v.now == w.now
    requires AtMostOne(w.log, v.log)
    requires forall p :: StillCounted(w, v, p)
    ensures Timed(v)
  {
    hide StillCounted, Counted, StartedBy, Spaced, LastStart;
    if v.log != w.log { OtherEvent(w.log, v.log[|w.log|], w.now); }
    forall p ensures Counted(v, p) {
      assert StillCounted(w, v, p) && Counted(w, p);
      CountedStays(w, v, p);
    }
  }

  lemma StartedKeepsTimed(w: World, path: string, manual: bool)
    requires Timed(w) && (manual || Due(w, path))
    ensures Timed(Note(w.(fetching := w.fetching[path := manual]), Started(path, w.now, manual)))
  {
    var e := Started(path, w.now, manual);
    var v := Note(w.(fetching := w.fetching[path := manual]), e);
    OneMore(w.log, e);
    assert Counted(w, path);
    SpacedGrows(w.log, e);
    assert StartedBy(v.log, v.now) && Spaced(v.log);
    forall p ensures Counted(v, p) { assert Counted(w, p); }
  }

  lemma StartKeepsTimed(w: World, path: string, manual: bool, unlocked: bool, clock: Clock)
    requires Timed(w) && clock.now == w.now && (manual || Due(w, path))
    ensures Timed(StartRefresh(w, path, manual, unlocked, clock))
  {
    hide Timed, Due, RefreshInterval;
    var v := StartRefresh(w, path, manual, unlocked, clock);
    if v.log == w.log { QuietStep(w, v); } else { StartedKeepsTimed(w, path, manual); }
  }

  /** An attempt for one config, counted now; the others' records stay. */
  predicate CountsNow(c: Controller, d: Controller, path: string, now: int) {
    && d.busy == c.busy && d.records.Keys == c.records.Keys
    && (forall p :: p in c.records && p != path ==> d.records[p] == c.records[p])
    && (path in c.records ==> d.records[path].lastAttemptAt == now)
  }

  /** Each way an update ends counts as an attempt now. */
  lemma SettledCounts(c: Controller, path: string, u: Update, verdict: Verdict, clock: Clock)
    requires path in c.records && verdict != NotLinked
    ensures CountsNow(c, Settled(c, path, u, verdict, clock), path, clock.now)
  {
  }

  lemma AppliedCounts(w: World, path: string, u: Update, check: Check, identity: string -> string, clock: Clock)
    requires path in w.ctl.records
    ensures var v := Applied(w, path, u, check, identity, clock);
      v.now == w.now && v.fetching == w.fetching && CountsNow(w.ctl, v.ctl, path, clock.now)
  {
    hide CountsNow, Settled, EventOf;
    SettledCounts(w.ctl, path, u, VerdictOn(w, path, u, check, identity), clock);
  }

  lemma AppliedStartsNothing(w: World, path: string, u: Update, check: Check, identity: string -> string, clock: Clock)
    ensures AtMostOne(w.log, Applied(w, path, u, check, identity, clock).log)
  {
    hide VerdictOn, Settled;
  }

  lemma NothingToCount(w: World, path: string, u: Update, check: Check, identity: string -> string, clock: Clock)
    requires path !in w.ctl.records
    ensures Applied(w, path, u, check, identity, clock) == w
  {
  }

  lemma EndKeepsTimed(w: World, path: string, check: Check, identity: string -> string, clock: Clock)
    requires Timed(w) && clock.now == w.now
    ensures Timed(EndApplying(w, path, check, identity, clock))
  {
    hide Applied, Timed;
    if path in w.applying {
      var ended := w.(ctl := SetBusy(w.ctl, path, false), applying := w.applying - {path});
      if path in w.ctl.records {
        AppliedCounts(ended, path, w.applying[path], check, identity, clock);
        AppliedStartsNothing(ended, path, w.applying[path], check, identity, clock);
      } else {
        NothingToCount(ended, path, w.applying[path], check, identity, clock);
      }
      QuietStep(w, EndApplying(w, path, check, identity, clock));
    }
  }

  lemma BeginKeepsTimed(w: World, path: string, u: Update, clock: Clock)
    requires Timed(w)
    ensures Timed(BeginApply(w, path, u, clock))
  {
    hide Timed;
    QuietStep(w, BeginApply(w, path, u, clock));
  }

  /** A document that comes while another is being applied is not counted itself, but the one
      being applied will be. */
  lemma ArrivedKeepsTimed(w: World, path: string, reply: Reply, clock: Clock)
    requires Timed(w) && clock.now == w.now
    ensures Timed(ArrivedReply(w, path, reply, clock))
  {
    hide Timed, RefreshInterval;
    QuietStep(w, ArrivedReply(w, path, reply, clock));
  }

  lemma AnsweredKeepsTimed(w: World, path: string, accept: bool, enabled: bool, unlocked: bool, clock: Clock)
    requires Timed(w) && clock.now == w.now
    ensures Timed(Answered(w, path, accept, enabled, unlocked, clock))
  {
    hide Timed, StartRefresh;
    if AwaitsAnswer(w.ctl, path) {
      var host := w.ctl.records[path].heldHostname;
      var told := WithCtl(w, AnswerHostname(w.ctl, path, accept));
      QuietStep(w, Note(told, if accept then Accepted(path, host) else Refused(path)));
      if accept && path !in w.ctl.held && enabled {
        StartKeepsTimed(Note(told, Accepted(path, host)), path, true, unlocked, clock);
      }
    }
  }

  lemma ForgettingKeepsTimed(w: World, path: string)
    requires Timed(w)
    ensures Timed(Forgetting(w, path))
  {
    hide Timed;
    var v := Forgetting(w, path);
    assert v.ctl.records == w.ctl.records - {path};
    QuietStep(w, v);
  }

  lemma MovingKeepsTimed(w: World, from: string, to: string)
    requires Timed(w)
    ensures Timed(Moving(w, from, to))
  {
    var v := Moving(w, from, to);
    if v != w {
      OtherEvent(w.log, Renamed(from, to), w.now);
      hide LastStart, StartedBy, Spaced;
      forall p ensures Counted(v, p) {
        assert Counted(w, p);
        if p != to { CountedStays(w, v, p); }
      }
    }
  }

  lemma LinkedIsCounted(sourceId: string, outcome: Outcome, clock: Clock)
    ensures LinkedRecord(sourceId, outcome, clock).lastAttemptAt == clock.now
  {
  }

  lemma LinkingKeepsTimed(w: World, path: string, sourceId: string, outcome: Outcome, clock: Clock)
    requires Timed(w) && clock.now == w.now
    ensures Timed(Note(WithCtl(w, Link(w.ctl, path, sourceId, outcome, true, clock)), Linked(path)))
  {
    hide Timed, LinkedRecord;
    LinkedIsCounted(sourceId, outcome, clock);
    QuietStep(w, Note(WithCtl(w, Link(w.ctl, path, sourceId, outcome, true, clock)), Linked(path)));
  }

  lemma ConfirmedKeepsTimed(w: World, i: Import, clock: Clock)
    requires Timed(w) && clock.now == w.now
    ensures Timed(Confirmed(w, i, clock))
  {
    hide Timed, Link, Forgetting;
    var kept := WithCtl(w, StoreAddress(w.ctl, i.sourceId, i.url, i.stored));
    QuietStep(w, kept);
    ForgettingKeepsTimed(kept, i.path);
    var forgot := if i.replacing then Forgetting(kept, i.path) else kept;
    SameClock(kept, i.path);
    var config := forgot.(hosts := w.hosts[i.path := i.host]);
    QuietStep(forgot, config);
    LinkingKeepsTimed(config, i.path, i.sourceId, i.outcome, clock);
    UnsavedLinkIsNone(config.ctl, i.path, i.sourceId, i.outcome, clock);
    QuietStep(kept, WithCtl(kept, DeleteAddress(kept.ctl, i.sourceId)));
    QuietStep(config, WithCtl(config, DeleteAddress(config.ctl, i.sourceId)));
  }

  lemma SameClock(w: World, path: string)
    ensures Forgetting(w, path).now == w.now
  {
  }

  lemma WaitKeepsTimed(w: World, seconds: nat)
    requires Timed(w)
    ensures Timed(w.(now := w.now + seconds))
  {
    hide LastStart, Spaced;
    var v := w.(now := w.now + seconds);
    forall p ensures Counted(v, p) { assert Counted(w, p); }
  }

  lemma StepKeepsTimed(w: World, a: Action, jitter: int, identity: string -> string)
    requires Timed(w)
    ensures Timed(Step(w, a, jitter, identity))
  {
    hide Timed, Due, StartRefresh, ArrivedReply, EndApplying, BeginApply, Answered, Forgetting, Moving, Confirmed;
    var clock := Clock(w.now, jitter);
    match a
    case Tick(path, allowed, unlocked) =>
      if Due(w, path) { StartKeepsTimed(w, path, false, unlocked, clock); }
    case UserRefresh(path, unlocked) => StartKeepsTimed(w, path, true, unlocked, clock);
    case Arrived(path, reply) => ArrivedKeepsTimed(w, path, reply, clock);
    case EndApply(path, check) => EndKeepsTimed(w, path, check, identity, clock);
    case Flush(path, waits) =>
      if path in w.ctl.held { BeginKeepsTimed(w, path, w.ctl.held[path], clock); }
    case Answer(path, accept, enabled, unlocked) => AnsweredKeepsTimed(w, path, accept, enabled, unlocked, clock);
    case Confirm(i) => ConfirmedKeepsTimed(w, i, clock);
    case Remove(path) => ForgettingKeepsTimed(w, path);
    case Move(from, to) => MovingKeepsTimed(w, from, to);
    case Edit(path, host) => QuietStep(w, w.(hosts := w.hosts[path := host]));
    case Wait(seconds) => WaitKeepsTimed(w, seconds);
  }

  /** In every run an automatic fetch starts at least ten minutes after any earlier fetch for its
      config, but over a rename: through backoff, held updates, links and answers. */
  lemma {:induction false} EveryRunIsTimed(w: World, turns: seq<Turn>, identity: string -> string)
    requires Timed(w)
    ensures Timed(Run(w, turns, identity))
    decreases |turns|
  {
    hide Step, Timed;
    if turns != [] {
      StepKeepsTimed(w, turns[0].action, turns[0].jitter, identity);
      EveryRunIsTimed(Step(w, turns[0].action, turns[0].jitter, identity), turns[1..], identity);
    }
  }

  lemma InitialIsTimed(c: Controller, hosts: map<string, string>, now: int)
    ensures Timed(Initial(c, hosts, now))
  {
  }

  /** What that says of any two fetches: between an automatic one and an earlier one of the same
      config, with no rename to that path since, lie ten minutes. */
  lemma {:induction false} TenMinutesApart(w: World, i: nat, k: nat)
    requires Timed(w) && i < k < |w.log| && w.log[i].Started? && IsAutomatic(w.log[k]) && w.log[k].path == w.log[i].path
    requires forall j :: i < j < k ==> !(w.log[j].Renamed? && w.log[j].to == w.log[i].path)
    ensures w.log[k].at - w.log[i].at >= CHECK_SECONDS
  {
    assert SpacedAt(w.log, k);
    LastStartIsLater(w.log[..k], i);
  }

  lemma {:induction false} LastStartIsLater(log: seq<Event>, i: nat)
    requires Ordered(log) && i < |log| && log[i].Started?
    requires forall j :: i < j < |log| ==> !(log[j].Renamed? && log[j].to == log[i].path)
    ensures LastStart(log, log[i].path).Some? && LastStart(log, log[i].path).value >= log[i].at
    decreases |log|
  {
    if i < |log| - 1 {
      var before := log[..|log| - 1];
      assert forall j :: 0 <= j < |before| ==> before[j] == log[j];
      LastStartIsLater(before, i);
    }
  }

  // ---------- off ----------

  /** Nothing refreshes the config by itself. */
  predicate Off(w: World, path: string) { path in w.ctl.records ==> !w.ctl.records[path].autoRefresh }

  /** What may turn automatic refresh on: a new link, a link that moves here, a document the user
      asked for. */
  predicate MayTurnOn(w: World, a: Action, path: string) {
    match a
    case Confirm(i) => i.path == path
    case Move(_, to) => to == path
    case EndApply(p, _) => p == path && p in w.applying && w.applying[p].manual
    case _ => false
  }

  /** No automatic fetch for the config among what happened since. */
  ghost predicate NoneSince(log: seq<Event>, n: nat, path: string) {
    forall i :: n <= i < |log| ==> !(IsAutomatic(log[i]) && log[i].path == path)
  }

  /** Off stays off, and nothing was started by itself. */
  ghost predicate StaysOff(w: World, v: World, path: string) {
    && (Off(w, path) ==> Off(v, path)) && |v.log| >= |w.log| && v.log[..|w.log|] == w.log
    && (Off(w, path) ==> NoneSince(v.log, |w.log|, path))
  }

  lemma StartStaysOff(w: World, p: string, manual: bool, unlocked: bool, clock: Clock, path: string)
    requires manual || Due(w, p)
    ensures StaysOff(w, StartRefresh(w, p, manual, unlocked, clock), path)
  {
    hide RefreshInterval;
  }

  lemma ArrivedStaysOff(w: World, p: string, reply: Reply, clock: Clock, path: string)
    ensures StaysOff(w, ArrivedReply(w, p, reply, clock), path)
  {
    hide RefreshInterval;
  }

  lemma AppliedStaysOff(w: World, p: string, u: Update, check: Check, identity: string -> string, clock: Clock,
                        path: string)
    requires u.manual ==> p != path
    ensures StaysOff(w, Applied(w, p, u, check, identity, clock), path)
  {
  }

  lemma AnsweredStaysOff(w: World, p: string, accept: bool, enabled: bool, unlocked: bool, clock: Clock, path: string)
    ensures StaysOff(w, Answered(w, p, accept, enabled, unlocked, clock), path)
  {
  }

  lemma StaysOffTwice(w: World, v: World, x: World, path: string)
    requires StaysOff(w, v, path) && StaysOff(v, x, path)
    ensures StaysOff(w, x, path)
  {
  }

  lemma ConfirmedStaysOff(w: World, i: Import, clock: Clock, path: string)
    requires i.path != path
    ensures StaysOff(w, Confirmed(w, i, clock), path)
  {
    hide LinkedRecord, Shared;
  }

  lemma MovingStaysOff(w: World, from: string, to: string, path: string)
    requires to != path
    ensures StaysOff(w, Moving(w, from, to), path)
  {
  }

  lemma ForgettingStaysOff(w: World, p: string, path: string)
    ensures StaysOff(w, Forgetting(w, p), path)
  {
    hide Shared;
  }

  lemma StepStaysOff(w: World, a: Action, jitter: int, identity: string -> string, path: string)
    requires !MayTurnOn(w, a, path)
    ensures StaysOff(w, Step(w, a, jitter, identity), path)
  {
    hide StartRefresh, ArrivedReply, Applied, Answered, Confirmed, Moving, Forgetting, Due;
    var clock := Clock(w.now, jitter);
    match a
    case Tick(p, allowed, unlocked) =>
      if Due(w, p) { StartStaysOff(w, p, false, unlocked, clock, path); }
    case UserRefresh(p, unlocked) => StartStaysOff(w, p, true, unlocked, clock, path);
    case Arrived(p, reply) => ArrivedStaysOff(w, p, reply, clock, path);
    case EndApply(p, check) =>
      if p in w.applying {
        var ended := w.(ctl := SetBusy(w.ctl, p, false), applying := w.applying - {p});
        AppliedStaysOff(ended, p, w.applying[p], check, identity, clock, path);
      }
    case Flush(p, waits) =>
    case Answer(p, accept, enabled, unlocked) => AnsweredStaysOff(w, p, accept, enabled, unlocked, clock, path);
    case Confirm(i) => ConfirmedStaysOff(w, i, clock, path);
    case Remove(p) => ForgettingStaysOff(w, p, path);
    case Move(from, to) => MovingStaysOff(w, from, to, path);
    case Edit(p, host) =>
    case Wait(seconds) =>
  }

  ghost predicate NeverTurnedOn(w: World, turns: seq<Turn>, identity: string -> string, path: string)
    decreases |turns|
  {
    turns == [] ||
    (&& !MayTurnOn(w, turns[0].action, path)
     && NeverTurnedOn(Step(w, turns[0].action, turns[0].jitter, identity), turns[1..], identity, path))
  }

  /** Once automatic refresh is off, no automatic fetch of the config starts until a new link or
      a document of the user's own refresh turns it on. */
  lemma {:induction false} OffStaysOff(w: World, turns: seq<Turn>, identity: string -> string, path: string)
    requires Off(w, path) && NeverTurnedOn(w, turns, identity, path)
    ensures var v := Run(w, turns, identity); StaysOff(w, v, path)
    decreases |turns|
  {
    hide Step, Off, MayTurnOn;
    if turns == [] {
      assert w.log[..|w.log|] == w.log;
    } else {
      var next := Step(w, turns[0].action, turns[0].jitter, identity);
      StepStaysOff(w, turns[0].action, turns[0].jitter, identity, path);
      OffStaysOff(next, turns[1..], identity, path);
      StaysOffTwice(w, next, Run(next, turns[1..], identity), path);
    }
  }

  /** A refusal, and a failure only the user can fix, turn it off. */
  lemma TurnedOff(w: World, path: string, clock: Clock)
    requires path in w.ctl.records
    ensures Off(WithCtl(w, NoteFailure(w.ctl, path, ManualOnly, clock)), path)
    ensures AwaitsAnswer(w.ctl, path) ==> Off(WithCtl(w, AnswerHostname(w.ctl, path, false)), path)
  {
  }
}
