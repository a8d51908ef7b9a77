/** What Backend does with the subscriptions: one step for each thing that can happen
    (BackendSubscriptions.cpp). */
module SubscriptionSteps {
  import opened Text
  import opened SubscriptionControl

  datatype Event =
    | Started(path: string, at: int, manual: bool)
    | Linked(path: string)
    | Forgot(path: string)
    | Renamed(from: string, to: string)
    | Held(path: string, host: string)
    | Accepted(path: string, host: string)
    | Refused(path: string)
    | Written(path: string, before: string, after: string)
    | Unchanged(path: string)

  /** The controller, the host each config's file names, the fetches in flight, the updates
      being applied, the time, and what has happened. */
  datatype World = World(ctl: Controller, hosts: map<string, string>, fetching: map<string, bool>,
                         applying: map<string, Update>, now: int, log: seq<Event>)

  datatype Reply = Document(host: string, hint: Option<int>) | NoDocument(policy: Policy)

  /** An import the user confirmed, and which of its steps succeed. */
  datatype Import = Import(path: string, sourceId: string, url: string, host: string, outcome: Outcome,
                           replacing: bool, stored: bool, written: bool, saved: bool)

  /** What decides what an update does, besides its host and the config's. */
  datatype Check = Check(usable: bool, otherwiseSame: bool, waits: bool, saved: bool)

  datatype Action =
    | Tick(path: string, allowed: bool, unlocked: bool)
    | UserRefresh(path: string, unlocked: bool)
    | Arrived(path: string, reply: Reply)
    | EndApply(path: string, check: Check)
    | Flush(path: string, waits: bool)
    | Answer(path: string, accept: bool, enabled: bool, unlocked: bool)
    | Confirm(what: Import)
    | Remove(path: string)
    | Move(from: string, to: string)
    | Edit(path: string, host: string)
    | Wait(seconds: nat)

  function Note(w: World, e: Event): World { w.(log := w.log + [e]) }

  function WithCtl(w: World, c: Controller): World { w.(ctl := c) }

  function HostOf(w: World, path: string): string { if path in w.hosts then w.hosts[path] else "" }

  // ---------- fetching ----------

  predicate HasAddress(c: Controller, path: string) { path in c.records && c.records[path].sourceId in c.store }

  function StartRefresh(w: World, path: string, manual: bool, unlocked: bool, clock: Clock): World {
    if path in w.fetching || path in w.ctl.busy || path !in w.ctl.records then w
    else if !unlocked || !HasAddress(w.ctl, path) then WithCtl(w, NoteFailure(w.ctl, path, Backoff, clock))
    else Note(w.(fetching := w.fetching[path := manual]), Started(path, clock.now, manual))
  }

  predicate Due(w: World, path: string) {
    && path in w.ctl.records && path !in w.fetching && path !in w.ctl.busy
    && var r := w.ctl.records[path];
      r.autoRefresh && r.nextAttemptAt <= w.now && w.now - r.lastAttemptAt >= CHECK_SECONDS
  }

  function TickOne(w: World, path: string, allowed: bool, unlocked: bool, clock: Clock): World {
    if Due(w, path) && allowed then StartRefresh(w, path, false, unlocked, clock) else w
  }

  // ---------- applying ----------

  function BeginApply(w: World, path: string, u: Update, clock: Clock): World {
    if path in w.ctl.busy then WithCtl(w, RefreshSoon(w.ctl, path, clock))
    else w.(ctl := SetBusy(w.ctl, path, true), applying := w.applying[path := u])
  }

  function ArrivedReply(w: World, path: string, reply: Reply, clock: Clock): World {
    if path !in w.fetching then w
    else
      var ended := w.(fetching := w.fetching - {path});
      if path !in w.ctl.records then ended
      else
        match reply
        case NoDocument(policy) => WithCtl(ended, NoteFailure(w.ctl, path, policy, clock))
        case Document(host, hint) => BeginApply(ended, path, Update(host, hint, w.fetching[path]), clock)
  }

  predicate SameHost(identity: string -> string, a: string, b: string) { identity(a) == identity(b) }

  predicate HostnameAccepted(c: Controller, path: string, host: string, identity: string -> string) {
    path in c.accepted && SameHost(identity, c.accepted[path], host)
  }

  /** What is found about an update, in the order it is asked. */
  datatype Verdict = NotLinked | Unusable | NoChange | OtherServer | Waits | NotSaved | Writes

  function VerdictOn(w: World, path: string, u: Update, check: Check, identity: string -> string): Verdict {
    var before := HostOf(w, path);
    if path !in w.ctl.records then NotLinked
    else if !check.usable then Unusable
    else if check.otherwiseSame && before == u.host then NoChange
    else if !SameHost(identity, before, u.host) && !HostnameAccepted(w.ctl, path, u.host, identity) then OtherServer
    else if check.waits then Waits
    else if !check.saved then NotSaved
    else Writes
  }

  function Settled(c: Controller, path: string, u: Update, verdict: Verdict, clock: Clock): Controller {
    match verdict
    case NotLinked => c
    case Unusable => NoteFailure(c, path, Backoff, clock)
    case NoChange => NoteApplied(c, path, u, clock)
    case OtherServer => NoteDocument(HoldForHostname(c, path, u), path, u.hint, false, clock)
    case Waits => NoteDocument(Hold(c, path, u), path, u.hint, u.manual, clock)
    case NotSaved => NoteFailure(c, path, Backoff, clock)
    case Writes => NoteApplied(c, path, u, clock)
  }

  function EventOf(w: World, path: string, u: Update, verdict: Verdict): seq<Event> {
    match verdict
    case NoChange => [Unchanged(path)]
    case OtherServer => [Held(path, u.host)]
    case Writes => [Written(path, HostOf(w, path), u.host)]
    case _ => []
  }

  function Concluded(w: World, path: string, u: Update, verdict: Verdict, clock: Clock): World {
    w.(ctl := Settled(w.ctl, path, u, verdict, clock), log := w.log + EventOf(w, path, u, verdict),
       hosts := if verdict == Writes then w.hosts[path := u.host] else w.hosts)
  }

  /** What an update does to the config it is for, once nothing else applies one to it. */
  function Applied(w: World, path: string, u: Update, check: Check, identity: string -> string, clock: Clock): World {
    Concluded(w, path, u, VerdictOn(w, path, u, check, identity), clock)
  }

  function EndApplying(w: World, path: string, check: Check, identity: string -> string, clock: Clock): World {
    if path !in w.applying then w
    else
      var ended := w.(ctl := SetBusy(w.ctl, path, false), applying := w.applying - {path});
      Applied(ended, path, w.applying[path], check, identity, clock)
  }

  function FlushOne(w: World, path: string, waits: bool, clock: Clock): World {
    if path in w.ctl.held && path in w.ctl.records && w.ctl.records[path].heldHostname == "" && !waits then
      BeginApply(w, path, w.ctl.held[path], clock)
    else w
  }

  function Answered(w: World, path: string, accept: bool, enabled: bool, unlocked: bool, clock: Clock): World {
    if !AwaitsAnswer(w.ctl, path) then w
    else
      var told := WithCtl(w, AnswerHostname(w.ctl, path, accept));
      if !accept then Note(told, Refused(path))
      else
        var noted := Note(told, Accepted(path, w.ctl.records[path].heldHostname));
        if path !in w.ctl.held && enabled then StartRefresh(noted, path, true, unlocked, clock) else noted
  }

  // ---------- links ----------

  function Forgetting(w: World, path: string): World {
    Note(w.(ctl := Forget(w.ctl, path), fetching := w.fetching - {path}), Forgot(path))
  }

  function Moving(w: World, from: string, to: string): World {
    if from == to || from !in w.ctl.records then w
    else
      Note(w.(ctl := Rename(w.ctl, from, to), fetching := w.fetching - {from}, hosts := Moved(w.hosts, from, to)),
           Renamed(from, to))
  }

  /** confirmSubscriptionImport(): the address goes into the store, then the config is written,
      then the link between them; what fails takes the address back out. */
  function Confirmed(w: World, i: Import, clock: Clock): World {
    var kept := WithCtl(w, StoreAddress(w.ctl, i.sourceId, i.url, i.stored));
    if !i.stored then kept
    else if !i.written then WithCtl(kept, DeleteAddress(kept.ctl, i.sourceId))
    else
      var config := (if i.replacing then Forgetting(kept, i.path) else kept).(hosts := w.hosts[i.path := i.host]);
      var linked := Link(config.ctl, i.path, i.sourceId, i.outcome, i.saved, clock);
      if !i.saved then WithCtl(config, DeleteAddress(linked, i.sourceId))
      else Note(WithCtl(config, linked), Linked(i.path))
  }

  // ---------- runs ----------

  function Step(w: World, a: Action, jitter: int, identity: string -> string): World {
    var clock := Clock(w.now, jitter);
    match a
    case Tick(path, allowed, unlocked) => TickOne(w, path, allowed, unlocked, clock)
    case UserRefresh(path, unlocked) => StartRefresh(w, path, true, unlocked, clock)
    case Arrived(path, reply) => ArrivedReply(w, path, reply, clock)
    case EndApply(path, check) => EndApplying(w, path, check, identity, clock)
    case Flush(path, waits) => FlushOne(w, path, waits, clock)
    case Answer(path, accept, enabled, unlocked) => Answered(w, path, accept, enabled, unlocked, clock)
    case Confirm(i) => Confirmed(w, i, clock)
    case Remove(path) => Forgetting(w, path)
    case Move(from, to) => Moving(w, from, to)
    case Edit(path, host) => w.(hosts := w.hosts[path := host])
    case Wait(seconds) => w.(now := w.now + seconds)
  }

  datatype Turn = Turn(action: Action, jitter: int)

  function Run(w: World, turns: seq<Turn>, identity: string -> string): World
    decreases |turns|
  {
    if turns == [] then w else Run(Step(w, turns[0].action, turns[0].jitter, identity), turns[1..], identity)
  }

  /** A start with the records and addresses that were there. */
  function Initial(c: Controller, hosts: map<string, string>, now: int): World {
    World(c.(held := map[], accepted := map[], busy := {}), hosts, map[], map[], now, [])
  }
}
