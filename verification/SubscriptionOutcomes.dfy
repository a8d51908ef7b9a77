/** What each thing that can happen to a subscription comes to, said of the configs, the records and
    the log it leaves. */
module SubscriptionOutcomes {
  import opened Text
  import opened SubscriptionControl
  import opened SubscriptionSteps

  /** The records of the other configs stay. */
  ghost predicate OthersStay(w: World, v: World, path: string) {
    && v.ctl.records.Keys == w.ctl.records.Keys && v.ctl.store == w.ctl.store
    && (forall p :: p in w.ctl.records && p != path ==> v.ctl.records[p] == w.ctl.records[p])
    && (forall p :: p != path ==> (p in v.ctl.held <==> p in w.ctl.held) && (p in v.ctl.accepted <==> p in w.ctl.accepted))
    && (forall p :: p != path && p in w.ctl.held ==> v.ctl.held[p] == w.ctl.held[p])
    && (forall p :: p != path && p in w.ctl.accepted ==> v.ctl.accepted[p] == w.ctl.accepted[p])
  }

  // ---------- an update applied ----------

  /** The config is to have the update: it is linked, the update is for a server that can be used and
      changes something, the server is the one it has or one the user accepted, nothing makes it
      wait, and it could be saved. */
  predicate IsToBeWritten(w: World, path: string, check: Check, identity: string -> string)
    requires path in w.applying
  {
    var host := w.applying[path].host; var now := if path in w.hosts then w.hosts[path] else "";
    && path in w.ctl.records && check.usable && !(check.otherwiseSame && now == host)
    && (identity(now) == identity(host) || (path in w.ctl.accepted && identity(w.ctl.accepted[path]) == identity(host)))
    && !check.waits && check.saved
  }

  /** The config's host becomes the update's just then; what was held, asked or accepted for it is
      used up, and the write is in the log. Otherwise no host changes and no write is in the log. */
  lemma WrittenIff(w: World, path: string, check: Check, jitter: int, identity: string -> string)
    requires path in w.applying
    ensures var v := Step(w, EndApply(path, check), jitter, identity); var u := w.applying[path];
      && path !in v.applying && path !in v.ctl.busy && OthersStay(w, v, path)
      && (IsToBeWritten(w, path, check, identity) ==>
            && v.hosts == w.hosts[path := u.host] && path !in v.ctl.held && path !in v.ctl.accepted
            && v.ctl.records[path].heldHostname == "" && v.ctl.records[path].lastAttemptAt == w.now
            && v.log == w.log + [Written(path, if path in w.hosts then w.hosts[path] else "", u.host)])
      && (!IsToBeWritten(w, path, check, identity) ==>
            && v.hosts == w.hosts
            && (v.log == w.log || v.log == w.log + [Unchanged(path)] || v.log == w.log + [Held(path, u.host)]))
  {
    hide RefreshInterval, MarkFailure;
  }

  /** The update moves the config to another server the user was not asked about, or refused. */
  predicate IsToBeAsked(w: World, path: string, check: Check, identity: string -> string)
    requires path in w.applying
  {
    var host := w.applying[path].host; var now := if path in w.hosts then w.hosts[path] else "";
    && path in w.ctl.records && check.usable && identity(now) != identity(host)
    && !(path in w.ctl.accepted && identity(w.ctl.accepted[path]) == identity(host))
    && !(check.otherwiseSame && now == host)
  }

  /** Then, and only then, the user is asked: the update is held with its server, and what was
      accepted before does not stand any more. */
  lemma AskedIff(w: World, path: string, check: Check, jitter: int, identity: string -> string)
    requires path in w.applying
    ensures var v := Step(w, EndApply(path, check), jitter, identity); var u := w.applying[path];
      && (v.log == w.log + [Held(path, u.host)] <==> IsToBeAsked(w, path, check, identity))
      && (IsToBeAsked(w, path, check, identity) ==>
            && path in v.ctl.held && v.ctl.held[path] == u && path !in v.ctl.accepted
            && v.ctl.records[path].heldHostname == u.host)
  {
    hide RefreshInterval;
    if !IsToBeAsked(w, path, check, identity) { OtherLog(w.log, Unchanged(path), Held(path, w.applying[path].host)); }
    OtherLog(w.log, Written(path, HostOf(w, path), w.applying[path].host), Held(path, w.applying[path].host));
  }

  lemma OtherLog(log: seq<Event>, a: Event, b: Event)
    ensures log + [b] != log && (a != b ==> log + [a] != log + [b])
  {
    assert (log + [a])[|log|] == a && (log + [b])[|log|] == b;
  }

  /** An update that need not be asked about but has to wait is held; one that cannot be used, or
      could not be saved, counts as a failure; one that changes nothing uses up what was held. */
  lemma OtherwiseApplied(w: World, path: string, check: Check, jitter: int, identity: string -> string)
    requires path in w.applying && path in w.ctl.records
    requires !IsToBeWritten(w, path, check, identity) && !IsToBeAsked(w, path, check, identity)
    ensures var v := Step(w, EndApply(path, check), jitter, identity); var u := w.applying[path];
      var r := w.ctl.records[path]; var n := v.ctl.records[path];
      var now := if path in w.hosts then w.hosts[path] else "";
      if !check.usable then
        n.failures == r.failures + 1 && n.lastAttemptAt == w.now && v.ctl.held == w.ctl.held && v.ctl.accepted == w.ctl.accepted
      else if check.otherwiseSame && now == u.host then
        path !in v.ctl.held && path !in v.ctl.accepted && n.heldHostname == "" && v.log == w.log + [Unchanged(path)]
      else if check.waits then
        path in v.ctl.held && v.ctl.held[path] == u && v.ctl.accepted == w.ctl.accepted && n.heldHostname == r.heldHostname
      else
        n.failures == r.failures + 1 && v.ctl.held == w.ctl.held && v.ctl.accepted == w.ctl.accepted
  {
    hide RefreshInterval;
  }

  // ---------- fetches ----------

  /** A config that could be fetched: linked, with its address at hand, and neither being fetched nor
      having an update applied. */
  predicate CanBeFetched(w: World, path: string, unlocked: bool) {
    && path in w.ctl.records && path !in w.fetching && path !in w.ctl.busy
    && unlocked && w.ctl.records[path].sourceId in w.ctl.store
  }

  /** An automatic fetch starts just when the config refreshes by itself, its time has come, ten
      minutes have passed since the last attempt, and refreshing is allowed. */
  lemma AutomaticStartIff(w: World, path: string, allowed: bool, unlocked: bool, jitter: int, identity: string -> string)
    ensures var v := Step(w, Tick(path, allowed, unlocked), jitter, identity);
      && (v.log == w.log + [Started(path, w.now, false)] <==>
            && CanBeFetched(w, path, unlocked) && allowed && w.ctl.records[path].autoRefresh
            && w.ctl.records[path].nextAttemptAt <= w.now && w.now - w.ctl.records[path].lastAttemptAt >= 600)
      && (v.log == w.log + [Started(path, w.now, false)] ==>
            v == w.(log := v.log, fetching := w.fetching[path := false]))
      && (v.log != w.log + [Started(path, w.now, false)] ==> v.log == w.log && v.fetching == w.fetching)
  {
    hide RefreshInterval;
    OtherLog(w.log, Started(path, w.now, false), Started(path, w.now, false));
  }

  /** The user's own starts whenever the config could be fetched. Without its address the attempt
      counts as failed; otherwise nothing happens. */
  lemma UserStartIff(w: World, path: string, unlocked: bool, jitter: int, identity: string -> string)
    ensures var v := Step(w, UserRefresh(path, unlocked), jitter, identity);
      if CanBeFetched(w, path, unlocked) then
        v == w.(log := w.log + [Started(path, w.now, true)], fetching := w.fetching[path := true])
      else if path in w.ctl.records && path !in w.fetching && path !in w.ctl.busy then
        && v == w.(ctl := w.ctl.(records := v.ctl.records)) && OthersStay(w, v, path)
        && v.ctl.records[path].failures == w.ctl.records[path].failures + 1
        && v.ctl.records[path].lastAttemptAt == w.now
      else v == w
  {
    hide RefreshInterval;
  }

  /** A result for a fetch that is out ends it. A failure counts; a document is applied as what was
      asked for, or, with one being applied already, asked for again now. */
  lemma ArrivedDoes(w: World, path: string, reply: Reply, jitter: int, identity: string -> string)
    ensures var v := Step(w, Arrived(path, reply), jitter, identity);
      if path !in w.fetching then v == w
      else
        && v.fetching == w.fetching - {path} && v.hosts == w.hosts && v.log == w.log && OthersStay(w, v, path)
        && (path in w.ctl.records ==>
              match reply
              case NoDocument(policy) =>
                && v.applying == w.applying && v.ctl.records[path].failures == w.ctl.records[path].failures + 1
                && (policy.ManualOnly? ==> !v.ctl.records[path].autoRefresh)
              case Document(host, hint) =>
                if path in w.ctl.busy then
                  && v.applying == w.applying
                  && v.ctl.records[path] == w.ctl.records[path].(nextAttemptAt :=
                       if w.ctl.records[path].autoRefresh then w.now else w.ctl.records[path].nextAttemptAt)
                else
                  && v.applying == w.applying[path := Update(host, hint, w.fetching[path])]
                  && v.ctl.busy == w.ctl.busy + {path} && v.ctl.records == w.ctl.records)
  {
    hide RefreshInterval;
  }

  // ---------- waits ----------

  /** So many attempts that failed one after another, each a wait after the one before. */
  function Failing(r: Record, n: nat, jitter: int): Record {
    if n == 0 then r
    else
      var before := Failing(r, n - 1, jitter);
      MarkFailure(before, Backoff, Clock(before.nextAttemptAt, jitter))
  }

  /** After a document the wait is what the server asks for, a day when it asks for nothing, between
      an hour and a week; and ten minutes, half an hour and two hours after the first, second and
      third failure in a row, from then on that again. What the jitter adds is added to the long ones. */
  lemma WaitsAre(r: Record, hint: Option<int>, resume: bool, n: nat, clock: Clock)
    ensures var d := MarkDocument(r, hint, resume, clock);
      var asked := if hint.None? || hint.value <= 0 then 86400 else hint.value;
      var long := (if asked < 3600 then 3600 else if asked > 604800 then 604800 else asked) + clock.jitter;
      var f := Failing(d, n, clock.jitter); var next := Failing(d, n + 1, clock.jitter);
      && d.nextAttemptAt == clock.now + long && d.failures == 0 && (d.autoRefresh <==> r.autoRefresh || resume)
      && f.failures == n && f.hintSeconds == d.hintSeconds && f.autoRefresh == d.autoRefresh
      && next.nextAttemptAt - f.nextAttemptAt == if n == 0 then 600 else if n == 1 then 1800 else if n == 2 then 7200 else long
  {
    var d := MarkDocument(r, hint, resume, clock);
    FailingKeeps(d, n, clock.jitter);
  }

  lemma {:induction false} FailingKeeps(d: Record, n: nat, jitter: int)
    requires d.failures == 0
    ensures var f := Failing(d, n, jitter);
      f.failures == n && f.hintSeconds == d.hintSeconds && f.autoRefresh == d.autoRefresh
  {
    if n > 0 { FailingKeeps(d, n - 1, jitter); }
  }

  // ---------- answers and links ----------

  /** A no drops the server that was held, and turns refreshing off. */
  lemma RefusedDoes(w: World, path: string, enabled: bool, unlocked: bool, jitter: int, identity: string -> string)
    ensures var v := Step(w, Answer(path, false, enabled, unlocked), jitter, identity);
      if path !in w.ctl.records || w.ctl.records[path].heldHostname == "" then v == w
      else
        && v.ctl.records[path].heldHostname == "" && !v.ctl.records[path].autoRefresh && v.hosts == w.hosts
        && v.ctl.accepted == w.ctl.accepted && v.ctl.held == w.ctl.held - {path} && v.log == w.log + [Refused(path)]
  {
  }

  /** A yes lets the server that was held through, and fetches the document again when it is not
      there any more. */
  lemma AcceptedDoes(w: World, path: string, enabled: bool, unlocked: bool, jitter: int, identity: string -> string)
    ensures var v := Step(w, Answer(path, true, enabled, unlocked), jitter, identity);
      if path !in w.ctl.records || w.ctl.records[path].heldHostname == "" then v == w
      else
        var host := w.ctl.records[path].heldHostname;
        && v.ctl.records[path].heldHostname == "" && v.hosts == w.hosts
        && v.ctl.accepted == w.ctl.accepted[path := host] && v.ctl.held == w.ctl.held
        && v.log == w.log + [Accepted(path, host)]
                    + if path !in w.ctl.held && enabled && CanBeFetched(w, path, unlocked)
                      then [Started(path, w.now, true)] else []
  {
    hide RefreshInterval, StartRefresh;
    if AwaitsAnswer(w.ctl, path) {
      var noted := Note(WithCtl(w, AnswerHostname(w.ctl, path, true)), Accepted(path, w.ctl.records[path].heldHostname));
      RightUnit(noted.log);
      StartDoes(noted, path, unlocked, Clock(w.now, jitter));
    }
  }

  lemma StartDoes(w: World, path: string, unlocked: bool, clock: Clock)
    requires path in w.ctl.records
    ensures var v := StartRefresh(w, path, true, unlocked, clock);
      && v.hosts == w.hosts && v.ctl.accepted == w.ctl.accepted && v.ctl.held == w.ctl.held && path in v.ctl.records
      && v.ctl.records[path].heldHostname == w.ctl.records[path].heldHostname
      && v.log == w.log + if CanBeFetched(w, path, unlocked) then [Started(path, clock.now, true)] else []
  {
    hide RefreshInterval;
    RightUnit(w.log);
  }

  /** An update held is applied once its server is not asked about and it need not wait. */
  lemma FlushDoes(w: World, path: string, waits: bool, jitter: int, identity: string -> string)
    ensures var v := Step(w, Flush(path, waits), jitter, identity);
      if path in w.ctl.held && path in w.ctl.records && w.ctl.records[path].heldHostname == "" && !waits
         && path !in w.ctl.busy
      then v == w.(applying := w.applying[path := w.ctl.held[path]], ctl := w.ctl.(busy := w.ctl.busy + {path}))
      else v.applying == w.applying && v.ctl.busy == w.ctl.busy && v.hosts == w.hosts && v.log == w.log
  {
  }

  /** An import writes its config just when its address could be stored and its file written; with
      the link saved it refreshes by itself from then on. */
  lemma ImportDoes(w: World, i: Import, jitter: int, identity: string -> string)
    ensures var v := Step(w, Confirm(i), jitter, identity);
      && v.hosts == (if i.stored && i.written then w.hosts[i.path := i.host] else w.hosts)
      && (i.stored && i.written && i.saved ==>
            && i.path in v.ctl.records && v.ctl.records[i.path].sourceId == i.sourceId
            && v.ctl.records[i.path].lastAttemptAt == w.now
            && (v.ctl.records[i.path].autoRefresh <==> i.outcome != Failed(ManualOnly)))
      && (i.replacing && i.stored && i.written ==>
            i.path !in v.ctl.held && i.path !in v.ctl.accepted && i.path !in v.fetching)
      && (!(i.stored && i.written) ==> v.ctl.records == w.ctl.records && v.log == w.log)
  {
    hide LinkedRecord, Forget, DropAddress;
    LinkedDoes(i.sourceId, i.outcome, Clock(w.now, jitter));
    ForgetDoes(StoreAddress(w.ctl, i.sourceId, i.url, i.stored), i.path);
    DropsOnlyAddresses(SetRecord(if i.replacing then Forget(StoreAddress(w.ctl, i.sourceId, i.url, true), i.path)
                                 else StoreAddress(w.ctl, i.sourceId, i.url, true),
                                 i.path, LinkedRecord(i.sourceId, i.outcome, Clock(w.now, jitter))));
  }

  lemma LinkedDoes(sourceId: string, outcome: Outcome, clock: Clock)
    ensures var r := LinkedRecord(sourceId, outcome, clock);
      r.sourceId == sourceId && r.lastAttemptAt == clock.now && (r.autoRefresh <==> outcome != Failed(ManualOnly))
  {
    hide RefreshInterval;
  }

  lemma ForgetDoes(c: Controller, path: string)
    ensures var d := Forget(c, path);
      && path !in d.held && path !in d.accepted && path !in d.records
      && (forall p :: p in c.records && p != path ==> p in d.records && d.records[p] == c.records[p])
  {
  }

  lemma DropsOnlyAddresses(c: Controller)
    ensures forall id :: DropAddress(c, id).records == c.records && DropAddress(c, id).held == c.held
                         && DropAddress(c, id).accepted == c.accepted
  {
  }

  /** A config that goes takes all that was kept of it along; one that is renamed keeps it. */
  lemma RemoveAndMoveDo(w: World, path: string, to: string, jitter: int, identity: string -> string)
    requires path != to
    ensures var v := Step(w, Remove(path), jitter, identity);
      && path !in v.ctl.records && path !in v.ctl.held && path !in v.ctl.accepted && path !in v.fetching
      && (forall p :: p in w.ctl.records && p != path ==> p in v.ctl.records && v.ctl.records[p] == w.ctl.records[p])
    ensures var v := Step(w, Move(path, to), jitter, identity);
      if path !in w.ctl.records then v == w
      else
        && path !in v.ctl.records && path !in v.ctl.held && path !in v.ctl.accepted && path !in v.fetching
        && to in v.ctl.records && v.ctl.records[to] == w.ctl.records[path]
        && (path in w.ctl.held ==> to in v.ctl.held && v.ctl.held[to] == w.ctl.held[path])
        && (path in w.ctl.accepted ==> to in v.ctl.accepted && v.ctl.accepted[to] == w.ctl.accepted[path])
        && (path in w.hosts ==> to in v.hosts && v.hosts[to] == w.hosts[path])
        && v.log == w.log + [Renamed(path, to)]
  {
  }

  /** At a start the records of configs that are gone go, and the others stay. */
  lemma {:induction false} PruneDoes(c: Controller, gone: seq<string>)
    ensures var d := Pruned(c, gone);
      && (forall p :: p in d.records <==> p in c.records && p !in gone)
      && (forall p :: p in d.records ==> d.records[p] == c.records[p])
    decreases |gone|
  {
    hide Shared;
    if gone != [] {
      var path := gone[0];
      var less := c.(records := c.records - {path});
      DropsOnlyAddresses(less);
      var next := if path !in c.records then c else DropAddress(less, c.records[path].sourceId);
      PruneDoes(next, gone[1..]);
      assert forall p :: p in gone <==> p == path || p in gone[1..];
    }
  }
}
