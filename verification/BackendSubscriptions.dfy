/** Backend's part of the subscriptions: the ordered steps of an import, a refresh and an
    update, with their early returns (BackendSubscriptions.cpp). Each handler keeps consent and
    spacing, and, when its step is an ordinary one, the accounts of the stored addresses. */
module BackendSubscriptions {
  import opened Text
  import opened SubscriptionControl
  import opened SubscriptionControllers
  import opened SubscriptionSteps
  import opened SubscriptionSecrets
  import Consent = SubscriptionConsent
  import Timing = SubscriptionTiming

  class Backend {
    const subscriptions: SubscriptionController
    const identity: string -> string
    var hosts: map<string, string>
    var fetching: map<string, bool>
    var applying: map<string, Update>
    var now: int
    ghost var log: seq<Event>

    ghost function View(): World
      reads this, subscriptions
    {
      World(subscriptions.View(), hosts, fetching, applying, now, log)
    }

    /** What holds between handlers: every write that moved a config to another server had its
        consent and the acceptances that stand are those remembered; automatic fetches are spaced. */
    ghost predicate Valid()
      reads this, subscriptions
    {
      Consent.Kept(View(), identity) && Timing.Timed(View())
    }

    /** What a handler for `a` does: its step, and the accounts stay right when they were and the
        step is an ordinary one. */
    ghost predicate Does(w: World, v: World, a: Action, jitter: int) {
      v == Step(w, a, jitter, identity) && (Accounted(w.ctl) && Ordinary(w, a) ==> Accounted(v.ctl))
    }

    lemma StepIsKept(w: World, a: Action, jitter: int)
      requires Consent.Kept(w, identity) && Timing.Timed(w)
      ensures var v := Step(w, a, jitter, identity);
        && Consent.Kept(v, identity) && Timing.Timed(v)
        && (Accounted(w.ctl) && Ordinary(w, a) ==> Accounted(v.ctl))
    {
      hide Step, Ordinary, Accounted;
      Consent.StepKeeps(w, a, jitter, identity);
      Timing.StepKeepsTimed(w, a, jitter, identity);
      if Accounted(w.ctl) && Ordinary(w, a) { StepAccounts(w, a, jitter, identity); }
    }

    constructor (c: Controller, hosts: map<string, string>, now: int, identity: string -> string)
      ensures fresh(subscriptions) && Valid() && View() == Initial(c, hosts, now)
    {
      this.identity := identity;
      subscriptions := new SubscriptionController(c.(held := map[], accepted := map[], busy := {}));
      this.hosts, fetching, applying, this.now, log := hosts, map[], map[], now, [];
    }

    // ---------- what the handlers are made of ----------

    method BeginRefresh(path: string, manual: bool, unlocked: bool, clock: Clock) returns (started: bool)
      modifies this, subscriptions
      ensures View() == StartRefresh(old(View()), path, manual, unlocked, clock)
      ensures started == (|View().log| > |old(View()).log|)
    {
      if path in fetching || path in subscriptions.busy {
        return false;
      }
      if path !in subscriptions.records {
        return false;
      }
      var readable := unlocked && subscriptions.records[path].sourceId in subscriptions.store;
      if !readable {
        subscriptions.NoteFailureFor(path, Backoff, clock);
        return false;
      }
      fetching := fetching[path := manual];
      log := log + [Started(path, clock.now, manual)];
      return true;
    }

    method ApplySubscriptionUpdate(path: string, update: Update, clock: Clock)
      modifies this, subscriptions
      ensures View() == BeginApply(old(View()), path, update, clock)
    {
      if path in subscriptions.busy {
        subscriptions.RefreshSoonFor(path, clock);
        return;
      }
      subscriptions.SetBusyFor(path, true);
      applying := applying[path := update];
    }

    /** What an update does, question by question. */
    method WriteOrHold(path: string, update: Update, check: Check, clock: Clock)
      modifies this, subscriptions
      ensures View() == Applied(old(View()), path, update, check, identity, clock)
    {
      hide Concluded, SameHost;
      var before := if path in hosts then hosts[path] else "";
      if path !in subscriptions.records {
        Nothing(path, update, clock);
        return;
      }
      if !check.usable {
        Fail(path, update, Unusable, clock);
        return;
      }
      if check.otherwiseSame && before == update.host {
        Keep(path, update, clock);
        return;
      }
      var accepted := path in subscriptions.accepted && SameHost(identity, subscriptions.accepted[path], update.host);
      if !SameHost(identity, before, update.host) && !accepted {
        HoldForUser(path, update, clock);
        return;
      }
      if check.waits {
        HoldForLater(path, update, clock);
        return;
      }
      if !check.saved {
        Fail(path, update, NotSaved, clock);
        return;
      }
      Write(path, update, clock);
    }

    ghost method Nothing(path: string, update: Update, clock: Clock)
      ensures View() == old(View()) == Concluded(old(View()), path, update, NotLinked, clock)
    {
      RightUnit(log);
    }

    method Fail(path: string, update: Update, verdict: Verdict, clock: Clock)
      requires verdict == Unusable || verdict == NotSaved
      modifies subscriptions
      ensures View() == Concluded(old(View()), path, update, verdict, clock)
    {
      RightUnit(log);
      subscriptions.NoteFailureFor(path, Backoff, clock);
    }

    method Keep(path: string, update: Update, clock: Clock)
      modifies this, subscriptions
      ensures View() == Concluded(old(View()), path, update, NoChange, clock)
    {
      subscriptions.NoteAppliedTo(path, update, clock);
      log := log + [Unchanged(path)];
    }

    method HoldForUser(path: string, update: Update, clock: Clock)
      modifies this, subscriptions
      ensures View() == Concluded(old(View()), path, update, OtherServer, clock)
    {
      subscriptions.HoldForHostnameOf(path, update);
      subscriptions.NoteDocumentFor(path, update.hint, false, clock);
      log := log + [Held(path, update.host)];
    }

    method HoldForLater(path: string, update: Update, clock: Clock)
      modifies subscriptions
      ensures View() == Concluded(old(View()), path, update, Waits, clock)
    {
      RightUnit(log);
      subscriptions.HoldFor(path, update);
      subscriptions.NoteDocumentFor(path, update.hint, update.manual, clock);
    }

    method Write(path: string, update: Update, clock: Clock)
      modifies this, subscriptions
      ensures View() == Concluded(old(View()), path, update, Writes, clock)
    {
      log := log + [Written(path, if path in hosts then hosts[path] else "", update.host)];
      hosts := hosts[path := update.host];
      subscriptions.NoteAppliedTo(path, update, clock);
    }

    method DropSubscription(path: string)
      modifies this, subscriptions
      ensures View() == Forgetting(old(View()), path)
    {
      fetching := fetching - {path};
      var _ := subscriptions.ForgetConfig(path);
      log := log + [Forgot(path)];
    }

    method ImportAndLink(i: Import, clock: Clock) returns (imported: bool)
      modifies this, subscriptions
      ensures View() == Confirmed(old(View()), i, clock)
      ensures imported == (i.stored && i.written)
    {
      hide Forget, LinkedRecord, DropAddress, Ids, Accounted;
      var stored := subscriptions.StoreAddressOf(i.sourceId, i.url, i.stored);
      if !stored {
        return false;
      }
      if !i.written {
        subscriptions.DeleteAddressOf(i.sourceId);
        return false;
      }
      hosts := hosts[i.path := i.host];
      if i.replacing {
        DropSubscription(i.path);
      }
      var linked := subscriptions.LinkTo(i.path, i.sourceId, i.outcome, i.saved, clock);
      if !linked {
        subscriptions.DeleteAddressOf(i.sourceId);
      } else {
        log := log + [Linked(i.path)];
      }
      return true;
    }

    // ---------- the handlers ----------

    /** The timer's check of one config. */
    method OnTick(path: string, allowed: bool, unlocked: bool, jitter: int)
      requires Valid()
      modifies this, subscriptions
      ensures Valid() && Does(old(View()), View(), Tick(path, allowed, unlocked), jitter)
    {
      hide Accounted, Ordinary, Consent.Kept, Timing.Timed, StartRefresh;
      StepIsKept(View(), Tick(path, allowed, unlocked), jitter);
      if path !in subscriptions.records || path in fetching || path in subscriptions.busy {
        return;
      }
      var r := subscriptions.records[path];
      if !r.autoRefresh || r.nextAttemptAt > now || now - r.lastAttemptAt < CHECK_SECONDS || !allowed {
        return;
      }
      var _ := BeginRefresh(path, false, unlocked, Clock(now, jitter));
    }

    /** The user's own refresh. */
    method StartSubscriptionRefresh(path: string, unlocked: bool, jitter: int) returns (started: bool)
      requires Valid()
      modifies this, subscriptions
      ensures Valid() && Does(old(View()), View(), UserRefresh(path, unlocked), jitter)
      ensures started == (|View().log| > |old(View()).log|)
    {
      hide Accounted, Ordinary, Consent.Kept, Timing.Timed, StartRefresh;
      StepIsKept(View(), UserRefresh(path, unlocked), jitter);
      started := BeginRefresh(path, true, unlocked, Clock(now, jitter));
    }

    method OnSubscriptionFetched(path: string, reply: Reply, jitter: int)
      requires Valid()
      modifies this, subscriptions
      ensures Valid() && Does(old(View()), View(), Arrived(path, reply), jitter)
    {
      hide Accounted, Ordinary, Consent.Kept, Timing.Timed;
      StepIsKept(View(), Arrived(path, reply), jitter);
      var clock := Clock(now, jitter);
      if path !in fetching {
        return;
      }
      var manual := fetching[path];
      fetching := fetching - {path};
      if path !in subscriptions.records {
        return;
      }
      match reply {
        case NoDocument(policy) =>
          subscriptions.NoteFailureFor(path, policy, clock);
        case Document(host, hint) =>
          ApplySubscriptionUpdate(path, Update(host, hint, manual), clock);
      }
    }

    /** From where the password has been read. */
    method FinishApplying(path: string, check: Check, jitter: int)
      requires Valid()
      modifies this, subscriptions
      ensures Valid() && Does(old(View()), View(), EndApply(path, check), jitter)
    {
      hide Accounted, Ordinary, Consent.Kept, Timing.Timed, Applied;
      StepIsKept(View(), EndApply(path, check), jitter);
      if path !in applying {
        return;
      }
      var update := applying[path];
      subscriptions.SetBusyFor(path, false);
      applying := applying - {path};
      WriteOrHold(path, update, check, Clock(now, jitter));
    }

    method ForgetSubscription(path: string)
      requires Valid()
      modifies this, subscriptions
      ensures Valid() && Does(old(View()), View(), Action.Remove(path), 0)
    {
      hide Accounted, Ordinary, Consent.Kept, Timing.Timed, Forget;
      StepIsKept(View(), Action.Remove(path), 0);
      DropSubscription(path);
    }

    /** A config renamed: what is kept of it, and the fetch for it, go by its new path. */
    method RenameSubscription(from: string, to: string)
      requires Valid()
      modifies this, subscriptions
      ensures Valid() && Does(old(View()), View(), Move(from, to), 0)
    {
      hide Accounted, Ordinary, Consent.Kept, Timing.Timed, Moved, Rename;
      StepIsKept(View(), Move(from, to), 0);
      if from == to || from !in subscriptions.records {
        return;
      }
      subscriptions.RenameConfig(from, to);
      fetching := fetching - {from};
      hosts := Moved(hosts, from, to);
      log := log + [Renamed(from, to)];
    }

    /** An update held while the tunnel came up or went down, once it does not wait any more. */
    method FlushHeld(path: string, waits: bool, jitter: int)
      requires Valid()
      modifies this, subscriptions
      ensures Valid() && Does(old(View()), View(), Flush(path, waits), jitter)
    {
      hide Accounted, Ordinary, Consent.Kept, Timing.Timed, BeginApply;
      StepIsKept(View(), Flush(path, waits), jitter);
      if path in subscriptions.held && path in subscriptions.records && subscriptions.records[path].heldHostname == ""
         && !waits {
        ApplySubscriptionUpdate(path, subscriptions.held[path], Clock(now, jitter));
      }
    }

    method ConfirmSubscriptionImport(i: Import, jitter: int) returns (imported: bool)
      requires Valid()
      modifies this, subscriptions
      ensures Valid() && Does(old(View()), View(), Confirm(i), jitter)
      ensures imported == (i.stored && i.written)
    {
      hide Accounted, Ordinary, Consent.Kept, Timing.Timed, Confirmed;
      StepIsKept(View(), Confirm(i), jitter);
      imported := ImportAndLink(i, Clock(now, jitter));
    }

    method AnswerHostnameChange(path: string, accept: bool, enabled: bool, unlocked: bool, jitter: int)
        returns (answered: bool)
      requires Valid()
      modifies this, subscriptions
      ensures Valid() && Does(old(View()), View(), Answer(path, accept, enabled, unlocked), jitter)
    {
      hide Accounted, Ordinary, Consent.Kept, Timing.Timed, StartRefresh;
      StepIsKept(View(), Answer(path, accept, enabled, unlocked), jitter);
      ghost var host := if path in subscriptions.records then subscriptions.records[path].heldHostname else "";
      answered := subscriptions.AnswerHostnameOf(path, accept);
      if !answered {
        return;
      }
      if !accept {
        log := log + [Refused(path)];
        return;
      }
      log := log + [Accepted(path, host)];
      if path !in subscriptions.held && enabled {
        var _ := BeginRefresh(path, true, unlocked, Clock(now, jitter));
      }
    }

    /** The user's own editor writes another host into a config. */
    method EditHost(path: string, host: string)
      requires Valid()
      modifies `hosts
      ensures Valid() && Does(old(View()), View(), Edit(path, host), 0)
    {
      hide Accounted, Ordinary, Consent.Kept, Timing.Timed;
      StepIsKept(View(), Edit(path, host), 0);
      hosts := hosts[path := host];
    }

    method LetPass(seconds: nat)
      requires Valid()
      modifies `now
      ensures Valid() && Does(old(View()), View(), Wait(seconds), 0)
    {
      hide Accounted, Ordinary, Consent.Kept, Timing.Timed;
      StepIsKept(View(), Wait(seconds), 0);
      now := now + seconds;
    }
  }
}
