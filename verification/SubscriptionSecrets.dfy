/** The addresses kept in the credential store are those the records name: none is left
    behind, and none is lost. */
module SubscriptionSecrets {
  import opened Text
  import opened SubscriptionControl
  import opened SubscriptionSteps

  function Ids(records: map<string, Record>): set<string> {
    set p | p in records :: records[p].sourceId
  }

  predicate Accounted(c: Controller) { c.store.Keys == Ids(c.records) }

  // ---------- the controller's operations ----------

  lemma DropAccounts(c: Controller, sourceId: string)
    requires c.store.Keys == Ids(c.records) + {sourceId}
    ensures Accounted(DropAddress(c, sourceId))
  {
  }

  lemma IdsWithout(records: map<string, Record>, path: string)
    requires path in records
    ensures Ids(records - {path}) + {records[path].sourceId} == Ids(records)
  {
    var less := records - {path};
    forall id | id in Ids(records) ensures id in Ids(less) || id == records[path].sourceId {
      var p :| p in records && records[p].sourceId == id;
      if p != path { assert p in less; }
    }
  }

  lemma IdsWith(records: map<string, Record>, path: string, r: Record)
    ensures Ids(records[path := r]) == Ids(records - {path}) + {r.sourceId}
  {
    var more, less := records[path := r], records - {path};
    assert path in more;
    forall id | id in Ids(more) ensures id in Ids(less) || id == r.sourceId {
      var p :| p in more && more[p].sourceId == id;
      if p != path { assert p in less; }
    }
    forall id | id in Ids(less) ensures id in Ids(more) {
      var p :| p in less && less[p].sourceId == id;
      assert p in more;
    }
  }

  /** A record changed under the same entry. */
  lemma SetRecordKeepsIds(c: Controller, path: string, r: Record)
    requires path in c.records && r.sourceId == c.records[path].sourceId
    ensures Ids(SetRecord(c, path, r).records) == Ids(c.records)
  {
    IdsWith(c.records, path, r);
    IdsWithout(c.records, path);
  }

  lemma ForgetAccounts(c: Controller, path: string)
    requires Accounted(c)
    ensures Accounted(Forget(c, path))
  {
    hide Ids;
    if path in c.records {
      IdsWithout(c.records, path);
      var let := c.(held := c.held - {path}, accepted := c.accepted - {path}, records := c.records - {path});
      DropAccounts(let, c.records[path].sourceId);
    }
  }

  /** A link saved takes the new address in, and the one it replaces out. */
  lemma LinkAccounts(c: Controller, path: string, sourceId: string, outcome: Outcome, clock: Clock)
    requires c.store.Keys == Ids(c.records) + {sourceId}
    ensures Accounted(Link(c, path, sourceId, outcome, true, clock))
  {
    hide Ids, LinkedRecord;
    var r := LinkedRecord(sourceId, outcome, clock);
    LinkedRecordNamesIt(sourceId, outcome, clock);
    IdsWith(c.records, path, r);
    if path in c.records {
      IdsWithout(c.records, path);
      DropAccounts(SetRecord(c, path, r), c.records[path].sourceId);
    } else {
      assert c.records - {path} == c.records;
    }
  }

  lemma LinkedRecordNamesIt(sourceId: string, outcome: Outcome, clock: Clock)
    ensures LinkedRecord(sourceId, outcome, clock).sourceId == sourceId
  {
  }

  /** Another record than the one at `to` names the same entry. */
  predicate NamedElsewhere(records: map<string, Record>, to: string) {
    to in records && exists p :: p in records && p != to && records[p].sourceId == records[to].sourceId
  }

  /** Just when a rename leaves no address behind: not over a record whose address no other
      record names. */
  lemma RenameAccountsIff(c: Controller, from: string, to: string)
    requires Accounted(c)
    ensures Accounted(Rename(c, from, to)) <==>
      from == to || from !in c.records || to !in c.records || NamedElsewhere(c.records, to)
  {
    if from != to && from in c.records {
      var less := c.records - {from};
      var moved := less[to := c.records[from]];
      IdsWithout(c.records, from);
      IdsWith(less, to, c.records[from]);
      if to in c.records {
        var lost := c.records[to].sourceId;
        IdsWithout(less, to);
        if NamedElsewhere(c.records, to) {
          var p :| p in c.records && p != to && c.records[p].sourceId == lost;
          assert p != from ==> p in less - {to};
        } else {
          assert lost !in Ids(moved);
        }
      } else {
        assert less - {to} == less;
      }
    }
  }

  /** A rename over a linked config can leave its address in the store with no record for it. */
  lemma RenameOverLinkedLeaks()
    ensures exists c: Controller, from: string, to: string :: Accounted(c) && !Accounted(Rename(c, from, to))
  {
    var a, b := NewRecord("1"), NewRecord("2");
    var c := Controller(map["a" := a, "b" := b], map[], map[], {}, map["1" := "u", "2" := "v"]);
    assert "a" in c.records && "b" in c.records;
    assert Ids(c.records) == {"1", "2"};
    RenameAccountsIff(c, "a", "b");
    assert !Accounted(Rename(c, "a", "b"));
  }

  lemma {:induction false} PrunedAccounts(c: Controller, gone: seq<string>)
    requires Accounted(c)
    ensures Accounted(Pruned(c, gone))
    decreases |gone|
  {
    hide Ids;
    if gone != [] {
      var path := gone[0];
      if path !in c.records {
        PrunedAccounts(c, gone[1..]);
      } else {
        var let := c.(records := c.records - {path});
        IdsWithout(c.records, path);
        DropAccounts(let, c.records[path].sourceId);
        PrunedAccounts(DropAddress(let, c.records[path].sourceId), gone[1..]);
      }
    }
  }

  // ---------- every step ----------

  /** The same entries, and the same records naming them. */
  predicate SameSecrets(c: Controller, d: Controller) {
    d.store == c.store && Ids(d.records) == Ids(c.records)
  }

  lemma NotesKeepSecrets(c: Controller, path: string, u: Update, policy: Policy, resume: bool, clock: Clock)
    ensures SameSecrets(c, NoteFailure(c, path, policy, clock))
    ensures SameSecrets(c, NoteDocument(c, path, u.hint, resume, clock))
    ensures SameSecrets(c, RefreshSoon(c, path, clock))
    ensures SameSecrets(c, ClearHeldHostname(c, path))
    ensures SameSecrets(c, HoldForHostname(c, path, u))
    ensures SameSecrets(c, Hold(c, path, u))
  {
    hide Ids;
    if path in c.records {
      var r := c.records[path];
      SetRecordKeepsIds(c, path, MarkFailure(r, policy, clock));
      SetRecordKeepsIds(c, path, MarkDocument(r, u.hint, resume, clock));
      SetRecordKeepsIds(c, path, r.(nextAttemptAt := clock.now));
      SetRecordKeepsIds(c, path, r.(heldHostname := ""));
      SetRecordKeepsIds(c, path, r.(heldHostname := u.host));
    }
  }

  lemma SettledKeepsSecrets(c: Controller, path: string, u: Update, verdict: Verdict, clock: Clock)
    ensures SameSecrets(c, Settled(c, path, u, verdict, clock))
  {
    hide Ids, NoteFailure, NoteDocument, ClearHeldHostname, HoldForHostname;
    NotesKeepSecrets(c, path, u, Backoff, u.manual, clock);
    NotesKeepSecrets(HoldForHostname(c, path, u), path, u, Backoff, false, clock);
    NotesKeepSecrets(Hold(c, path, u), path, u, Backoff, u.manual, clock);
    var let := c.(held := c.held - {path}, accepted := c.accepted - {path});
    NotesKeepSecrets(let, path, u, Backoff, u.manual, clock);
    NotesKeepSecrets(ClearHeldHostname(let, path), path, u, Backoff, u.manual, clock);
  }

  lemma NoteAppliedKeepsSecrets(c: Controller, path: string, u: Update, clock: Clock)
    ensures SameSecrets(c, NoteApplied(c, path, u, clock))
  {
    hide Ids;
    SettledKeepsSecrets(c, path, u, NoChange, clock);
  }

  lemma FetchingKeepsSecrets(w: World, path: string, manual: bool, unlocked: bool, u: Update, policy: Policy, clock: Clock)
    ensures SameSecrets(w.ctl, StartRefresh(w, path, manual, unlocked, clock).ctl)
    ensures SameSecrets(w.ctl, BeginApply(w, path, u, clock).ctl)
    ensures SameSecrets(w.ctl, NoteFailure(w.ctl, path, policy, clock))
  {
    hide Ids, NoteFailure, RefreshSoon;
    NotesKeepSecrets(w.ctl, path, u, Backoff, false, clock);
    NotesKeepSecrets(w.ctl, path, u, policy, false, clock);
  }

  lemma AnswerKeepsIds(c: Controller, path: string, accept: bool)
    ensures SameSecrets(c, AnswerHostname(c, path, accept))
  {
    hide Ids;
    if AwaitsAnswer(c, path) {
      var r := c.records[path];
      SetRecordKeepsIds(c, path, r.(heldHostname := ""));
      SetRecordKeepsIds(c, path, r.(heldHostname := "", autoRefresh := false));
    }
  }

  lemma AnswerKeepsSecrets(w: World, path: string, accept: bool, enabled: bool, unlocked: bool, clock: Clock)
    ensures SameSecrets(w.ctl, Answered(w, path, accept, enabled, unlocked, clock).ctl)
  {
    hide Ids, StartRefresh;
    if AwaitsAnswer(w.ctl, path) {
      var r := w.ctl.records[path];
      AnswerKeepsIds(w.ctl, path, accept);
      var told := WithCtl(w, AnswerHostname(w.ctl, path, accept));
      FetchingKeepsSecrets(Note(told, Accepted(path, r.heldHostname)), path, true, unlocked, Update("", None, false),
                           Normal, clock);
    }
  }

  /** Whatever step of it fails, an import leaves the address of a config it linked, and no other. */
  lemma ConfirmAccounts(w: World, i: Import, clock: Clock)
    requires Accounted(w.ctl) && i.sourceId !in w.ctl.store
    ensures Accounted(Confirmed(w, i, clock).ctl)
  {
    hide Ids, Link, Forget;
    var kept := StoreAddress(w.ctl, i.sourceId, i.url, i.stored);
    if !i.stored || !i.written {
      assert Confirmed(w, i, clock).ctl.store.Keys == w.ctl.store.Keys;
    } else {
      var c := if i.replacing then Forget(kept, i.path) else kept;
      assert c.store.Keys == Ids(c.records) + {i.sourceId} by {
        if i.replacing { ForgetKeepsOther(w.ctl, i.path, i.sourceId, i.url); }
      }
      if i.saved {
        LinkAccounts(c, i.path, i.sourceId, i.outcome, clock);
      } else {
        UnsavedLinkIsNone(c, i.path, i.sourceId, i.outcome, clock);
        NotNamed(w.ctl, i);
      }
    }
  }

  /** The new entry is no record's until it is linked. */
  lemma ForgetKeepsOther(c: Controller, path: string, sourceId: string, url: string)
    requires Accounted(c) && sourceId !in c.store
    ensures var d := Forget(c.(store := c.store[sourceId := url]), path);
      d.store.Keys == Ids(d.records) + {sourceId} && d.records == Forget(c, path).records
      && sourceId !in Ids(d.records)
  {
    ForgetAccounts(c, path);
    if path in c.records {
      assert c.records[path].sourceId in Ids(c.records);
    }
  }

  lemma NotNamed(c: Controller, i: Import)
    requires Accounted(c) && i.sourceId !in c.store
    ensures var kept := StoreAddress(c, i.sourceId, i.url, true);
      Accounted(DeleteAddress(if i.replacing then Forget(kept, i.path) else kept, i.sourceId))
  {
    hide Ids, Forget;
    if i.replacing { ForgetKeepsOther(c, i.path, i.sourceId, i.url); }
  }

  /** The ids of imports are new, and a rename is not over a linked config. */
  predicate Ordinary(w: World, a: Action) {
    match a
    case Confirm(i) => i.sourceId !in w.ctl.store
    case Move(from, to) => to !in w.ctl.records || NamedElsewhere(w.ctl.records, to)
    case _ => true
  }

  lemma StepAccounts(w: World, a: Action, jitter: int, identity: string -> string)
    requires Accounted(w.ctl) && Ordinary(w, a)
    ensures Accounted(Step(w, a, jitter, identity).ctl)
  {
    hide Ids, StartRefresh, BeginApply, Settled, VerdictOn, Answered, Confirmed, Forget, Rename, NoteFailure, NamedElsewhere, Due,
      AwaitsAnswer;
    var clock := Clock(w.now, jitter);
    var any := Update("", None, false);
    match a
    case Tick(path, allowed, unlocked) => FetchingKeepsSecrets(w, path, false, unlocked, any, Normal, clock);
    case UserRefresh(path, unlocked) => FetchingKeepsSecrets(w, path, true, unlocked, any, Normal, clock);
    case Arrived(path, reply) => ArrivedKeepsSecrets(w, path, reply, clock);
    case EndApply(path, check) =>
      if path in w.applying {
        var ended := w.(ctl := SetBusy(w.ctl, path, false), applying := w.applying - {path});
        var u := w.applying[path];
        SettledKeepsSecrets(ended.ctl, path, u, VerdictOn(ended, path, u, check, identity), clock);
      }
    case Flush(path, waits) =>
      if path in w.ctl.held { FetchingKeepsSecrets(w, path, false, false, w.ctl.held[path], Normal, clock); }
    case Answer(path, accept, enabled, unlocked) => AnswerKeepsSecrets(w, path, accept, enabled, unlocked, clock);
    case Confirm(i) => ConfirmAccounts(w, i, clock);
    case Remove(path) => ForgetAccounts(w.ctl, path);
    case Move(from, to) => RenameAccountsIff(w.ctl, from, to);
    case Edit(path, host) =>
    case Wait(seconds) =>
  }

  lemma ArrivedKeepsSecrets(w: World, path: string, reply: Reply, clock: Clock)
    ensures SameSecrets(w.ctl, ArrivedReply(w, path, reply, clock).ctl)
  {
    hide Ids, BeginApply, NoteFailure;
    if path in w.fetching {
      var ended := w.(fetching := w.fetching - {path});
      match reply
      case NoDocument(policy) => FetchingKeepsSecrets(ended, path, false, false, Update("", None, false), policy, clock);
      case Document(host, hint) =>
        FetchingKeepsSecrets(ended, path, false, false, Update(host, hint, w.fetching[path]), Normal, clock);
    }
  }

  ghost predicate OrdinaryRun(w: World, turns: seq<Turn>, identity: string -> string)
    decreases |turns|
  {
    turns == [] ||
    (&& Ordinary(w, turns[0].action)
     && OrdinaryRun(Step(w, turns[0].action, turns[0].jitter, identity), turns[1..], identity))
  }

  /** Over any run of imports that succeed or fail at each step, replacements, renames to paths
      not linked, removals and refreshes, the store holds just the addresses of the records. */
  lemma {:induction false} RunAccounts(w: World, turns: seq<Turn>, identity: string -> string)
    requires Accounted(w.ctl) && OrdinaryRun(w, turns, identity)
    ensures Accounted(Run(w, turns, identity).ctl)
    decreases |turns|
  {
    hide Step, Accounted;
    if turns != [] {
      StepAccounts(w, turns[0].action, turns[0].jitter, identity);
      RunAccounts(Step(w, turns[0].action, turns[0].jitter, identity), turns[1..], identity);
    }
  }

  /** An import whose every step succeeds is remembered under its own address. */
  lemma ImportIsRemembered(w: World, i: Import, clock: Clock)
    requires Accounted(w.ctl) && i.sourceId !in w.ctl.store && i.stored && i.written && i.saved
    ensures var c := Confirmed(w, i, clock).ctl;
      i.path in c.records && c.records[i.path].sourceId == i.sourceId && i.sourceId in c.store && c.store[i.sourceId] == i.url
  {
    LinkedRecordNamesIt(i.sourceId, i.outcome, clock);
    hide LinkedRecord, Ids;
    var kept := StoreAddress(w.ctl, i.sourceId, i.url, true);
    if i.replacing { ForgetKeepsOther(w.ctl, i.path, i.sourceId, i.url); }
    ConfirmAccounts(w, i, clock);
    var c := Confirmed(w, i, clock).ctl;
    IdOf(c.records, i.path);
  }

  lemma IdOf(records: map<string, Record>, path: string)
    requires path in records
    ensures records[path].sourceId in Ids(records)
  {
  }
}
