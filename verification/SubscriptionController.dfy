/** The controller as the program keeps it: each operation updates its maps in place, does what its
    function says, and keeps the store's addresses those of the records (SubscriptionController.cpp). */
module SubscriptionControllers {
  import opened Text
  import opened SubscriptionControl
  import opened SubscriptionSecrets

  class SubscriptionController {
    var records: map<string, Record>
    var held: map<string, Update>
    var accepted: map<string, string>
    var busy: set<string>
    var store: map<string, string>

    function View(): Controller
      reads this
    {
      Controller(records, held, accepted, busy, store)
    }

    /** The addresses in the credential store are just those the records name. An import breaks
        it on its way, and an operation that finds it keeps it. */
    ghost predicate Valid()
      reads this
    {
      Accounted(View())
    }

    /** The one address besides is of a config that is not linked yet. */
    ghost predicate Owes(sourceId: string)
      reads this
    {
      store.Keys == Ids(records) + {sourceId}
    }

    constructor (c: Controller)
      ensures View() == c
    {
      records, held, accepted, busy, store := c.records, c.held, c.accepted, c.busy, c.store;
    }

    method StoreAddressOf(sourceId: string, url: string, stored: bool) returns (ok: bool)
      modifies this
      ensures View() == StoreAddress(old(View()), sourceId, url, stored) && ok == stored
      ensures old(Valid()) ==> if stored then Owes(sourceId) else sourceId in old(store) || Valid()
    {
      hide Ids;
      if stored {
        store := store[sourceId := url];
        return true;
      }
      store := store - {sourceId};
      return false;
    }

    method DeleteAddressOf(sourceId: string)
      modifies this
      ensures View() == DeleteAddress(old(View()), sourceId)
      ensures old(Owes(sourceId)) && sourceId !in Ids(records) ==> Valid()
    {
      hide Ids;
      store := store - {sourceId};
    }

    method DropAddressUnlessShared(sourceId: string)
      modifies this
      ensures View() == DropAddress(old(View()), sourceId)
      ensures old(Owes(sourceId)) ==> Valid()
    {
      if old(Owes(sourceId)) { DropAccounts(View(), sourceId); }
      if !Shared(records, sourceId) {
        DeleteAddressOf(sourceId);
      }
    }

    /** The record goes in first; when it cannot be written, what was there comes back. */
    method LinkTo(path: string, sourceId: string, outcome: Outcome, saved: bool, clock: Clock) returns (ok: bool)
      modifies this
      ensures View() == Link(old(View()), path, sourceId, outcome, saved, clock) && ok == saved
      ensures old(Owes(sourceId)) ==> if saved then Valid() else Owes(sourceId)
    {
      hide Ids, Shared;
      if old(Owes(sourceId)) { LinkAccounts(View(), path, sourceId, outcome, clock); }
      var record := NewRecord(sourceId);
      match outcome {
        case Failed(policy) => record := MarkFailure(record, policy, clock);
        case Fetched(hint) => record := MarkDocument(record, hint, true, clock);
      }
      var previous := if path in records then Some(records[path]) else None;
      records := records[path := record];
      if !saved {
        if previous.Some? {
          records := records[path := previous.value];
        } else {
          records := records - {path};
        }
        assert records == old(records);
        return false;
      }
      if previous.Some? && previous.value.sourceId != sourceId {
        DropAddressUnlessShared(previous.value.sourceId);
      }
      return true;
    }

    method ForgetConfig(path: string) returns (linked: bool)
      modifies this
      ensures View() == Forget(old(View()), path) && linked == (path in old(records))
      ensures old(Valid()) ==> Valid()
    {
      hide Ids, Shared;
      if old(Valid()) { ForgetAccounts(View(), path); }
      held := held - {path};
      accepted := accepted - {path};
      if path !in records {
        return false;
      }
      var sourceId := records[path].sourceId;
      records := records - {path};
      DropAddressUnlessShared(sourceId);
      return true;
    }

    method RenameConfig(from: string, to: string)
      modifies this
      ensures View() == Rename(old(View()), from, to)
      ensures old(Valid()) ==> (Valid() <==>
        from == to || from !in old(records) || to !in old(records) || NamedElsewhere(old(records), to))
    {
      hide Ids, NamedElsewhere;
      if old(Valid()) { RenameAccountsIff(View(), from, to); }
      if from == to || from !in records {
        return;
      }
      var record := records[from];
      records := records - {from};
      records := records[to := record];
      if from in held {
        var update := held[from];
        held := held - {from};
        held := held[to := update];
      }
      if from in accepted {
        var host := accepted[from];
        accepted := accepted - {from};
        accepted := accepted[to := host];
      }
    }

    method NoteDocumentFor(path: string, hint: Option<int>, resume: bool, clock: Clock)
      modifies this
      ensures View() == NoteDocument(old(View()), path, hint, resume, clock) && (old(Valid()) ==> Valid())
    {
      hide Ids, MarkDocument;
      NotesKeepSecrets(View(), path, Update("", hint, false), Normal, resume, clock);
      if path !in records {
        return;
      }
      records := records[path := MarkDocument(records[path], hint, resume, clock)];
    }

    method NoteFailureFor(path: string, policy: Policy, clock: Clock)
      modifies this
      ensures View() == NoteFailure(old(View()), path, policy, clock) && (old(Valid()) ==> Valid())
    {
      hide Ids, MarkFailure;
      NotesKeepSecrets(View(), path, Update("", None, false), policy, false, clock);
      if path !in records {
        return;
      }
      records := records[path := MarkFailure(records[path], policy, clock)];
    }

    method NoteAppliedTo(path: string, update: Update, clock: Clock)
      modifies this
      ensures View() == NoteApplied(old(View()), path, update, clock) && (old(Valid()) ==> Valid())
    {
      hide Ids, MarkDocument;
      NoteAppliedKeepsSecrets(View(), path, update, clock);
      held := held - {path};
      accepted := accepted - {path};
      if path in records {
        records := records[path := records[path].(heldHostname := "")];
      }
      NoteDocumentFor(path, update.hint, update.manual, clock);
    }

    method RefreshSoonFor(path: string, clock: Clock)
      modifies this
      ensures View() == RefreshSoon(old(View()), path, clock) && (old(Valid()) ==> Valid())
    {
      hide Ids;
      NotesKeepSecrets(View(), path, Update("", None, false), Normal, false, clock);
      if path in records && records[path].autoRefresh {
        records := records[path := records[path].(nextAttemptAt := clock.now)];
      }
    }

    method HoldFor(path: string, update: Update)
      modifies this
      ensures View() == Hold(old(View()), path, update) && (old(Valid()) ==> Valid())
    {
      hide Ids;
      NotesKeepSecrets(View(), path, update, Normal, false, Clock(0, 0));
      held := held[path := update];
    }

    method HoldForHostnameOf(path: string, update: Update)
      modifies this
      ensures View() == HoldForHostname(old(View()), path, update) && (old(Valid()) ==> Valid())
    {
      hide Ids;
      NotesKeepSecrets(View(), path, update, Normal, false, Clock(0, 0));
      if path !in records {
        return;
      }
      held := held[path := update];
      accepted := accepted - {path};
      records := records[path := records[path].(heldHostname := update.host)];
    }

    method AnswerHostnameOf(path: string, accept: bool) returns (answered: bool)
      modifies this
      ensures View() == AnswerHostname(old(View()), path, accept)
      ensures answered == AwaitsAnswer(old(View()), path) && (old(Valid()) ==> Valid())
    {
      hide Ids;
      AnswerKeepsIds(View(), path, accept);
      if path !in records || records[path].heldHostname == "" {
        return false;
      }
      var record := records[path];
      if accept {
        accepted := accepted[path := record.heldHostname];
      } else {
        held := held - {path};
        record := record.(autoRefresh := false);
      }
      records := records[path := record.(heldHostname := "")];
      return true;
    }

    method SetBusyFor(path: string, on: bool)
      modifies this
      ensures View() == SetBusy(old(View()), path, on) && (old(Valid()) ==> Valid())
    {
      hide Ids;
      busy := if on then busy + {path} else busy - {path};
    }

    /** What start() does with the records of configs that are gone. */
    method Prune(gone: seq<string>)
      modifies this
      ensures View() == Pruned(old(View()), gone) && (old(Valid()) ==> Valid())
    {
      hide Ids, Shared;
      if old(Valid()) { PrunedAccounts(View(), gone); }
      var k := 0;
      assert gone[0..] == gone;
      while k < |gone|
        invariant 0 <= k <= |gone|
        invariant Pruned(View(), gone[k..]) == Pruned(old(View()), gone)
      {
        var path := gone[k];
        Tail(gone, k);
        if path in records {
          var sourceId := records[path].sourceId;
          records := records - {path};
          DropAddressUnlessShared(sourceId);
        }
        k := k + 1;
      }
    }
  }
}
