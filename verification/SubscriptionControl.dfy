/** The configs linked to a subscription: their records, the updates held for them, the
    servers the user accepted, and the addresses in the credential store
    (SubscriptionController.cpp). */
module SubscriptionControl {
  import opened Text

  // ---------- one record ----------

  const CHECK_SECONDS: int := 600
  const MAX_JITTER_SECONDS: int := 600
  const BACKOFF_SECONDS: seq<int> := [600, 1800, 7200]
  const DEFAULT_REFRESH_SECONDS: int := 86400
  const MIN_REFRESH_SECONDS: int := 3600
  const MAX_REFRESH_SECONDS: int := 604800

  datatype Policy = Normal | Backoff | ManualOnly

  datatype Record = Record(sourceId: string, heldHostname: string, autoRefresh: bool, lastAttemptAt: int,
                           nextAttemptAt: int, failures: nat, hintSeconds: int)

  /** The time, and the random part of the next wait. */
  datatype Clock = Clock(now: int, jitter: int) {
    predicate Fair() { 0 <= jitter <= MAX_JITTER_SECONDS }
  }

  function RefreshInterval(hint: Option<int>): (s: int)
    ensures MIN_REFRESH_SECONDS <= s <= MAX_REFRESH_SECONDS
  {
    if hint.None? || hint.value <= 0 then DEFAULT_REFRESH_SECONDS
    else if hint.value < MIN_REFRESH_SECONDS then MIN_REFRESH_SECONDS
    else if hint.value > MAX_REFRESH_SECONDS then MAX_REFRESH_SECONDS
    else hint.value
  }

  function MarkDocument(r: Record, hint: Option<int>, resume: bool, c: Clock): Record {
    r.(lastAttemptAt := c.now, failures := 0, hintSeconds := if hint.Some? then hint.value else 0,
       nextAttemptAt := c.now + RefreshInterval(hint) + c.jitter, autoRefresh := r.autoRefresh || resume)
  }

  function MarkFailure(r: Record, policy: Policy, c: Clock): Record {
    var failed := r.(lastAttemptAt := c.now, failures := r.failures + 1);
    if policy == ManualOnly then failed.(autoRefresh := false)
    else if policy == Backoff && failed.failures <= |BACKOFF_SECONDS| then
      failed.(nextAttemptAt := c.now + BACKOFF_SECONDS[failed.failures - 1])
    else
      var hint := if r.hintSeconds > 0 then Some(r.hintSeconds) else None;
      failed.(nextAttemptAt := c.now + RefreshInterval(hint) + c.jitter)
  }

  /** However an attempt ends, the next automatic one is at least a check away; after a document
      it is the operator's interval away, within its bounds and ten minutes of jitter. */
  lemma WaitsAfterAnAttempt(r: Record, hint: Option<int>, resume: bool, policy: Policy, c: Clock)
    requires c.Fair()
    ensures var d := MarkDocument(r, hint, resume, c);
      && d.lastAttemptAt == c.now && (d.autoRefresh <==> r.autoRefresh || resume)
      && MIN_REFRESH_SECONDS <= d.nextAttemptAt - c.now <= MAX_REFRESH_SECONDS + MAX_JITTER_SECONDS
    ensures var f := MarkFailure(r, policy, c);
      && f.lastAttemptAt == c.now && (f.autoRefresh <==> r.autoRefresh && policy != ManualOnly)
      && (policy != ManualOnly ==> f.nextAttemptAt - c.now >= CHECK_SECONDS)
      && (policy == Backoff && r.failures < 3 ==> f.nextAttemptAt - c.now == [600, 1800, 7200][r.failures])
  {
  }

  // ---------- the controller ----------

  /** A document fetched for a config; of its fields the host alone decides what happens. */
  datatype Update = Update(host: string, hint: Option<int>, manual: bool)

  datatype Controller = Controller(records: map<string, Record>, held: map<string, Update>,
                                   accepted: map<string, string>, busy: set<string>, store: map<string, string>)

  /** storeAddress(): a new entry, taken out again when it cannot be read back. */
  function StoreAddress(c: Controller, sourceId: string, url: string, stored: bool): Controller {
    c.(store := if stored then c.store[sourceId := url] else c.store - {sourceId})
  }

  function DeleteAddress(c: Controller, sourceId: string): Controller { c.(store := c.store - {sourceId}) }

  predicate Shared(records: map<string, Record>, sourceId: string) {
    exists p :: p in records && records[p].sourceId == sourceId
  }

  /** dropAddressUnlessShared() */
  function DropAddress(c: Controller, sourceId: string): Controller {
    if Shared(c.records, sourceId) then c else c.(store := c.store - {sourceId})
  }

  function SetRecord(c: Controller, path: string, r: Record): Controller {
    c.(records := c.records[path := r])
  }

  function NewRecord(sourceId: string): Record { Record(sourceId, "", true, 0, 0, 0, 0) }

  /** What an import was fetched with, or failed with. */
  datatype Outcome = Fetched(hint: Option<int>) | Failed(policy: Policy)

  function LinkedRecord(sourceId: string, outcome: Outcome, clock: Clock): Record {
    match outcome
    case Fetched(hint) => MarkDocument(NewRecord(sourceId), hint, true, clock)
    case Failed(policy) => MarkFailure(NewRecord(sourceId), policy, clock)
  }

  /** link(); `saved` says whether subscriptions.json could be written. */
  function Link(c: Controller, path: string, sourceId: string, outcome: Outcome, saved: bool, clock: Clock): Controller {
    if !saved then c
    else
      var linked := SetRecord(c, path, LinkedRecord(sourceId, outcome, clock));
      if path in c.records && c.records[path].sourceId != sourceId then DropAddress(linked, c.records[path].sourceId)
      else linked
  }

  lemma UnsavedLinkIsNone(c: Controller, path: string, sourceId: string, outcome: Outcome, clock: Clock)
    ensures Link(c, path, sourceId, outcome, false, clock) == c
  {
  }

  function Forget(c: Controller, path: string): Controller {
    var let := c.(held := c.held - {path}, accepted := c.accepted - {path});
    if path !in c.records then let
    else DropAddress(let.(records := c.records - {path}), c.records[path].sourceId)
  }

  /** The entry of `from` moves to `to`, over what `to` had; without one, `to` keeps its own. */
  function Moved<T>(m: map<string, T>, from: string, to: string): map<string, T> {
    if from in m then (m - {from})[to := m[from]] else m
  }

  function Rename(c: Controller, from: string, to: string): Controller {
    if from == to || from !in c.records then c
    else
      c.(records := Moved(c.records, from, to), held := Moved(c.held, from, to),
         accepted := Moved(c.accepted, from, to))
  }

  function NoteDocument(c: Controller, path: string, hint: Option<int>, resume: bool, clock: Clock): Controller {
    if path !in c.records then c else SetRecord(c, path, MarkDocument(c.records[path], hint, resume, clock))
  }

  function NoteFailure(c: Controller, path: string, policy: Policy, clock: Clock): Controller {
    if path !in c.records then c else SetRecord(c, path, MarkFailure(c.records[path], policy, clock))
  }

  function ClearHeldHostname(c: Controller, path: string): Controller {
    if path !in c.records then c else SetRecord(c, path, c.records[path].(heldHostname := ""))
  }

  function NoteApplied(c: Controller, path: string, u: Update, clock: Clock): Controller {
    var let := c.(held := c.held - {path}, accepted := c.accepted - {path});
    NoteDocument(ClearHeldHostname(let, path), path, u.hint, u.manual, clock)
  }

  function RefreshSoon(c: Controller, path: string, clock: Clock): Controller {
    if path !in c.records || !c.records[path].autoRefresh then c
    else SetRecord(c, path, c.records[path].(nextAttemptAt := clock.now))
  }

  function Hold(c: Controller, path: string, u: Update): Controller { c.(held := c.held[path := u]) }

  function HoldForHostname(c: Controller, path: string, u: Update): Controller {
    if path !in c.records then c
    else
      SetRecord(c.(held := c.held[path := u], accepted := c.accepted - {path}), path,
                c.records[path].(heldHostname := u.host))
  }

  predicate AwaitsAnswer(c: Controller, path: string) { path in c.records && c.records[path].heldHostname != "" }

  function AnswerHostname(c: Controller, path: string, accept: bool): Controller {
    if !AwaitsAnswer(c, path) then c
    else
      var r := c.records[path];
      if accept then
        SetRecord(c.(accepted := c.accepted[path := r.heldHostname]), path, r.(heldHostname := ""))
      else
        SetRecord(c.(held := c.held - {path}), path, r.(heldHostname := "", autoRefresh := false))
  }

  function SetBusy(c: Controller, path: string, busy: bool): Controller {
    c.(busy := if busy then c.busy + {path} else c.busy - {path})
  }

  /** What is done at start: the records of configs that are gone go, their addresses with them. */
  function Pruned(c: Controller, gone: seq<string>): Controller
    decreases |gone|
  {
    if gone == [] then c
    else
      var path := gone[0];
      var next :=
        if path !in c.records then c
        else DropAddress(c.(records := c.records - {path}), c.records[path].sourceId);
      Pruned(next, gone[1..])
  }
}
