/** At most two fetches at a time, the others in a queue: SubscriptionController's scheduler,
    with finish handlers that start and abort fetches of their own. */
module FetchScheduler {
  import opened Text

  const MAX_FETCHES: nat := 2

  /** One accepted fetch; its number stands for the fetcher made for it. */
  datatype Fetch = Fetch(key: string, manual: bool, id: nat)

  /** The queue and what runs, and what became of every fetch so far. */
  datatype State = State(queued: seq<Fetch>, running: seq<Fetch>, accepted: seq<Fetch>, started: seq<Fetch>,
                         finished: seq<Fetch>, aborted: seq<Fetch>)

  /** What is asked of the scheduler: a finished fetch runs its handler before the next starts. */
  datatype Op =
    | Begin(key: string, manual: bool)
    | Abort(key: string)
    | Finish(id: nat, handler: seq<Op>)

  const IDLE := State([], [], [], [], [], [])

  // ---------- one operation ----------

  predicate HasKey(s: seq<Fetch>, key: string) {
    exists i :: 0 <= i < |s| && s[i].key == key
  }

  predicate IsFetching(s: State, key: string) { HasKey(s.queued, key) || HasKey(s.running, key) }

  function Without(s: seq<Fetch>, key: string): seq<Fetch> {
    if s == [] then [] else (if s[0].key == key then [] else [s[0]]) + Without(s[1..], key)
  }

  function Having(s: seq<Fetch>, key: string): seq<Fetch> {
    if s == [] then [] else (if s[0].key == key then [s[0]] else []) + Having(s[1..], key)
  }

  /** Starts what there is room for, first come first served. */
  function Pump(s: State): State
    decreases |s.queued|
  {
    if |s.running| < MAX_FETCHES && s.queued != [] then
      Pump(s.(queued := s.queued[1..], running := s.running + [s.queued[0]], started := s.started + [s.queued[0]]))
    else s
  }

  function Accepting(s: State, key: string, manual: bool): State {
    var job := Fetch(key, manual, |s.accepted|);
    s.(queued := s.queued + [job], accepted := s.accepted + [job])
  }

  function BeginFetch(s: State, key: string, manual: bool): State {
    if IsFetching(s, key) then s else Pump(Accepting(s, key, manual))
  }

  function Dropping(s: State, key: string): State {
    s.(queued := Without(s.queued, key), running := Without(s.running, key),
       aborted := s.aborted + Having(s.queued, key) + Having(s.running, key))
  }

  function AbortFetch(s: State, key: string): State { Pump(Dropping(s, key)) }

  function IndexOfId(s: seq<Fetch>, id: nat): (r: nat)
    ensures r <= |s|
    ensures r < |s| ==> s[r].id == id
    ensures forall i :: 0 <= i < r ==> s[i].id != id
  {
    if s == [] || s[0].id == id then 0 else 1 + IndexOfId(s[1..], id)
  }

  function Ending(s: State, i: nat): State
    requires i < |s.running|
  {
    s.(running := s.running[..i] + s.running[i + 1..], finished := s.finished + [s.running[i]])
  }

  function Run(s: State, ops: seq<Op>): State
    decreases ops
  {
    if ops == [] then s
    else
      var next :=
        match ops[0]
        case Begin(key, manual) => BeginFetch(s, key, manual)
        case Abort(key) => AbortFetch(s, key)
        case Finish(id, handler) =>
          var i := IndexOfId(s.running, id);
          if i == |s.running| then s else Pump(Run(Ending(s, i), handler));
      Run(next, ops[1..])
  }

  // ---------- what every operation keeps ----------

  ghost predicate UniqueKeys(s: seq<Fetch>) {
    forall i, j :: 0 <= i < j < |s| ==> s[i].key != s[j].key
  }

  ghost predicate Increasing(s: seq<Fetch>) {
    forall i, j :: 0 <= i < j < |s| ==> s[i].id < s[j].id
  }

  ghost predicate Numbered(s: seq<Fetch>) {
    forall i :: 0 <= i < |s| ==> s[i].id == i
  }

  /** Each accepted fetch is in one place: waiting, running, finished or aborted. */
  ghost predicate Conserved(s: State) {
    multiset(s.accepted) == multiset(s.queued) + multiset(s.running) + multiset(s.finished) + multiset(s.aborted)
  }

  /** Fetches start in the order they were accepted, and none is started that was not. */
  ghost predicate InOrder(s: State) {
    && Increasing(s.started + s.queued) && (forall f :: f in s.running ==> f in s.started)
    && forall f :: f in s.started ==> f.id < |s.accepted|
  }

  ghost predicate Sound(s: State) {
    && |s.running| <= MAX_FETCHES && UniqueKeys(s.queued + s.running)
    && Numbered(s.accepted) && Conserved(s) && InOrder(s)
  }

  predicate Full(s: State) { s.queued != [] ==> |s.running| == MAX_FETCHES }

  ghost predicate Good(s: State) { Sound(s) && Full(s) }

  /** Every fetch known is one that was accepted, with its number. */
  lemma Known(s: State, f: Fetch)
    requires Sound(s) && (f in s.queued || f in s.running || f in s.finished || f in s.aborted)
    ensures f.id < |s.accepted| && s.accepted[f.id] == f
  {
    assert multiset(s.accepted)[f] > 0;
    assert f in s.accepted;
  }

  lemma StartOneKeepsSound(s: State)
    requires Sound(s) && |s.running| < MAX_FETCHES && s.queued != []
    ensures Sound(s.(queued := s.queued[1..], running := s.running + [s.queued[0]],
                     started := s.started + [s.queued[0]]))
  {
    var job, rest := s.queued[0], s.queued[1..];
    Cons(s.queued);
    Known(s, job);
    Assoc(s.started, [job], rest);
    KeysMoved(job, rest, s.running);
    assert multiset([job] + rest) == multiset{job} + multiset(rest);
  }

  lemma KeysMoved(job: Fetch, rest: seq<Fetch>, running: seq<Fetch>)
    requires UniqueKeys([job] + rest + running)
    ensures UniqueKeys(rest + (running + [job]))
  {
    var was, now := [job] + rest + running, rest + (running + [job]);
    forall i, j | 0 <= i < j < |now| ensures now[i].key != now[j].key {
      assert now[i] == was[i + 1];
      assert now[j] == if j == |now| - 1 then was[0] else was[j + 1];
    }
  }

  lemma {:induction false} PumpMakesGood(s: State)
    requires Sound(s)
    ensures Good(Pump(s))
    decreases |s.queued|
  {
    if |s.running| < MAX_FETCHES && s.queued != [] {
      StartOneKeepsSound(s);
      PumpMakesGood(s.(queued := s.queued[1..], running := s.running + [s.queued[0]],
                       started := s.started + [s.queued[0]]));
    }
  }

  lemma AcceptingKeepsSound(s: State, key: string, manual: bool)
    requires Sound(s) && !IsFetching(s, key)
    ensures Sound(Accepting(s, key, manual))
  {
    var job := Fetch(key, manual, |s.accepted|);
    forall f | f in s.queued ensures f.id < job.id { Known(s, f); }
    KeysAdded(s.queued, job, s.running);
    LastIsLater(s.started + s.queued, job);
    Assoc(s.started, s.queued, [job]);
  }

  lemma KeysAdded(queued: seq<Fetch>, job: Fetch, running: seq<Fetch>)
    requires UniqueKeys(queued + running) && !HasKey(queued, job.key) && !HasKey(running, job.key)
    ensures UniqueKeys(queued + [job] + running)
  {
    var was, now, k := queued + running, queued + [job] + running, |queued|;
    forall i, j | 0 <= i < j < |now| ensures now[i].key != now[j].key {
      assert i < k ==> now[i] == queued[i] == was[i];
      assert i > k ==> now[i] == was[i - 1] == running[i - k - 1];
      assert j < k ==> now[j] == was[j];
      assert j > k ==> now[j] == was[j - 1] == running[j - k - 1];
    }
  }

  lemma LastIsLater(s: seq<Fetch>, job: Fetch)
    requires Increasing(s) && forall f :: f in s ==> f.id < job.id
    ensures Increasing(s + [job])
  {
    forall i, j | 0 <= i < j < |s + [job]| ensures (s + [job])[i].id < (s + [job])[j].id {
      assert s[i] in s;
    }
  }

  lemma UniqueDrop(a: seq<Fetch>, x: Fetch, c: seq<Fetch>)
    requires UniqueKeys(a + [x] + c)
    ensures UniqueKeys(a + c)
  {
    var was, now, k := a + [x] + c, a + c, |a|;
    forall i, j | 0 <= i < j < |now| ensures now[i].key != now[j].key {
      assert now[i] == if i < k then was[i] else was[i + 1];
      assert now[j] == if j < k then was[j] else was[j + 1];
    }
  }

  lemma IncreasingDrop(a: seq<Fetch>, x: Fetch, c: seq<Fetch>)
    requires Increasing(a + [x] + c)
    ensures Increasing(a + c)
  {
    var was, now, k := a + [x] + c, a + c, |a|;
    forall i, j | 0 <= i < j < |now| ensures now[i].id < now[j].id {
      assert now[i] == if i < k then was[i] else was[i + 1];
      assert now[j] == if j < k then was[j] else was[j + 1];
    }
  }

  lemma {:induction false} WithoutParts(s: seq<Fetch>, key: string)
    ensures multiset(Without(s, key)) + multiset(Having(s, key)) == multiset(s)
    ensures |Without(s, key)| <= |s| && !HasKey(Without(s, key), key)
    ensures forall f :: f in Without(s, key) <==> f in s && f.key != key
    ensures forall f :: f in Having(s, key) <==> f in s && f.key == key
  {
    if s != [] {
      WithoutParts(s[1..], key);
      Cons(s);
      var rest, out := Without(s[1..], key), Having(s[1..], key);
      EmptyPlus(rest);
      EmptyPlus(out);
    }
  }

  lemma {:induction false} WithoutKeepsUnique(a: seq<Fetch>, b: seq<Fetch>, c: seq<Fetch>, key: string)
    requires UniqueKeys(a + b + c)
    ensures UniqueKeys(a + Without(b, key) + c)
    decreases |b|
  {
    if b != [] {
      var x, rest := [b[0]], b[1..];
      Cons(b);
      assert a + b + c == a + x + (rest + c);
      assert a + b + c == (a + x) + rest + c;
      if b[0].key == key {
        UniqueDrop(a, b[0], rest + c);
        Assoc(a, rest, c);
        WithoutKeepsUnique(a, rest, c, key);
        EmptyPlus(Without(rest, key));
      } else {
        WithoutKeepsUnique(a + x, rest, c, key);
        Assoc(a, x, Without(rest, key));
      }
    }
  }

  lemma {:induction false} WithoutKeepsIncreasing(a: seq<Fetch>, b: seq<Fetch>, key: string)
    requires Increasing(a + b)
    ensures Increasing(a + Without(b, key))
    decreases |b|
  {
    if b != [] {
      var x, rest := [b[0]], b[1..];
      Cons(b);
      Assoc(a, x, rest);
      if b[0].key == key {
        IncreasingDrop(a, b[0], rest);
        WithoutKeepsIncreasing(a, rest, key);
        EmptyPlus(Without(rest, key));
      } else {
        WithoutKeepsIncreasing(a + x, rest, key);
        Assoc(a, x, Without(rest, key));
      }
    }
  }

  lemma DroppingKeepsKeys(queued: seq<Fetch>, running: seq<Fetch>, key: string)
    requires UniqueKeys(queued + running)
    ensures UniqueKeys(Without(queued, key) + Without(running, key))
  {
    hide UniqueKeys;
    var q, r := Without(queued, key), Without(running, key);
    EmptyPlus(queued + running);
    EmptyPlus(queued);
    WithoutKeepsUnique([], queued, running, key);
    EmptyPlus(q);
    RightUnit(q + running);
    WithoutKeepsUnique(q, running, [], key);
    RightUnit(q + r);
  }

  lemma DroppingConserves(s: State, key: string)
    requires Conserved(s)
    ensures Conserved(Dropping(s, key))
  {
    hide Without, Having;
    WithoutParts(s.queued, key);
    WithoutParts(s.running, key);
  }

  lemma DroppingKeepsSound(s: State, key: string)
    requires Sound(s)
    ensures Sound(Dropping(s, key)) && !IsFetching(Dropping(s, key), key)
  {
    hide Without, Having, UniqueKeys, Increasing, HasKey, Conserved;
    DroppingKeepsKeys(s.queued, s.running, key);
    DroppingConserves(s, key);
    WithoutParts(s.queued, key);
    WithoutParts(s.running, key);
    WithoutKeepsIncreasing(s.started, s.queued, key);
  }

  lemma EndingKeepsSound(s: State, i: nat)
    requires Sound(s) && i < |s.running|
    ensures Sound(Ending(s, i))
  {
    var front, job, back := s.running[..i], s.running[i], s.running[i + 1..];
    assert s.running == front + [job] + back;
    assert s.queued + s.running == (s.queued + front) + [job] + back;
    UniqueDrop(s.queued + front, job, back);
    Assoc(s.queued, front, back);
  }

  /** Every sequence of operations keeps this, from inside a finish handler too; and outside
      one, nothing waits while there is room. */
  lemma {:induction false} RunKeepsSound(s: State, ops: seq<Op>)
    requires Sound(s)
    ensures Sound(Run(s, ops)) && (Full(s) ==> Full(Run(s, ops)))
    decreases ops
  {
    hide Sound, Full;
    if ops != [] {
      match ops[0]
      case Begin(key, manual) =>
        if !IsFetching(s, key) {
          AcceptingKeepsSound(s, key, manual);
          PumpMakesGood(Accepting(s, key, manual));
        }
        RunKeepsSound(BeginFetch(s, key, manual), ops[1..]);
      case Abort(key) =>
        DroppingKeepsSound(s, key);
        PumpMakesGood(Dropping(s, key));
        RunKeepsSound(AbortFetch(s, key), ops[1..]);
      case Finish(id, handler) =>
        var i := IndexOfId(s.running, id);
        if i < |s.running| {
          EndingKeepsSound(s, i);
          RunKeepsSound(Ending(s, i), handler);
          PumpMakesGood(Run(Ending(s, i), handler));
          RunKeepsSound(Pump(Run(Ending(s, i), handler)), ops[1..]);
        } else {
          RunKeepsSound(s, ops[1..]);
        }
    }
  }

  // ---------- what that means for any run ----------

  lemma EveryRunIsGood(ops: seq<Op>)
    ensures Good(Run(IDLE, ops))
  {
    RunKeepsSound(IDLE, ops);
  }

  /** In any run each accepted fetch ends at most once, finished or aborted, and has ended
      just when it neither waits nor runs. */
  lemma EndsExactlyOnce(ops: seq<Op>, id: nat)
    requires var s := Run(IDLE, ops); id < |s.accepted|
    ensures var s := Run(IDLE, ops);
      var ends := multiset(s.finished)[s.accepted[id]] + multiset(s.aborted)[s.accepted[id]];
      ends <= 1 && (ends == 1 <==> s.accepted[id] !in s.queued && s.accepted[id] !in s.running)
  {
    hide Run;
    EveryRunIsGood(ops);
    var s := Run(IDLE, ops);
    OnceAccepted(s.accepted, id);
    assert multiset(s.accepted)[s.accepted[id]] == 1;
  }

  lemma {:induction false} OnceAccepted(s: seq<Fetch>, id: nat)
    requires id < |s| && Numbered(s)
    ensures multiset(s)[s[id]] == 1
  {
    var f, front, back := s[id], s[..id], s[id + 1..];
    assert s == front + [f] + back;
    assert f !in front;
    assert f !in back;
  }

  /** What has happened stays: histories only grow. */
  ghost predicate Grown(s: State, t: State) {
    s.accepted <= t.accepted && s.started <= t.started && s.finished <= t.finished && s.aborted <= t.aborted
  }

  lemma {:induction false} PumpGrows(s: State)
    ensures Grown(s, Pump(s)) && Pump(s).accepted == s.accepted
    decreases |s.queued|
  {
    if |s.running| < MAX_FETCHES && s.queued != [] {
      PumpGrows(s.(queued := s.queued[1..], running := s.running + [s.queued[0]],
                   started := s.started + [s.queued[0]]));
    }
  }

  lemma {:induction false} RunGrows(s: State, ops: seq<Op>)
    ensures Grown(s, Run(s, ops))
    decreases ops
  {
    if ops != [] {
      match ops[0]
      case Begin(key, manual) =>
        PumpGrows(Accepting(s, key, manual));
        RunGrows(BeginFetch(s, key, manual), ops[1..]);
      case Abort(key) =>
        PumpGrows(Dropping(s, key));
        RunGrows(AbortFetch(s, key), ops[1..]);
      case Finish(id, handler) =>
        var i := IndexOfId(s.running, id);
        if i < |s.running| {
          RunGrows(Ending(s, i), handler);
          PumpGrows(Run(Ending(s, i), handler));
          RunGrows(Pump(Run(Ending(s, i), handler)), ops[1..]);
        } else {
          RunGrows(s, ops[1..]);
        }
    }
  }

  /** After an abort nothing of that key waits or runs, every fetch it ended is of that key,
      and the others are where they were or have started. */
  lemma AbortEndsItsKeyOnly(s: State, key: string)
    requires Sound(s)
    ensures !IsFetching(AbortFetch(s, key), key)
    ensures forall f :: f in AbortFetch(s, key).aborted ==> f in s.aborted || f.key == key
    ensures forall f :: (f in s.queued || f in s.running) && f.key != key ==>
      f in AbortFetch(s, key).queued || f in AbortFetch(s, key).running
  {
    var t := Dropping(s, key);
    WithoutParts(s.queued, key);
    WithoutParts(s.running, key);
    DroppingKeepsSound(s, key);
    PumpMovesOnly(t);
    forall i | 0 <= i < |Pump(t).queued| ensures Pump(t).queued[i].key != key {
      assert Pump(t).queued[i] in Pump(t).queued;
    }
    forall i | 0 <= i < |Pump(t).running| ensures Pump(t).running[i].key != key {
      assert Pump(t).running[i] in Pump(t).running;
    }
  }

  lemma {:induction false} PumpMovesOnly(s: State)
    ensures forall f :: f in s.queued || f in s.running <==> f in Pump(s).queued || f in Pump(s).running
    ensures Pump(s).aborted == s.aborted && Pump(s).finished == s.finished
    decreases |s.queued|
  {
    if |s.running| < MAX_FETCHES && s.queued != [] {
      Cons(s.queued);
      PumpMovesOnly(s.(queued := s.queued[1..], running := s.running + [s.queued[0]],
                       started := s.started + [s.queued[0]]));
    }
  }

  // ---------- the scheduler ----------

  /** The two lists it updates in place, and ghost histories of what became of each fetch. */
  class Scheduler {
    var queued: seq<Fetch>
    var running: seq<Fetch>
    var count: nat
    ghost var accepted: seq<Fetch>
    ghost var started: seq<Fetch>
    ghost var finished: seq<Fetch>
    ghost var aborted: seq<Fetch>

    ghost function View(): State
      reads this
    {
      State(queued, running, accepted, started, finished, aborted)
    }

    ghost predicate Valid()
      reads this
    {
      count == |accepted|
    }

    constructor ()
      ensures Valid() && View() == IDLE
    {
      queued, running, count := [], [], 0;
      accepted, started, finished, aborted := [], [], [], [];
    }

    method StartQueued()
      requires Valid()
      modifies this
      ensures Valid() && View() == Pump(old(View()))
    {
      while |running| < MAX_FETCHES && queued != []
        invariant Valid() && Pump(View()) == Pump(old(View()))
        decreases |queued|
      {
        var job := queued[0];
        queued, running, started := queued[1..], running + [job], started + [job];
      }
    }

    method BeginOne(key: string, manual: bool) returns (ok: bool)
      requires Valid()
      modifies this
      ensures Valid() && View() == BeginFetch(old(View()), key, manual)
      ensures ok == !IsFetching(old(View()), key)
    {
      ok := !HasKey(queued, key) && !HasKey(running, key);
      if !ok {
        return;
      }
      var job := Fetch(key, manual, count);
      queued, accepted, count := queued + [job], accepted + [job], count + 1;
      StartQueued();
    }

    method AbortAll(key: string)
      requires Valid()
      modifies this
      ensures Valid() && View() == AbortFetch(old(View()), key)
    {
      ghost var was := View();
      aborted := aborted + Having(queued, key) + Having(running, key);
      queued := Without(queued, key);
      var i := |running|;
      assert running[i..] == [] && running[..i] == running;
      RightUnit(running);
      assert Without(running[i..], key) == [];
      hide Without, Having, Pump;
      while i > 0
        invariant 0 <= i <= |was.running| && i <= |running|
        invariant running == was.running[..i] + Without(was.running[i..], key)
        invariant queued == Without(was.queued, key) && count == |accepted| && accepted == was.accepted
        invariant started == was.started && finished == was.finished
        invariant aborted == was.aborted + Having(was.queued, key) + Having(was.running, key)
        decreases i
      {
        i := i - 1;
        TakeAt(was.running, i, key);
        if running[i].key != key {
          continue;
        }
        running := running[..i] + running[i + 1..];
      }
      assert was.running[..0] == [] && was.running[0..] == was.running;
      EmptyPlus(Without(was.running, key));
      StartQueued();
    }

    method OnFetched(id: nat, handler: seq<Op>)
      requires Valid()
      modifies this
      ensures Valid() && View() == Run(old(View()), [Finish(id, handler)])
      decreases handler, 1
    {
      var i := IndexOfId(running, id);
      assert [Finish(id, handler)][1..] == [];
      if i == |running| {
        return;
      }
      finished := finished + [running[i]];
      running := running[..i] + running[i + 1..];
      RunHandler(handler);
      StartQueued();
    }

    method RunHandler(ops: seq<Op>)
      requires Valid()
      modifies this
      ensures Valid() && View() == Run(old(View()), ops)
      decreases ops, 0
    {
      if ops == [] {
        return;
      }
      match ops[0] {
        case Begin(key, manual) =>
          var _ := BeginOne(key, manual);
        case Abort(key) =>
          AbortAll(key);
        case Finish(id, handler) =>
          OnFetched(id, handler);
          assert [Finish(id, handler)][1..] == [];
      }
      RunHandler(ops[1..]);
    }
  }

  lemma TakeAt(s: seq<Fetch>, i: nat, key: string)
    requires i < |s|
    ensures var rest := Without(s[i + 1..], key);
      && s[..i + 1] + rest == s[..i] + ([s[i]] + rest)
      && (s[..i + 1] + rest)[i] == s[i]
      && (s[..i + 1] + rest)[..i] + (s[..i + 1] + rest)[i + 1..] == s[..i] + rest
      && Without(s[i..], key) == (if s[i].key == key then [] else [s[i]]) + rest
  {
    Tail(s, i);
    assert s[..i + 1] == s[..i] + [s[i]];
  }
}
