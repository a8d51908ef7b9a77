/** What beginning, aborting and finishing a fetch come to, fetch by fetch. */
module FetchOutcomes {
  import opened Text
  import opened FetchScheduler

  /** A fetch for this key waits or runs. */
  predicate IsOut(s: State, key: string) {
    exists f :: f in s.queued + s.running && f.key == key
  }

  lemma OutIsFetching(s: State, key: string)
    ensures IsFetching(s, key) <==> IsOut(s, key)
  {
    if i :| 0 <= i < |s.queued| && s.queued[i].key == key { assert s.queued[i] in s.queued; }
    if i :| 0 <= i < |s.running| && s.running[i].key == key { assert s.running[i] in s.running; }
  }

  lemma RunOne(s: State, key: string, manual: bool)
    ensures Run(s, [Begin(key, manual)]) == BeginFetch(s, key, manual) && Run(s, [Abort(key)]) == AbortFetch(s, key)
  {
    assert [Begin(key, manual)][1..] == [] && [Abort(key)][1..] == [];
  }

  /** What runs takes from the front of the queue until two run. */
  lemma {:induction false} PumpTakes(s: State)
    requires |s.running| <= 2
    ensures Pump(s) == Taking(s, if |s.queued| < 2 - |s.running| then |s.queued| else 2 - |s.running|)
    decreases |s.queued|
  {
    hide Taking;
    if |s.running| < 2 && s.queued != [] {
      var n := if |s.queued| < 2 - |s.running| then |s.queued| else 2 - |s.running|;
      TakingOne(s, n);
      PumpTakes(Taking(s, 1));
    } else {
      TakingNone(s);
    }
  }

  /** With the first `n` that wait moved over to those that run. */
  function Taking(s: State, n: nat): State
    requires n <= |s.queued|
  {
    s.(queued := s.queued[n..], running := s.running + s.queued[..n], started := s.started + s.queued[..n])
  }

  lemma TakingNone(s: State)
    ensures Taking(s, 0) == s
  {
    RightUnit(s.running);
    RightUnit(s.started);
    assert s.queued[..0] == [] && s.queued[0..] == s.queued;
  }

  lemma TakingOne(s: State, n: nat)
    requires 1 <= n <= |s.queued|
    ensures Taking(s, 1) ==
      s.(queued := s.queued[1..], running := s.running + [s.queued[0]], started := s.started + [s.queued[0]])
    ensures Taking(Taking(s, 1), n - 1) == Taking(s, n)
  {
    assert s.queued[..1] == [s.queued[0]];
    OneTaken(s.running, s.queued, n);
    OneTaken(s.started, s.queued, n);
  }

  lemma OneTaken<T>(taken: seq<T>, left: seq<T>, n: nat)
    requires 1 <= n <= |left|
    ensures taken + [left[0]] + left[1..][..n - 1] == taken + left[..n] && left[1..][n - 1..] == left[n..]
  {
  }

  /** A fetch begun, when none for its key is out: it is accepted under the next number, with its key
      and who asked for it; it runs at once when fewer than two do, and waits behind the others
      otherwise. When one is out nothing changes. */
  lemma BeginDoes(s: State, key: string, manual: bool)
    requires |s.running| <= 2 && Full(s)
    ensures var r := Run(s, [Begin(key, manual)]); var f := Fetch(key, manual, |s.accepted|);
      if IsOut(s, key) then r == s
      else
        && r.accepted == s.accepted + [f] && r.finished == s.finished && r.aborted == s.aborted
        && (if |s.running| < 2 then
              r.queued == s.queued && r.running == s.running + [f] && r.started == s.started + [f]
            else r.queued == s.queued + [f] && r.running == s.running && r.started == s.started)
  {
    hide Pump, IsFetching, IsOut;
    OutIsFetching(s, key);
    RunOne(s, key, manual);
    var a := Accepting(s, key, manual);
    PumpTakes(a);
    if |s.running| < 2 {
      EmptyPlus([Fetch(key, manual, |s.accepted|)]);
      assert a.queued[..1] == a.queued && a.queued[1..] == [];
    } else {
      assert a.queued[..0] == [] && a.queued[0..] == a.queued;
      RightUnit(s.running);
      RightUnit(s.started);
    }
  }

  /** A fetch aborted is out no more and counts as aborted; the others stay, and those that waited
      first run in its place. */
  lemma AbortDoes(s: State, key: string)
    requires |s.running| <= 2
    ensures var r := Run(s, [Abort(key)]);
      && !IsOut(r, key) && r.accepted == s.accepted && r.finished == s.finished
      && (forall f :: f in r.aborted <==> f in s.aborted || ((f in s.queued || f in s.running) && f.key == key))
      && (forall f :: f in r.queued || f in r.running <==> (f in s.queued || f in s.running) && f.key != key)
      && (forall f :: f in s.running && f.key != key ==> f in r.running)
      && (r.queued != [] ==> |r.running| == 2)
  {
    hide Pump, Without, Having, HasKey;
    RunOne(s, key, false);
    WithoutParts(s.queued, key);
    WithoutParts(s.running, key);
    WithoutShrinks(s, key);
    Refills(Dropping(s, key));
  }

  lemma WithoutShrinks(s: State, key: string)
    ensures var d := Dropping(s, key);
      && |d.running| <= |s.running| && d.accepted == s.accepted && d.finished == s.finished
      && (forall f :: f in d.aborted <==> f in s.aborted || ((f in s.queued || f in s.running) && f.key == key))
      && (forall f :: f in d.running <==> f in s.running && f.key != key)
      && (forall f :: f in d.queued <==> f in s.queued && f.key != key)
  {
    hide Without, Having;
    WithoutParts(s.queued, key);
    WithoutParts(s.running, key);
  }

  lemma Refills(d: State)
    requires |d.running| <= 2
    ensures var r := Pump(d);
      && r.accepted == d.accepted && r.finished == d.finished && r.aborted == d.aborted
      && (forall f :: f in r.queued || f in r.running <==> f in d.queued || f in d.running)
      && (forall f :: f in d.running ==> f in r.running) && (r.queued != [] ==> |r.running| == 2)
  {
    hide Pump;
    PumpTakes(d);
    var n := if |d.queued| < 2 - |d.running| then |d.queued| else 2 - |d.running|;
    assert d.queued == d.queued[..n] + d.queued[n..];
  }

  /** A fetch that finishes is out no more and counts as finished, and the first that waited runs. */
  lemma FinishDoes(s: State, i: nat)
    requires Good(s) && i < |s.running|
    ensures var job := s.running[i]; var r := Run(s, [Finish(job.id, [])]);
      && r.finished == s.finished + [job] && r.accepted == s.accepted && r.aborted == s.aborted
      && (if s.queued == [] then r.queued == [] && r.running == s.running[..i] + s.running[i + 1..]
          else r.queued == s.queued[1..] && r.running == s.running[..i] + s.running[i + 1..] + [s.queued[0]])
  {
    var job := s.running[i];
    var k := IndexOfId(s.running, job.id);
    IdsDiffer(s, i, k);
    var e := Ending(s, i);
    assert [Finish(job.id, [])][1..] == [];
    assert Run(e, []) == e;
    PumpTakes(e);
    if s.queued != [] {
      assert |s.running| == 2 && s.queued[..1] == [s.queued[0]];
    } else {
      RightUnit(e.running);
    }
  }

  lemma IdsDiffer(s: State, i: nat, k: nat)
    requires Good(s) && i < |s.running| && k <= i && s.running[k].id == s.running[i].id
    ensures k == i
  {
    Known(s, s.running[i]);
    Known(s, s.running[k]);
    var all := s.queued + s.running;
    assert all[|s.queued| + k] == s.running[k] && all[|s.queued| + i] == s.running[i];
  }
}
