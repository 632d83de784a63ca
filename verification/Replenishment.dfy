/**
 Replenishment runs one at a time: each is asked for when the ones before it are over. Then the guard of
 module Prekeys holds by itself, the pool never holds more than one batch on top of a low pool, and a run
 that gets through refills the pool exactly if it found it below the watermark.
 */
module Replenishment {
  import opened Wrappers
  import opened Crypto
  import opened X3dh
  import opened Prekeys

  predicate Idle(p: Pool) {
    forall i :: 0 <= i < |p.runs| ==> p.runs[i].Done?
  }

  /** No run is started before the others are over. */
  predicate OneAtATime(p: Pool, acts: seq<Action>)
    decreases |acts|
  {
    acts == [] || ((acts[0].Ask? ==> Idle(p)) && OneAtATime(Step(p, acts[0]), acts[1..]))
  }

  /** What the pool may hold when it held n keys at first: these, or a batch on top of a low pool. */
  function Most(n: nat): nat {
    if n > LOW_WATERMARK - 1 + REPLENISH_COUNT then n else LOW_WATERMARK - 1 + REPLENISH_COUNT
  }

  /** What a run in this state knows of the pool's size. */
  predicate SizeKnown(run: Run, size: nat) {
    match run
    case Counted(count) => size <= count
    case Uploading(batch) => size < LOW_WATERMARK && |batch| == REPLENISH_COUNT
    case _ => true
  }

  ghost predicate SupplyOk(p: Pool, n: nat) {
    && |p.rows| <= Most(n)
    && (forall i, j :: 0 <= i < |p.runs| && 0 <= j < |p.runs| && !p.runs[i].Done? && !p.runs[j].Done? ==> i == j)
    && (forall i :: 0 <= i < |p.runs| ==> SizeKnown(p.runs[i], |p.rows|))
  }

  lemma {:induction false} StoreAdds(pool: seq<OneTimePublic>, keys: seq<OneTimePublic>)
    ensures |Store(pool, keys)| <= |pool| + |keys|
  {
    if keys != [] {
      StoreAdds(pool, keys[..|keys| - 1]);
    }
  }

  lemma {:induction false} GoodAtMost(batch: seq<OneTimePrivate>, bad: set<nat>)
    ensures |Good(batch, bad)| <= |batch|
  {
    if batch != [] {
      GoodAtMost(batch[..|batch| - 1], bad);
    }
  }

  lemma StepSupply(p: Pool, a: Action, n: nat)
    requires SupplyOk(p, n) && (a.Ask? ==> Idle(p))
    ensures SupplyOk(Step(p, a), n)
    ensures a.Generate? && Step(p, a) != p ==> Clear(p)
  {
    hide Store, Publics, Good, Refused, Reached, Batch, MaxId;
    match a
    case StoreBatch(i, bad) =>
      if i < |p.runs| && p.runs[i].Uploading? {
        var batch := p.runs[i].batch;
        GoodAtMost(batch, bad);
        StoreAdds(p.rows, Publics(Good(batch, bad)));
        PublicsSize(Good(batch, bad));
      }
    case Generate(i, random) => BatchSize(MaxId(p.privs) + 1, random);
    case _ =>
  }

  lemma PublicsSize(keys: seq<OneTimePrivate>)
    ensures |Publics(keys)| == |keys|
  {
  }

  lemma BatchSize(start: nat, random: seq<nat>)
    ensures |Batch(start, random)| == |random|
  {
  }
  lemma StepPool(p: Pool, a: Action, n: nat)
    requires PoolOk(p) && SupplyOk(p, n) && (a.Ask? ==> Idle(p))
    ensures PoolOk(Step(p, a))
  {
    hide PoolOk, SupplyOk, Step, Clear;
    StepSupply(p, a, n);
    if !a.Generate? || Step(p, a) != p {
      StepKeeps(p, a);
    }
  }

  lemma {:induction false} RunSupply(p: Pool, acts: seq<Action>, n: nat)
    requires PoolOk(p) && SupplyOk(p, n) && OneAtATime(p, acts)
    ensures PoolOk(RunAll(p, acts)) && SupplyOk(RunAll(p, acts), n)
    decreases |acts|
  {
    hide PoolOk, SupplyOk, Step, Idle;
    if acts != [] {
      StepSupply(p, acts[0], n);
      StepPool(p, acts[0], n);
      RunSupply(Step(p, acts[0]), acts[1..], n);
    }
  }

  /**
   Runs that do not overlap need no other guard: all that guarded runs promise holds, whatever inserts
   fail, and the pool never holds more than it did at first or a batch on top of a low pool.
   */
  lemma SequentialRuns(random: seq<nat>, bad: set<nat>, acts: seq<Action>)
    requires OneAtATime(NewPool(random, bad), acts)
    ensures var p := RunAll(NewPool(random, bad), acts);
            && IdsOk(p.privs) && Conserved(p) && HandedOutOnce(p)
            && (forall k :: k in p.out ==> (PrekeyAgrees(p.privs, Some(k)) <==> k.keyId <= |p.privs|))
            && |p.rows| <= Most(|NewPool(random, bad).rows|)
  {
    NewPoolOk(random, bad);
    var start := NewPool(random, bad);
    RunSupply(start, acts, |start.rows|);
    PoolClaims(RunAll(start, acts));
  }

  /** One run from start to end. */
  function WholeRun(i: nat, random: seq<nat>): seq<Action> {
    [Ask, Count(i), Generate(i, random), StoreBatch(i, {}), Push(i)]
  }

  /**
   A whole run with nothing in between: below the watermark the pool and the client's list each gain one
   batch with the next ids, and at or above it both stay as they were.
   */
  lemma RefillsExactlyWhenLow(p: Pool, random: seq<nat>)
    requires PoolOk(p) && Idle(p) && |random| == REPLENISH_COUNT
    ensures var q, batch := RunAll(p, WholeRun(|p.runs|, random)), Batch(|p.privs| + 1, random);
            && q.out == p.out && Idle(q)
            && (|p.rows| < LOW_WATERMARK ==> q.rows == p.rows + Publics(batch) && q.privs == p.privs + batch)
            && (|p.rows| >= LOW_WATERMARK ==> q.rows == p.rows && q.privs == p.privs)
  {
    hide PoolOk, Store, Publics, Good, Refused, Batch, MaxId;
    var i, batch := |p.runs|, Batch(|p.privs| + 1, random);
    var p2 := Step(Step(p, Ask), Count(i));
    assert p2.runs == p.runs + [Counted(|p.rows|)];
    var p3 := Step(p2, Generate(i, random));
    OwnIds(p);
    assert RunAll(p, WholeRun(i, random)) == Step(Step(p3, StoreBatch(i, {})), Push(i)) by {
      FiveSteps(p, Ask, Count(i), Generate(i, random), StoreBatch(i, {}), Push(i));
    }
    if |p.rows| < LOW_WATERMARK {
      assert p3.runs == p.runs + [Uploading(batch)];
      NewBatchStored(p, random);
      var p4 := Step(p3, StoreBatch(i, {}));
      assert p4.runs == p.runs + [Stored(batch)];
      assert Step(p4, Push(i)).runs == p.runs + [Done];
    } else {
      assert p3.runs == p.runs + [Done];
    }
  }

  lemma OneStep(p: Pool, a: Action, rest: seq<Action>)
    ensures RunAll(p, [a] + rest) == RunAll(Step(p, a), rest)
  {
    assert ([a] + rest)[1..] == rest;
  }

  lemma FiveSteps(p: Pool, a: Action, b: Action, c: Action, d: Action, e: Action)
    ensures RunAll(p, [a, b, c, d, e]) == Step(Step(Step(Step(Step(p, a), b), c), d), e)
  {
    var p1, p2, p3 := Step(p, a), Step(Step(p, a), b), Step(Step(Step(p, a), b), c);
    assert RunAll(Step(Step(p3, d), e), []) == Step(Step(p3, d), e);
    hide Step, RunAll;
    OneStep(p, a, [b, c, d, e]);
    OneStep(p1, b, [c, d, e]);
    OneStep(p2, c, [d, e]);
    OneStep(p3, d, [e]);
    OneStep(Step(p3, d), e, []);
    assert [a] + [b, c, d, e] == [a, b, c, d, e] && [b] + [c, d, e] == [b, c, d, e] && [c] + [d, e] == [c, d, e];
    assert [d] + [e] == [d, e] && [e] + [] == [e];
  }

  lemma OwnIds(p: Pool)
    requires PoolOk(p)
    ensures MaxId(p.privs) == |p.privs|
  {
    MaxIdIsLength(p.privs);
  }

  lemma PoolIds(p: Pool)
    requires PoolOk(p) && Idle(p)
    ensures forall i :: 0 <= i < |p.rows| ==> p.rows[i].keyId <= |p.privs|
  {
    hide PoolOk;
    WaitingNone(p.runs);
    assert Uploaded(p) == p.privs;
    forall i | 0 <= i < |p.rows| ensures p.rows[i].keyId <= |p.privs| {
      KnownKey(p, p.rows[i]);
    }
  }

  /** With no run under way a batch with the next ids meets no key of the pool, so all of it is stored. */
  lemma NewBatchStored(p: Pool, random: seq<nat>)
    requires PoolOk(p) && Idle(p)
    ensures var batch := Batch(|p.privs| + 1, random);
            Store(p.rows, Publics(Good(batch, {}))) == p.rows + Publics(batch)
  {
    hide PoolOk, Idle, Good, Store;
    var batch := Batch(|p.privs| + 1, random);
    GoodAll(batch);
    PoolIds(p);
    StoreFresh(p.rows, Publics(batch));
  }
}
