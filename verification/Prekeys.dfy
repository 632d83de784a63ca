/**
 One-time prekeys: the client's private list, the auth service's pool and the replenishment
 runs between them.

 A run of replenishOPKsIfNeeded awaits two answers, so other events fall between its steps:
 the pool's count is asked for, read, and answered; a batch is generated and its upload sent;
 the service stores the batch; the answer makes the client keep the private halves. Nothing in
 the source keeps two runs from overlapping, and an answer can be lost.
 */
module Prekeys {
  import opened Wrappers
  import opened Crypto
  import opened X3dh

  const LOW_WATERMARK := 3
  const REPLENISH_COUNT := 10

  function Public(key: OneTimePrivate): OneTimePublic {
    OneTimePublic(key.keyId, PublicKey(key.priv))
  }

  function Publics(keys: seq<OneTimePrivate>): seq<OneTimePublic> {
    seq(|keys|, i requires 0 <= i < |keys| => Public(keys[i]))
  }

  /** The highest key id the client holds, 0 if none. */
  function MaxId(keys: seq<OneTimePrivate>): nat {
    if keys == [] then 0
    else
      var m := MaxId(keys[..|keys| - 1]);
      if keys[|keys| - 1].keyId > m then keys[|keys| - 1].keyId else m
  }

  function Batch(start: nat, random: seq<nat>): seq<OneTimePrivate> {
    seq(|random|, i requires 0 <= i < |random| => OneTimePrivate(start + i, random[i]))
  }

  method GenerateOPKBatch(startKeyId: nat, count: nat, random: seq<nat>)
    returns (publicKeys: seq<OneTimePublic>, privateKeys: seq<OneTimePrivate>)
    requires count <= |random|
    ensures privateKeys == Batch(startKeyId, random[..count]) && publicKeys == Publics(privateKeys)
  {
    publicKeys, privateKeys := [], [];
    for i := 0 to count
      invariant privateKeys == Batch(startKeyId, random[..i]) && publicKeys == Publics(privateKeys)
    {
      publicKeys := publicKeys + [OneTimePublic(startKeyId + i, PublicKey(random[i]))];
      privateKeys := privateKeys + [OneTimePrivate(startKeyId + i, random[i])];
    }
  }

  // ---------------------------------------------------------------- the service's table

  datatype Row = Row(deviceId: nat, key: OneTimePublic)

  /** An insert that would repeat (device_id, key_id) fails, and the failure is ignored. */
  function Insert(rows: seq<Row>, deviceId: nat, key: OneTimePublic): seq<Row> {
    if exists i :: 0 <= i < |rows| && rows[i].deviceId == deviceId && rows[i].key.keyId == key.keyId then rows
    else rows + [Row(deviceId, key)]
  }

  function InsertAll(rows: seq<Row>, deviceId: nat, keys: seq<OneTimePublic>): seq<Row> {
    if keys == [] then rows
    else Insert(InsertAll(rows, deviceId, keys[..|keys| - 1]), deviceId, keys[|keys| - 1])
  }

  /** Index of the device's oldest row; |rows| if it has none. */
  function Oldest(rows: seq<Row>, deviceId: nat): (i: nat)
    ensures i <= |rows| && (i < |rows| ==> rows[i].deviceId == deviceId)
    ensures forall j :: 0 <= j < i ==> rows[j].deviceId != deviceId
  {
    if rows == [] || rows[0].deviceId == deviceId then 0 else 1 + Oldest(rows[1..], deviceId)
  }

  function Consume(rows: seq<Row>, deviceId: nat): (seq<Row>, Option<OneTimePublic>) {
    var i := Oldest(rows, deviceId);
    if i == |rows| then (rows, None) else (rows[..i] + rows[i + 1..], Some(rows[i].key))
  }

  /** The table after a bundle request for these devices, one after another, and the prekeys it hands out. */
  function ConsumeAll(rows: seq<Row>, devices: seq<nat>): (seq<Row>, seq<Option<OneTimePublic>>) {
    if devices == [] then (rows, []) else
    var before := ConsumeAll(rows, devices[..|devices| - 1]);
    var last := Consume(before.0, devices[|devices| - 1]);
    (last.0, before.1 + [last.1])
  }

  /** The device's own part of the table, oldest first. */
  function RowsOf(rows: seq<Row>, deviceId: nat): seq<OneTimePublic> {
    if rows == [] then []
    else
      RowsOf(rows[..|rows| - 1], deviceId)
      + if rows[|rows| - 1].deviceId == deviceId then [rows[|rows| - 1].key] else []
  }

  lemma {:induction false} RowsOfAdd(a: seq<Row>, b: seq<Row>, deviceId: nat)
    ensures RowsOf(a + b, deviceId) == RowsOf(a, deviceId) + RowsOf(b, deviceId)
  {
    if b == [] {
      assert a + b == a;
    } else {
      RowsOfAdd(a, b[..|b| - 1], deviceId);
      assert (a + b)[..|a + b| - 1] == a + b[..|b| - 1];
    }
  }

  lemma {:induction false} RowsOfOne(rows: seq<Row>, i: nat, deviceId: nat)
    requires i < |rows|
    ensures RowsOf(rows, deviceId)
         == RowsOf(rows[..i], deviceId) + (if rows[i].deviceId == deviceId then [rows[i].key] else [])
           + RowsOf(rows[i + 1..], deviceId)
  {
    assert rows == rows[..i + 1] + rows[i + 1..];
    RowsOfAdd(rows[..i + 1], rows[i + 1..], deviceId);
    assert rows[..i + 1][..i] == rows[..i];
  }

  lemma {:induction false} RowsOfNone(rows: seq<Row>, deviceId: nat)
    requires forall j :: 0 <= j < |rows| ==> rows[j].deviceId != deviceId
    ensures RowsOf(rows, deviceId) == []
  {
    if rows != [] {
      RowsOfNone(rows[..|rows| - 1], deviceId);
    }
  }

  lemma {:induction false} RowsOfHas(rows: seq<Row>, deviceId: nat, keyId: nat)
    ensures (exists i :: 0 <= i < |rows| && rows[i].deviceId == deviceId && rows[i].key.keyId == keyId)
       <==> (exists i :: 0 <= i < |RowsOf(rows, deviceId)| && RowsOf(rows, deviceId)[i].keyId == keyId)
  {
    if rows != [] {
      var front, last := rows[..|rows| - 1], rows[|rows| - 1];
      RowsOfHas(front, deviceId, keyId);
      var own, all := RowsOf(front, deviceId), RowsOf(rows, deviceId);
      if i :| 0 <= i < |rows| && rows[i].deviceId == deviceId && rows[i].key.keyId == keyId {
        if i == |front| {
          assert all[|own|].keyId == keyId;
        } else {
          assert front[i] == rows[i];
          var k :| 0 <= k < |own| && own[k].keyId == keyId;
          assert all[k] == own[k];
        }
      }
      if k :| 0 <= k < |all| && all[k].keyId == keyId {
        if k < |own| {
          assert own[k] == all[k];
          var i :| 0 <= i < |front| && front[i].deviceId == deviceId && front[i].key.keyId == keyId;
          assert rows[i] == front[i];
        } else {
          assert rows[|front|].key == all[k];
        }
      }
    }
  }

  // ---------------------------------------------------------------- one device's pool

  predicate HasId(pool: seq<OneTimePublic>, keyId: nat) {
    exists i :: 0 <= i < |pool| && pool[i].keyId == keyId
  }

  function Store(pool: seq<OneTimePublic>, keys: seq<OneTimePublic>): seq<OneTimePublic> {
    if keys == [] then pool else
    var before := Store(pool, keys[..|keys| - 1]);
    if HasId(before, keys[|keys| - 1].keyId) then before else before + [keys[|keys| - 1]]
  }

  /** An upload changes the uploading device's pool only, and there it is `Store`. */
  lemma {:induction false} UploadIsStore(rows: seq<Row>, deviceId: nat, keys: seq<OneTimePublic>, other: nat)
    ensures RowsOf(InsertAll(rows, deviceId, keys), other)
         == if other == deviceId then Store(RowsOf(rows, other), keys) else RowsOf(rows, other)
  {
    if keys != [] {
      UploadIsStore(rows, deviceId, keys[..|keys| - 1], other);
      var before, key := InsertAll(rows, deviceId, keys[..|keys| - 1]), keys[|keys| - 1];
      RowsOfHas(before, deviceId, key.keyId);
      assert (before + [Row(deviceId, key)])[..|before|] == before;
    }
  }

  /** A bundle request takes the oldest key of the device's pool and touches no other pool. */
  lemma ConsumeIsOldest(rows: seq<Row>, deviceId: nat, other: nat)
    ensures var pool, taken := RowsOf(rows, deviceId), Consume(rows, deviceId);
            if pool == [] then taken == (rows, None)
            else taken.1 == Some(pool[0]) && RowsOf(taken.0, deviceId) == pool[1..]
                 && (other != deviceId ==> RowsOf(taken.0, other) == RowsOf(rows, other))
  {
    var i := Oldest(rows, deviceId);
    RowsOfNone(rows[..i], deviceId);
    if i == |rows| {
      assert rows[..i] == rows;
    } else {
      RowsOfOne(rows, i, deviceId);
      RowsOfOne(rows, i, other);
      RowsOfAdd(rows[..i], rows[i + 1..], deviceId);
      RowsOfAdd(rows[..i], rows[i + 1..], other);
    }
  }

  function Head(pool: seq<OneTimePublic>): Option<OneTimePublic> {
    if pool == [] then None else Some(pool[0])
  }

  function Rest(pool: seq<OneTimePublic>): seq<OneTimePublic> {
    if pool == [] then [] else pool[1..]
  }

  predicate NoRepeats(devices: seq<nat>) {
    forall i, j :: 0 <= i < j < |devices| ==> devices[i] != devices[j]
  }

  /** What a bundle request does: each device of the list loses exactly its oldest key, which is the one handed out. */
  ghost predicate HeadsTaken(rows: seq<Row>, devices: seq<nat>, rows': seq<Row>, prekeys: seq<Option<OneTimePublic>>) {
    && |prekeys| == |devices|
    && (forall k :: 0 <= k < |devices| ==>
          prekeys[k] == Head(RowsOf(rows, devices[k])) && RowsOf(rows', devices[k]) == Rest(RowsOf(rows, devices[k])))
    && (forall other :: other !in devices ==> RowsOf(rows', other) == RowsOf(rows, other))
  }

  lemma {:induction false} ConsumeAllHeads(rows: seq<Row>, devices: seq<nat>)
    requires NoRepeats(devices)
    ensures HeadsTaken(rows, devices, ConsumeAll(rows, devices).0, ConsumeAll(rows, devices).1)
  {
    if devices != [] {
      var front, last := devices[..|devices| - 1], devices[|devices| - 1];
      ConsumeAllHeads(rows, front);
      OneMoreHead(rows, front, last, ConsumeAll(rows, front).0, ConsumeAll(rows, front).1);
      assert devices == front + [last];
    }
  }

  lemma OneMoreHead(rows: seq<Row>, front: seq<nat>, last: nat, rows': seq<Row>, prekeys: seq<Option<OneTimePublic>>)
    requires HeadsTaken(rows, front, rows', prekeys) && last !in front
    ensures var taken := Consume(rows', last);
            HeadsTaken(rows, front + [last], taken.0, prekeys + [taken.1])
  {
    hide Consume, RowsOf;
    var taken := Consume(rows', last);
    ConsumeIsOldest(rows', last, last);
    forall other | other != last ensures RowsOf(taken.0, other) == RowsOf(rows', other) {
      ConsumeIsOldest(rows', last, other);
    }
    forall k | 0 <= k < |front| ensures (front + [last])[k] == front[k] && front[k] != last {
      assert front[k] in front;
    }
  }

  class PrekeyTable {
    var rows: seq<Row>

    method UploadNewDeviceOpks(deviceId: nat, keys: seq<OneTimePublic>)
      modifies this
      ensures rows == InsertAll(old(rows), deviceId, keys)
      ensures forall other: nat ::
                RowsOf(rows, other)
                == if other == deviceId then Store(RowsOf(old(rows), other), keys) else RowsOf(old(rows), other)
    {
      for n := 0 to |keys|
        invariant rows == InsertAll(old(rows), deviceId, keys[..n])
      {
        assert keys[..n + 1][..n] == keys[..n];
        rows := Insert(rows, deviceId, keys[n]);
      }
      assert keys[..|keys|] == keys;
      forall other: nat
        ensures RowsOf(rows, other)
             == if other == deviceId then Store(RowsOf(old(rows), other), keys) else RowsOf(old(rows), other)
      {
        UploadIsStore(old(rows), deviceId, keys, other);
      }
    }

    /** The one-time prekeys of get_all_prekey_bundles, one entry per device; device ids are the table's primary key. */
    method GetAllPrekeyBundles(devices: seq<nat>) returns (prekeys: seq<Option<OneTimePublic>>)
      modifies this
      ensures (rows, prekeys) == ConsumeAll(old(rows), devices)
      ensures NoRepeats(devices) ==> HeadsTaken(old(rows), devices, rows, prekeys)
    {
      prekeys := [];
      for n := 0 to |devices|
        invariant (rows, prekeys) == ConsumeAll(old(rows), devices[..n])
      {
        assert devices[..n + 1][..n] == devices[..n];
        var i := Oldest(rows, devices[n]);
        if i == |rows| {
          prekeys := prekeys + [None];
        } else {
          prekeys := prekeys + [Some(rows[i].key)];
          rows := rows[..i] + rows[i + 1..];
        }
      }
      assert devices[..|devices|] == devices;
      if NoRepeats(devices) {
        ConsumeAllHeads(old(rows), devices);
      }
    }
  }

  datatype Run =
    | Asked
    | Counted(count: nat)
    | Uploading(batch: seq<OneTimePrivate>)
    | Stored(batch: seq<OneTimePrivate>)
    | Lost(batch: seq<OneTimePrivate>)      // stored, at least in part, but the answer never came
    | Done

  /** `out` lists what bundle requests took from the pool, `failed` the keys whose insert the database refused. */
  datatype Pool = Pool(privs: seq<OneTimePrivate>, rows: seq<OneTimePublic>, out: seq<OneTimePublic>,
                       failed: set<OneTimePublic>, runs: seq<Run>)

  datatype Action =
    | Ask
    | Count(run: nat)
    | Generate(run: nat, random: seq<nat>)
    | StoreBatch(run: nat, bad: set<nat>)   // the inserts of these ids fail, which the handler ignores
    | Push(run: nat)
    | Fail(run: nat)
    | HandOut               // a bundle request: the oldest key goes

  /** The keys of a batch whose inserts succeed. */
  function Good(batch: seq<OneTimePrivate>, bad: set<nat>): seq<OneTimePrivate> {
    if batch == [] then []
    else Good(batch[..|batch| - 1], bad) + if batch[|batch| - 1].keyId in bad then [] else [batch[|batch| - 1]]
  }

  function Refused(batch: seq<OneTimePrivate>, bad: set<nat>): set<OneTimePublic> {
    set k | k in Publics(batch) && k.keyId in bad
  }

  /** Some key of the batch reached the pool. */
  predicate Reached(p: Pool, batch: seq<OneTimePrivate>) {
    exists i :: 0 <= i < |batch| && (Public(batch[i]) in p.rows || Public(batch[i]) in p.out)
  }

  /** The pool after generateDeviceKeys and upload_device. */
  function NewPool(random: seq<nat>, bad: set<nat>): Pool {
    var privs := Batch(1, random);
    Pool(privs, Publics(Good(privs, bad)), [], Refused(privs, bad), [])
  }

  /** A run whose awaited answer does not come. A batch of which nothing was stored leaves no trace. */
  function Failed(p: Pool, run: Run): Run {
    match run
    case Stored(batch) => if Reached(p, batch) then Lost(batch) else Done
    case Lost(_) => run
    case _ => Done
  }

  function Step(p: Pool, a: Action): Pool {
    match a
    case Ask => p.(runs := p.runs + [Asked])
    case Count(i) =>
      if i < |p.runs| && p.runs[i].Asked? then p.(runs := p.runs[i := Counted(|p.rows|)]) else p
    case Generate(i, random) =>
      if !(i < |p.runs| && p.runs[i].Counted? && |random| == REPLENISH_COUNT) then p
      else if p.runs[i].count >= LOW_WATERMARK then p.(runs := p.runs[i := Done])
      else p.(runs := p.runs[i := Uploading(Batch(MaxId(p.privs) + 1, random))])
    case StoreBatch(i, bad) =>
      if i < |p.runs| && p.runs[i].Uploading?
      then p.(rows := Store(p.rows, Publics(Good(p.runs[i].batch, bad))),
              failed := p.failed + Refused(p.runs[i].batch, bad),
              runs := p.runs[i := Stored(p.runs[i].batch)])
      else p
    case Push(i) =>
      if i < |p.runs| && p.runs[i].Stored?
      then p.(privs := p.privs + p.runs[i].batch, runs := p.runs[i := Done]) else p
    case Fail(i) => if i >= |p.runs| then p else p.(runs := p.runs[i := Failed(p, p.runs[i])])
    case HandOut => if p.rows == [] then p else p.(rows := p.rows[1..], out := p.out + [p.rows[0]])
  }

  function RunAll(p: Pool, acts: seq<Action>): Pool
    decreases |acts|
  {
    if acts == [] then p else RunAll(Step(p, acts[0]), acts[1..])
  }

  predicate Live(run: Run) {
    run.Uploading? || run.Stored? || run.Lost?
  }

  /** No generated batch is on its way, and none was stored without the client learning of it. */
  predicate Clear(p: Pool) {
    forall i :: 0 <= i < |p.runs| ==> !Live(p.runs[i])
  }

  /** Every batch of this run is generated while the pool is clear. */
  predicate Guarded(p: Pool, acts: seq<Action>)
    decreases |acts|
  {
    acts == [] || ((acts[0].Generate? ==> Clear(p)) && Guarded(Step(p, acts[0]), acts[1..]))
  }

  /** A key id of a handed-out prekey never finds the wrong private half. */
  ghost predicate NoMismatch(p: Pool) {
    forall k :: k in p.out && Find(p.privs, k.keyId).Some? ==> PrekeyAgrees(p.privs, Some(k))
  }

  // ---------------------------------------------------------------- what every guarded step keeps

  predicate IdsOk(keys: seq<OneTimePrivate>) {
    forall i :: 0 <= i < |keys| ==> keys[i].keyId == i + 1
  }

  /** Uploaded keys whose private halves the client does not hold yet. */
  function Waiting(runs: seq<Run>): seq<OneTimePrivate> {
    if runs == [] then []
    else Waiting(runs[..|runs| - 1]) + Kept(runs[|runs| - 1])
  }

  function Kept(run: Run): seq<OneTimePrivate> {
    if run.Stored? || run.Lost? then run.batch else []
  }

  ghost predicate RunsOk(p: Pool) {
    && (forall i, j :: 0 <= i < |p.runs| && 0 <= j < |p.runs| && Live(p.runs[i]) && Live(p.runs[j]) ==> i == j)
    && (forall i :: 0 <= i < |p.runs| && Live(p.runs[i]) ==>
          |p.runs[i].batch| == REPLENISH_COUNT && IdsOk(p.privs + p.runs[i].batch)
          && (p.runs[i].Lost? ==> Reached(p, p.runs[i].batch)))
  }

  predicate Ascends(keys: seq<OneTimePublic>) {
    forall i, j :: 0 <= i < j < |keys| ==> keys[i].keyId < keys[j].keyId
  }

  /** The keys handed out, then the keys in the pool. */
  function Accepted(p: Pool): seq<OneTimePublic> {
    p.out + p.rows
  }

  /** The keys the client made and uploaded. */
  function Uploaded(p: Pool): seq<OneTimePrivate> {
    p.privs + Waiting(p.runs)
  }

  /** The key is an uploaded one. */
  predicate IsUploaded(uploaded: seq<OneTimePrivate>, k: OneTimePublic) {
    1 <= k.keyId <= |uploaded| && k == Public(uploaded[k.keyId - 1])
  }

  /** The accepted keys are uploaded ones in the order of the ids; every other uploaded key was refused. */
  ghost predicate Accounted(uploaded: seq<OneTimePrivate>, accepted: seq<OneTimePublic>, failed: set<OneTimePublic>) {
    && Ascends(accepted)
    && (forall k :: k in accepted ==> IsUploaded(uploaded, k))
    && (forall x :: x in uploaded ==> Public(x) in accepted || Public(x) in failed)
  }

  ghost predicate Conserved(p: Pool) {
    Accounted(Uploaded(p), Accepted(p), p.failed)
  }

  /**
   The client's ids are 1, 2, .. with none missing or repeated; at most one batch is on its way and
   continues them; and uploaded keys are accounted for.
   */
  ghost predicate PoolOk(p: Pool) {
    IdsOk(p.privs) && RunsOk(p) && Conserved(p)
  }

  lemma {:induction false} MaxIdIsLength(keys: seq<OneTimePrivate>)
    requires IdsOk(keys)
    ensures MaxId(keys) == |keys|
  {
    if keys != [] {
      MaxIdIsLength(keys[..|keys| - 1]);
    }
  }

  lemma {:induction false} FindAt(keys: seq<OneTimePrivate>, from: nat, keyId: nat)
    requires from <= |keys| && IdsOk(keys) && (from < keyId || keyId == 0)
    ensures Find(keys[from..], keyId) == if 1 <= keyId <= |keys| then Some(keys[keyId - 1]) else None
    decreases |keys| - from
  {
    if from < |keys| && keyId != from + 1 {
      FindAt(keys, from + 1, keyId);
      assert keys[from..][1..] == keys[from + 1..];
    }
  }

  lemma FindById(keys: seq<OneTimePrivate>, keyId: nat)
    requires IdsOk(keys)
    ensures Find(keys, keyId) == if 1 <= keyId <= |keys| then Some(keys[keyId - 1]) else None
  {
    assert keys[0..] == keys;
    FindAt(keys, 0, keyId);
  }

  lemma {:induction false} WaitingOne(runs: seq<Run>, i: nat)
    requires i < |runs|
    requires forall j :: 0 <= j < |runs| && j != i ==> Kept(runs[j]) == []
    ensures Waiting(runs) == Kept(runs[i])
  {
    hide Kept;
    var front := runs[..|runs| - 1];
    if i < |front| {
      WaitingOne(front, i);
    } else {
      WaitingNone(front);
    }
  }

  lemma {:induction false} WaitingNone(runs: seq<Run>)
    requires forall j :: 0 <= j < |runs| ==> Kept(runs[j]) == []
    ensures Waiting(runs) == []
  {
    hide Kept;
    if runs != [] {
      WaitingNone(runs[..|runs| - 1]);
    }
  }

  /** With no id in common, an upload appends. */
  lemma {:induction false} StoreFresh(pool: seq<OneTimePublic>, keys: seq<OneTimePublic>)
    requires forall i, j :: 0 <= i < |pool| && 0 <= j < |keys| ==> pool[i].keyId != keys[j].keyId
    requires forall i, j :: 0 <= i < j < |keys| ==> keys[i].keyId != keys[j].keyId
    ensures Store(pool, keys) == pool + keys
  {
    if keys != [] {
      var front := keys[..|keys| - 1];
      StoreFresh(pool, front);
      assert pool + keys == pool + front + [keys[|keys| - 1]];
    }
  }

  /** In a good state a key in the pool or handed out is the public half of the id's private key. */
  lemma KnownKey(p: Pool, k: OneTimePublic)
    requires PoolOk(p) && (k in p.rows || k in p.out)
    ensures IdsOk(Uploaded(p))
    ensures 1 <= k.keyId <= |Uploaded(p)| && k == Public(Uploaded(p)[k.keyId - 1])
  {
    AllIds(p);
    assert k in Accepted(p);
    assert IsUploaded(Uploaded(p), k);
  }

  lemma AllIds(p: Pool)
    requires IdsOk(p.privs) && RunsOk(p)
    ensures IdsOk(Uploaded(p))
  {
    if i :| 0 <= i < |p.runs| && Live(p.runs[i]) {
      WaitingOne(p.runs, i);
    } else {
      WaitingNone(p.runs);
    }
  }

  lemma {:induction false} GoodOk(batch: seq<OneTimePrivate>, bad: set<nat>)
    requires forall i, j :: 0 <= i < j < |batch| ==> batch[i].keyId < batch[j].keyId
    ensures Ascends(Publics(Good(batch, bad)))
    ensures forall k :: k in Good(batch, bad) <==> k in batch && k.keyId !in bad
  {
    if batch != [] {
      var front, last := batch[..|batch| - 1], batch[|batch| - 1];
      GoodOk(front, bad);
      assert batch == front + [last];
      var good := Good(front, bad);
      forall i | 0 <= i < |good| ensures good[i].keyId < last.keyId {
        assert good[i] in front;
      }
      assert forall i :: 0 <= i < |good| ==> Publics(good)[i].keyId == good[i].keyId;
    }
  }

  lemma {:induction false} GoodAll(batch: seq<OneTimePrivate>)
    ensures Good(batch, {}) == batch
  {
    if batch != [] {
      GoodAll(batch[..|batch| - 1]);
    }
  }

  /** A batch of which the good keys are accepted. */
  lemma UploadAccounts(privs: seq<OneTimePrivate>, accepted: seq<OneTimePublic>, failed: set<OneTimePublic>,
                       batch: seq<OneTimePrivate>, bad: set<nat>)
    requires Accounted(privs, accepted, failed) && IdsOk(privs + batch)
    ensures Accounted(privs + batch, accepted + Publics(Good(batch, bad)), failed + Refused(batch, bad))
  {
    hide Good, Refused, Publics, IsUploaded, IdsOk, Ascends;
    GoodUploaded(privs, batch, bad);
    AllAccounted(privs, accepted, failed, batch, bad);
    AcceptedAscends(privs, privs + batch, accepted, Publics(Good(batch, bad)));
  }

  lemma BatchIds(privs: seq<OneTimePrivate>, batch: seq<OneTimePrivate>, i: nat)
    requires IdsOk(privs + batch) && i < |batch|
    ensures batch[i].keyId == |privs| + i + 1 && batch[i] == (privs + batch)[|privs| + i]
  {
    var all := privs + batch;
    assert all[|privs| + i] == batch[i];
  }

  lemma GoodUploaded(privs: seq<OneTimePrivate>, batch: seq<OneTimePrivate>, bad: set<nat>)
    requires IdsOk(privs + batch)
    ensures Ascends(Publics(Good(batch, bad)))
    ensures forall k :: k in Publics(Good(batch, bad)) ==> |privs| < k.keyId && IsUploaded(privs + batch, k)
  {
    hide Good, Ascends, IdsOk;
    forall i: nat, j: nat | i < j < |batch| ensures batch[i].keyId < batch[j].keyId {
      BatchIds(privs, batch, i);
      BatchIds(privs, batch, j);
    }
    GoodOk(batch, bad);
    var good := Good(batch, bad);
    forall k | k in Publics(good) ensures |privs| < k.keyId && IsUploaded(privs + batch, k) {
      var i :| 0 <= i < |good| && k == Public(good[i]);
      assert good[i] in good;
      var j :| 0 <= j < |batch| && batch[j] == good[i];
      BatchIds(privs, batch, j);
    }
  }

  lemma AllAccounted(privs: seq<OneTimePrivate>, accepted: seq<OneTimePublic>, failed: set<OneTimePublic>,
                     batch: seq<OneTimePrivate>, bad: set<nat>)
    requires forall x :: x in privs ==> Public(x) in accepted || Public(x) in failed
    requires IdsOk(privs + batch)
    ensures forall x :: x in privs + batch ==>
              Public(x) in accepted + Publics(Good(batch, bad)) || Public(x) in failed + Refused(batch, bad)
  {
    hide Good, Publics, Refused, IdsOk;
    forall i: nat, j: nat | i < j < |batch| ensures batch[i].keyId < batch[j].keyId {
      BatchIds(privs, batch, i);
      BatchIds(privs, batch, j);
    }
    forall i | 0 <= i < |batch|
      ensures Public(batch[i]) in Publics(Good(batch, bad)) || Public(batch[i]) in Refused(batch, bad)
    {
      SplitKey(batch, bad, i);
    }
    assert forall x :: x in batch ==> Public(x) in Publics(Good(batch, bad)) || Public(x) in Refused(batch, bad);
  }

  lemma AcceptedAscends(privs: seq<OneTimePrivate>, all: seq<OneTimePrivate>, first: seq<OneTimePublic>,
                        second: seq<OneTimePublic>)
    requires Ascends(first) && Ascends(second) && privs <= all
    requires forall k :: k in first ==> IsUploaded(privs, k)
    requires forall k :: k in second ==> |privs| < k.keyId && IsUploaded(all, k)
    ensures Ascends(first + second) && forall k :: k in first + second ==> IsUploaded(all, k)
  {
    assert forall i :: 0 <= i < |first| ==> first[i] in first;
    assert forall i :: 0 <= i < |second| ==> second[i] in second;
    forall k | k in first ensures IsUploaded(all, k) {
      assert all[k.keyId - 1] == privs[k.keyId - 1];
    }
  }

  lemma SplitKey(batch: seq<OneTimePrivate>, bad: set<nat>, i: nat)
    requires i < |batch| && forall i, j :: 0 <= i < j < |batch| ==> batch[i].keyId < batch[j].keyId
    ensures Public(batch[i]) in Publics(Good(batch, bad)) || Public(batch[i]) in Refused(batch, bad)
  {
    GoodOk(batch, bad);
    if batch[i].keyId in bad {
      assert Publics(batch)[i] == Public(batch[i]);
    } else {
      var j :| 0 <= j < |Good(batch, bad)| && Good(batch, bad)[j] == batch[i];
      assert Publics(Good(batch, bad))[j] == Public(batch[i]);
    }
  }

  lemma NewPoolOk(random: seq<nat>, bad: set<nat>)
    ensures PoolOk(NewPool(random, bad))
  {
    var privs, q := Batch(1, random), NewPool(random, bad);
    assert [] + privs == privs && privs + Waiting([]) == privs && [] + q.rows == q.rows;
    assert {} + q.failed == q.failed;
    UploadAccounts([], [], {}, privs, bad);
  }

  lemma {:induction false} WaitingSame(runs: seq<Run>, i: nat, run: Run)
    requires i < |runs| && Kept(run) == Kept(runs[i])
    ensures Waiting(runs[i := run]) == Waiting(runs)
  {
    var last := |runs| - 1;
    if i < last {
      WaitingSame(runs[..last], i, run);
      assert runs[i := run][..last] == runs[..last][i := run];
    } else {
      assert runs[i := run][..last] == runs[..last];
    }
  }

  /** A step that only moves a run on, from one phase that keeps nothing new to the next. */
  lemma MoveKeeps(p: Pool, i: nat, run: Run)
    requires PoolOk(p) && i < |p.runs| && Kept(run) == Kept(p.runs[i])
    requires Live(run) ==> Live(p.runs[i]) && run.batch == p.runs[i].batch
    requires run.Lost? ==> Reached(p, run.batch)
    ensures PoolOk(p.(runs := p.runs[i := run]))
  {
    hide Accounted;
    WaitingSame(p.runs, i, run);
  }

  lemma GenerateKeeps(p: Pool, i: nat, random: seq<nat>)
    requires PoolOk(p) && Clear(p) && i < |p.runs| && p.runs[i].Counted? && |random| == REPLENISH_COUNT
    ensures PoolOk(p.(runs := p.runs[i := Uploading(Batch(MaxId(p.privs) + 1, random))]))
  {
    hide Accounted;
    MaxIdIsLength(p.privs);
    WaitingSame(p.runs, i, Uploading(Batch(MaxId(p.privs) + 1, random)));
  }

  /** Keys whose ids come after every accepted id are stored whole. */
  lemma BatchIsFresh(p: Pool, batch: seq<OneTimePrivate>, bad: set<nat>)
    requires IdsOk(p.privs + batch) && forall k :: k in p.rows ==> k.keyId <= |p.privs|
    ensures Store(p.rows, Publics(Good(batch, bad))) == p.rows + Publics(Good(batch, bad))
  {
    var all, good := p.privs + batch, Good(batch, bad);
    assert forall j :: 0 <= j < |batch| ==> batch[j] == all[|p.privs| + j] && batch[j].keyId == |p.privs| + j + 1;
    GoodOk(batch, bad);
    forall r, j | 0 <= r < |p.rows| && 0 <= j < |good|
      ensures p.rows[r].keyId != Publics(good)[j].keyId
    {
      assert p.rows[r] in p.rows && good[j] in good;
    }
    StoreFresh(p.rows, Publics(good));
  }

  /** While no batch waits, every accepted id is one of the client's. */
  lemma OldIds(p: Pool)
    requires PoolOk(p) && Waiting(p.runs) == []
    ensures forall k :: k in p.rows ==> k.keyId <= |p.privs|
  {
    forall k | k in p.rows ensures k.keyId <= |p.privs| {
      KnownKey(p, k);
    }
  }

  lemma StoreKeeps(p: Pool, i: nat, bad: set<nat>)
    requires PoolOk(p) && i < |p.runs| && p.runs[i].Uploading?
    ensures PoolOk(Step(p, StoreBatch(i, bad)))
  {
    hide Store, Publics, Waiting, IdsOk, Good, Refused, Accounted, Reached;
    var batch, q := p.runs[i].batch, Step(p, StoreBatch(i, bad));
    WaitingOne(p.runs, i);
    OldIds(p);
    BatchIsFresh(p, batch, bad);
    WaitingOne(q.runs, i);
    assert Accepted(q) == Accepted(p) + Publics(Good(batch, bad));
    assert Uploaded(p) == p.privs && Uploaded(q) == p.privs + batch;
    UploadAccounts(p.privs, Accepted(p), p.failed, batch, bad);
  }

  lemma PushKeeps(p: Pool, i: nat)
    requires PoolOk(p) && i < |p.runs| && p.runs[i].Stored?
    ensures PoolOk(Step(p, Push(i)))
  {
    hide Waiting, Publics;
    var q := Step(p, Push(i));
    WaitingOne(p.runs, i);
    WaitingNone(q.runs);
    hide Accounted;
    assert Uploaded(q) == Uploaded(p);
    hide IdsOk;
  }

  lemma ForgetAccounts(privs: seq<OneTimePrivate>, batch: seq<OneTimePrivate>, accepted: seq<OneTimePublic>,
                       failed: set<OneTimePublic>)
    requires Accounted(privs + batch, accepted, failed)
    requires forall i :: 0 <= i < |batch| ==> Public(batch[i]) !in accepted
    ensures Accounted(privs, accepted, failed)
  {
    forall k | k in accepted ensures IsUploaded(privs, k) {
      assert IsUploaded(privs + batch, k);
      assert forall i :: 0 <= i < |batch| ==> Public(batch[i]) != k;
    }
    assert forall x :: x in privs ==> x in privs + batch;
  }

  /** The answer to an upload of which nothing was stored is lost. */
  lemma ForgetKeeps(p: Pool, i: nat)
    requires PoolOk(p) && i < |p.runs| && p.runs[i].Stored? && !Reached(p, p.runs[i].batch)
    ensures PoolOk(p.(runs := p.runs[i := Done]))
  {
    hide Accounted;
    var q, batch := p.(runs := p.runs[i := Done]), p.runs[i].batch;
    WaitingOne(p.runs, i);
    WaitingNone(q.runs);
    assert Uploaded(q) == p.privs && Uploaded(p) == p.privs + batch;
    ForgetAccounts(p.privs, batch, Accepted(p), p.failed);
  }

  lemma HandOutKeeps(p: Pool)
    requires PoolOk(p) && p.rows != []
    ensures PoolOk(Step(p, HandOut))
  {
    var q := Step(p, HandOut);
    hide Accounted;
    assert p.rows == [p.rows[0]] + p.rows[1..];
    assert Accepted(q) == Accepted(p);
    forall batch | Reached(p, batch) ensures Reached(q, batch) {
      var i :| 0 <= i < |batch| && (Public(batch[i]) in p.rows || Public(batch[i]) in p.out);
      assert Public(batch[i]) in Accepted(q);
    }
  }

  lemma AskKeeps(p: Pool)
    requires PoolOk(p)
    ensures PoolOk(p.(runs := p.runs + [Asked]))
  {
    hide Accounted;
    assert (p.runs + [Asked])[..|p.runs|] == p.runs;
    assert Waiting(p.runs + [Asked]) == Waiting(p.runs);
  }

  lemma LostReached(p: Pool)
    requires PoolOk(p)
    ensures forall i :: 0 <= i < |p.runs| && p.runs[i].Lost? ==> Reached(p, p.runs[i].batch)
  {
  }

  lemma StepKeeps(p: Pool, a: Action)
    requires PoolOk(p) && (a.Generate? ==> Clear(p))
    ensures PoolOk(Step(p, a))
  {
    LostReached(p);
    hide PoolOk, MaxId, Batch, Store, Publics, Reached;
    match a
    case Ask => AskKeeps(p);
    case Count(i) => if i < |p.runs| && p.runs[i].Asked? { MoveKeeps(p, i, Counted(|p.rows|)); }
    case Generate(i, random) =>
      if i < |p.runs| && p.runs[i].Counted? && |random| == REPLENISH_COUNT {
        GenerateKeeps(p, i, random);
        MoveKeeps(p, i, Done);
      }
    case StoreBatch(i, bad) => if i < |p.runs| && p.runs[i].Uploading? { StoreKeeps(p, i, bad); }
    case Push(i) => if i < |p.runs| && p.runs[i].Stored? { PushKeeps(p, i); }
    case Fail(i) =>
      if i < |p.runs| {
        if p.runs[i].Stored? && !Reached(p, p.runs[i].batch) {
          ForgetKeeps(p, i);
        } else {
          MoveKeeps(p, i, Failed(p, p.runs[i]));
        }
      }
    case HandOut => if p.rows != [] { HandOutKeeps(p); }
  }

  lemma {:induction false} RunKeeps(p: Pool, acts: seq<Action>)
    requires PoolOk(p) && Guarded(p, acts)
    ensures PoolOk(RunAll(p, acts))
    decreases |acts|
  {
    if acts != [] {
      StepKeeps(p, acts[0]);
      RunKeeps(Step(p, acts[0]), acts[1..]);
    }
  }

  // ---------------------------------------------------------------- the claims

  /** No key is handed out twice, and no id for two keys. */
  predicate HandedOutOnce(p: Pool) {
    && (forall i, j :: 0 <= i < j < |p.out| ==> p.out[i].keyId != p.out[j].keyId)
    && (forall i, j :: 0 <= i < |p.out| && 0 <= j < |p.rows| ==> p.out[i].keyId != p.rows[j].keyId)
  }

  /**
   Every run that generates batches only while the pool is clear, whatever inserts fail: the client's
   ids are exactly 1, 2, .., n; the keys handed out, and then those in the pool, are uploaded keys in
   the order of their ids, each once, and every uploaded key is among them or was refused; and a
   handed-out key finds its private half exactly when the client already holds its batch.
   */
  lemma GuardedRuns(random: seq<nat>, bad: set<nat>, acts: seq<Action>)
    requires Guarded(NewPool(random, bad), acts)
    ensures var p := RunAll(NewPool(random, bad), acts);
            && IdsOk(p.privs) && Conserved(p) && HandedOutOnce(p)
            && forall k :: k in p.out ==> (PrekeyAgrees(p.privs, Some(k)) <==> k.keyId <= |p.privs|)
  {
    NewPoolOk(random, bad);
    RunKeeps(NewPool(random, bad), acts);
    PoolClaims(RunAll(NewPool(random, bad), acts));
  }

  lemma PoolClaims(p: Pool)
    requires PoolOk(p)
    ensures HandedOutOnce(p)
    ensures forall k :: k in p.out ==> (PrekeyAgrees(p.privs, Some(k)) <==> k.keyId <= |p.privs|)
  {
    AllIds(p);
    var both := Accepted(p);
    assert forall i :: 0 <= i < |p.out| ==> both[i] == p.out[i];
    assert forall j :: 0 <= j < |p.rows| ==> both[|p.out| + j] == p.rows[j];
    forall k | k in p.out ensures PrekeyAgrees(p.privs, Some(k)) <==> k.keyId <= |p.privs| {
      KnownKey(p, k);
      FindById(p.privs, k.keyId);
    }
  }

  // ---------------------------------------------------------------- the guard is exact

  /** The new private keys differ from those of the batches on their way. */
  predicate NewRandom(p: Pool, random: seq<nat>) {
    forall j, k :: 0 <= j < |p.runs| && Live(p.runs[j]) && 0 <= k < |p.runs[j].batch| ==>
      p.runs[j].batch[k].priv !in random
  }

  /** No guarded continuation ever makes a handed-out id find the wrong key. */
  ghost predicate StaysRight(p: Pool) {
    forall acts :: Guarded(p, acts) ==> NoMismatch(RunAll(p, acts))
  }

  lemma OneMismatch(p: Pool, k: OneTimePublic, found: OneTimePrivate)
    requires k in p.out && Find(p.privs, k.keyId) == Some(found) && PublicKey(found.priv) != k.pub
    ensures !NoMismatch(p)
  {
    assert !PrekeyAgrees(p.privs, Some(k));
  }

  lemma {:induction false} RunAdd(p: Pool, a: seq<Action>, b: seq<Action>)
    ensures RunAll(p, a + b) == RunAll(RunAll(p, a), b)
    decreases |a|
  {
    if a == [] {
      assert a + b == b;
    } else {
      assert (a + b)[1..] == a[1..] + b;
      RunAdd(Step(p, a[0]), a[1..], b);
    }
  }

  /** A number of bundle requests. */
  function HandOuts(n: nat): seq<Action> {
    seq(n, _ => HandOut)
  }

  lemma {:induction false} AfterHandOuts(p: Pool, n: nat)
    requires n <= |p.rows|
    ensures RunAll(p, HandOuts(n)) == p.(rows := p.rows[n..], out := p.out + p.rows[..n])
    decreases n
  {
    if n == 0 {
      assert p.out + [] == p.out;
    } else {
      assert HandOuts(n)[1..] == HandOuts(n - 1);
      AfterHandOuts(Step(p, HandOut), n - 1);
      assert p.out + [p.rows[0]] + p.rows[1..][..n - 1] == p.out + p.rows[..n];
    }
  }

  /** What a step of `Generate` with a low count leaves, where the ids are 1, 2, .. */
  function Generated(p: Pool, i: nat, random: seq<nat>): Pool
    requires i < |p.runs|
  {
    p.(runs := p.runs[i := Uploading(Batch(|p.privs| + 1, random))])
  }

  /** The new batch is stored whole and handed out to its first key. */
  function NewFirst(p: Pool, i: nat): seq<Action> {
    [StoreBatch(i, {})] + HandOuts(|p.rows| + 1)
  }

  lemma StoredFirst(p: Pool, i: nat, random: seq<nat>)
    requires IdsOk(p.privs) && i < |p.runs| && |random| == REPLENISH_COUNT
    requires forall k :: k in p.rows ==> k.keyId <= |p.privs|
    ensures var mine, q := Batch(|p.privs| + 1, random), RunAll(Generated(p, i, random), NewFirst(p, i));
            && q.privs == p.privs && q.runs == p.runs[i := Stored(mine)]
            && OneTimePublic(|p.privs| + 1, PublicKey(random[0])) in q.out
  {
    var mine, q, n := Batch(|p.privs| + 1, random), Generated(p, i, random), |p.rows| + 1;
    BatchIsFresh(p, mine, {});
    GoodAll(mine);
    FirstPublic(mine);
    var q1 := Step(q, StoreBatch(i, {}));
    assert q1.rows == p.rows + Publics(mine);
    hide Batch, Publics, IdsOk, Store, HandOuts, RunAll, Good, Refused, Step;
    AfterHandOuts(q1, n);
    OneStep(q, StoreBatch(i, {}));
    RunAdd(q, [StoreBatch(i, {})], HandOuts(n));
    var q2 := RunAll(q1, HandOuts(n));
    assert q2.out[|q2.out| - 1] == Public(mine[0]);
  }

  /** Another batch, of which nothing was handed out, is kept first. */
  lemma KeptFirst(p: Pool, j: nat, k: OneTimePublic)
    requires j < |p.runs| && p.runs[j].Stored? && p.runs[j].batch != [] && IdsOk(p.privs + p.runs[j].batch)
    requires k in p.out && k.keyId == |p.privs| + 1 && k.pub != PublicKey(p.runs[j].batch[0].priv)
    ensures !NoMismatch(Step(p, Push(j)))
  {
    var theirs, q := p.runs[j].batch, Step(p, Push(j));
    assert (p.privs + theirs)[|p.privs|] == theirs[0];
    FindById(q.privs, k.keyId);
    OneMismatch(q, k, theirs[0]);
  }

  /** Another batch is being uploaded. */
  lemma OverlapUploading(p: Pool, i: nat, j: nat, random: seq<nat>)
    requires PoolOk(p) && i < |p.runs| && j < |p.runs| && p.runs[j].Uploading? && !Live(p.runs[i])
    requires |random| == REPLENISH_COUNT && p.runs[j].batch[0].priv != random[0]
    ensures !NoMismatch(RunAll(Generated(p, i, random), NewFirst(p, i) + [StoreBatch(j, {}), Push(j)]))
  {
    WaitingOne(p.runs, j);
    OldIds(p);
    StoredFirst(p, i, random);
    hide Batch, IdsOk, Store, NoMismatch, NewFirst, RunAll, PoolOk, Good, Refused;
    var q := Generated(p, i, random);
    var q2 := RunAll(q, NewFirst(p, i));
    TwoSteps(q2, [StoreBatch(j, {}), Push(j)]);
    RunAdd(q, NewFirst(p, i), [StoreBatch(j, {}), Push(j)]);
    KeptFirst(Step(q2, StoreBatch(j, {})), j, OneTimePublic(|p.privs| + 1, PublicKey(random[0])));
  }

  /** Another batch was uploaded, none of it was stored, and its answer is on its way. */
  lemma OverlapRefused(p: Pool, i: nat, j: nat, random: seq<nat>)
    requires PoolOk(p) && i < |p.runs| && j < |p.runs| && p.runs[j].Stored? && !Reached(p, p.runs[j].batch)
    requires !Live(p.runs[i]) && |random| == REPLENISH_COUNT && p.runs[j].batch[0].priv != random[0]
    ensures !NoMismatch(RunAll(Generated(p, i, random), NewFirst(p, i) + [Push(j)]))
  {
    var forgotten := p.(runs := p.runs[j := Done]);
    ForgetKeeps(p, j);
    WaitingNone(forgotten.runs);
    OldIds(forgotten);
    StoredFirst(p, i, random);
    hide Batch, IdsOk, Store, NoMismatch, NewFirst, RunAll, PoolOk;
    var q := Generated(p, i, random);
    var q2 := RunAll(q, NewFirst(p, i));
    OneStep(q2, Push(j));
    RunAdd(q, NewFirst(p, i), [Push(j)]);
    KeptFirst(q2, j, OneTimePublic(|p.privs| + 1, PublicKey(random[0])));
  }

  lemma OneStep(p: Pool, a: Action)
    ensures RunAll(p, [a]) == Step(p, a)
  {
    hide Step;
    assert RunAll(p, [a]) == RunAll(Step(p, a), [a][1..]);
  }

  lemma FirstPublic(keys: seq<OneTimePrivate>)
    requires keys != []
    ensures |Publics(keys)| == |keys| && Publics(keys)[0] == Public(keys[0])
  {
  }

  lemma FourSteps(p: Pool, acts: seq<Action>)
    requires |acts| == 4
    ensures RunAll(p, acts) == Step(Step(Step(Step(p, acts[0]), acts[1]), acts[2]), acts[3])
  {
    hide Step;
    var p1 := Step(p, acts[0]);
    var p2 := Step(p1, acts[1]);
    assert RunAll(p, acts) == RunAll(p1, acts[1..]);
    assert RunAll(p1, acts[1..]) == RunAll(p2, acts[1..][1..]);
    assert acts[1..][1..] == acts[2..];
    TwoSteps(p2, acts[2..]);
  }

  lemma TwoSteps(p: Pool, acts: seq<Action>)
    requires |acts| == 2
    ensures RunAll(p, acts) == Step(Step(p, acts[0]), acts[1])
  {
    hide Step;
    var p1 := Step(p, acts[0]);
    assert RunAll(p, acts) == RunAll(p1, acts[1..]);
    assert RunAll(p1, acts[1..]) == RunAll(Step(p1, acts[1]), acts[1..][1..]);
  }

  /** A key of another batch was handed out, but the new batch is kept first. */
  lemma OverlapStored(p: Pool, i: nat, j: nat, x: nat, random: seq<nat>)
    requires PoolOk(p) && i < |p.runs| && j < |p.runs| && Live(p.runs[j]) && !Live(p.runs[i])
    requires |random| == REPLENISH_COUNT && x < REPLENISH_COUNT && p.runs[j].batch[x].priv != random[x]
    requires Public(p.runs[j].batch[x]) in p.out
    ensures !NoMismatch(RunAll(Generated(p, i, random), [StoreBatch(i, {}), Push(i)]))
  {
    var mine, theirs := Batch(|p.privs| + 1, random), p.runs[j].batch;
    var q := Generated(p, i, random);
    var q2 := Step(Step(q, StoreBatch(i, {})), Push(i));
    assert (p.privs + theirs)[|p.privs| + x] == theirs[x];
    assert q2.privs == p.privs + mine && q2.out == p.out;
    hide Store, NoMismatch, PoolOk;
    FindById(q2.privs, theirs[x].keyId);
    OneMismatch(q2, Public(theirs[x]), mine[x]);
    TwoSteps(q, [StoreBatch(i, {}), Push(i)]);
  }

  lemma NotClearBreaks(p: Pool, i: nat, random: seq<nat>)
    requires PoolOk(p) && i < |p.runs| && p.runs[i].Counted? && |random| == REPLENISH_COUNT
    requires NewRandom(p, random) && !Clear(p)
    ensures !StaysRight(Generated(p, i, random))
  {
    var j: nat :| j < |p.runs| && Live(p.runs[j]);
    var q, theirs := Generated(p, i, random), p.runs[j].batch;
    assert theirs[0].priv !in random;
    LostReached(p);
    hide PoolOk, Conserved, StaysRight, NoMismatch, Batch, RunAll, HandOuts, NewFirst;
    if p.runs[j].Uploading? {
      OverlapUploading(p, i, j, random);
      NoGenerateGuarded(q, NewFirst(p, i) + [StoreBatch(j, {}), Push(j)]);
    } else if !Reached(p, theirs) {
      OverlapRefused(p, i, j, random);
      NoGenerateGuarded(q, NewFirst(p, i) + [Push(j)]);
    } else {
      ReachedBreaks(p, i, j, random);
    }
  }

  /** A key of the live batch is in the pool or handed out. */
  lemma ReachedBreaks(p: Pool, i: nat, j: nat, random: seq<nat>)
    requires PoolOk(p) && i < |p.runs| && p.runs[i].Counted? && |random| == REPLENISH_COUNT && NewRandom(p, random)
    requires j < |p.runs| && Live(p.runs[j]) && Reached(p, p.runs[j].batch)
    ensures !StaysRight(Generated(p, i, random))
  {
    var q, theirs := Generated(p, i, random), p.runs[j].batch;
    var x :| 0 <= x < |theirs| && (Public(theirs[x]) in p.rows || Public(theirs[x]) in p.out);
    assert theirs[x].priv !in random && random[x] in random;
    LiveSize(p, j);
    hide PoolOk, Conserved, StaysRight, NoMismatch, Batch, RunAll, HandOuts;
    if Public(theirs[x]) in p.out {
      OverlapStored(p, i, j, x, random);
      NoGenerateGuarded(q, [StoreBatch(i, {}), Push(i)]);
    } else {
      var r :| 0 <= r < |p.rows| && p.rows[r] == Public(theirs[x]);
      HandOutFirst(p, i, j, x, r, random);
      NoGenerateGuarded(q, HandOuts(r + 1) + [StoreBatch(i, {}), Push(i)]);
    }
  }

  lemma LiveSize(p: Pool, j: nat)
    requires PoolOk(p) && j < |p.runs| && Live(p.runs[j])
    ensures |p.runs[j].batch| == REPLENISH_COUNT
  {
  }

  lemma HandOutFirst(p: Pool, i: nat, j: nat, x: nat, r: nat, random: seq<nat>)
    requires PoolOk(p) && i < |p.runs| && j < |p.runs| && Live(p.runs[j]) && !Live(p.runs[i])
    requires |random| == REPLENISH_COUNT && x < REPLENISH_COUNT && p.runs[j].batch[x].priv != random[x]
    requires r < |p.rows| && p.rows[r] == Public(p.runs[j].batch[x])
    ensures !NoMismatch(RunAll(Generated(p, i, random), HandOuts(r + 1) + [StoreBatch(i, {}), Push(i)]))
  {
    hide Batch, NoMismatch, HandOuts, RunAll, Store, Conserved, Reached;
    var q, p1 := Generated(p, i, random), RunAll(p, HandOuts(r + 1));
    AfterHandOuts(p, r + 1);
    AfterHandOuts(q, r + 1);
    HandOutsKeep(p, r + 1);
    assert p1.out[|p.out| + r] == p.rows[r];
    OverlapStored(p1, i, j, x, random);
    assert Generated(p1, i, random) == RunAll(q, HandOuts(r + 1));
    RunAdd(q, HandOuts(r + 1), [StoreBatch(i, {}), Push(i)]);
  }

  lemma HandOutsKeep(p: Pool, n: nat)
    requires PoolOk(p)
    ensures PoolOk(RunAll(p, HandOuts(n)))
  {
    NoGenerateGuarded(p, HandOuts(n));
    RunKeeps(p, HandOuts(n));
  }

  lemma {:induction false} NoGenerateGuarded(p: Pool, acts: seq<Action>)
    requires forall k :: 0 <= k < |acts| ==> !acts[k].Generate?
    ensures Guarded(p, acts)
    decreases |acts|
  {
    if acts != [] {
      NoGenerateGuarded(Step(p, acts[0]), acts[1..]);
    }
  }

  lemma ClearStaysRight(p: Pool)
    requires PoolOk(p)
    ensures StaysRight(p)
  {
    forall acts | Guarded(p, acts) ensures NoMismatch(RunAll(p, acts)) {
      var q := RunAll(p, acts);
      RunKeeps(p, acts);
      PoolClaims(q);
      forall k | k in q.out && Find(q.privs, k.keyId).Some? ensures PrekeyAgrees(q.privs, Some(k)) {
        FindById(q.privs, k.keyId);
      }
    }
  }

  /**
   The source starts a batch whenever it reads a low count. That is safe exactly when the pool is
   clear: otherwise some later interleaving hands out a key whose id finds another private half.
   */
  lemma GuardIsExact(p: Pool, i: nat, random: seq<nat>)
    requires PoolOk(p) && i < |p.runs| && p.runs[i].Counted? && p.runs[i].count < LOW_WATERMARK
    requires |random| == REPLENISH_COUNT && NewRandom(p, random)
    ensures StaysRight(Step(p, Generate(i, random))) <==> Clear(p)
  {
    MaxIdIsLength(p.privs);
    assert Step(p, Generate(i, random)) == Generated(p, i, random);
    if Clear(p) {
      GenerateKeeps(p, i, random);
      ClearStaysRight(Generated(p, i, random));
    } else {
      NotClearBreaks(p, i, random);
    }
  }

  /** Two page events close together, with the first run's upload still on its way. */
  function TwoRunsTrace(first: seq<nat>): seq<Action> {
    [Ask, Ask, Count(0), Count(1)] + [Generate(0, first)]
  }

  lemma TwoRunsAt(p: Pool, first: seq<nat>)
    requires p.runs == [] && |p.rows| < LOW_WATERMARK && |first| == REPLENISH_COUNT
    ensures RunAll(p, TwoRunsTrace(first)).runs == [Uploading(Batch(MaxId(p.privs) + 1, first)), Counted(|p.rows|)]
    ensures Guarded(p, TwoRunsTrace(first))
  {
    hide MaxId, Batch;
    var four := [Ask, Ask, Count(0), Count(1)];
    var q := RunAll(p, four);
    FourSteps(p, four);
    assert q == p.(runs := [Counted(|p.rows|), Counted(|p.rows|)]);
    RunAdd(p, four, [Generate(0, first)]);
    var r := Step(q, Generate(0, first));
    assert RunAll(q, [Generate(0, first)]) == RunAll(r, []);
    NoGenerateGuarded(p, four);
    NoGenerateGuarded(r, []);
    GuardedAdd(p, four, [Generate(0, first)]);
  }

  lemma {:induction false} GuardedAdd(p: Pool, a: seq<Action>, b: seq<Action>)
    requires Guarded(p, a) && Guarded(RunAll(p, a), b)
    ensures Guarded(p, a + b)
    decreases |a|
  {
    if a == [] {
      assert a + b == b;
    } else {
      assert (a + b)[1..] == a[1..] + b;
      GuardedAdd(Step(p, a[0]), a[1..], b);
    }
  }

  lemma NewPoolShape(random: seq<nat>)
    ensures var p := NewPool(random, {});
            PoolOk(p) && p.runs == [] && |p.rows| == |random| && MaxId(p.privs) == |random|
  {
    NewPoolOk(random, {});
    GoodAll(Batch(1, random));
    MaxIdIsLength(NewPool(random, {}).privs);
  }

  lemma TwoRuns(random: seq<nat>, first: seq<nat>)
    requires |random| == REPLENISH_COUNT && |first| == REPLENISH_COUNT
    ensures var p := RunAll(NewPool(random, {}), HandOuts(8) + TwoRunsTrace(first));
            PoolOk(p) && |p.runs| == 2 && p.runs[0].Uploading? && p.runs[0].batch == Batch(REPLENISH_COUNT + 1, first)
            && p.runs[1] == Counted(2)
  {
    NewPoolShape(random);
    hide TwoRunsTrace, Guarded, NewPool, PoolOk, RunAll, Batch;
    var p, acts := NewPool(random, {}), TwoRunsTrace(first);
    var q := RunAll(p, HandOuts(8));
    AfterHandOuts(p, 8);
    NoGenerateGuarded(p, HandOuts(8));
    TwoRunsAt(q, first);
    GuardedAdd(p, HandOuts(8), acts);
    RunKeeps(p, HandOuts(8) + acts);
    RunAdd(p, HandOuts(8), acts);
  }

  /** So from every new device's pool, overlapping runs can make a handed-out key id find another key. */
  lemma OverlapMismatch(random: seq<nat>, first: seq<nat>, second: seq<nat>)
    requires |random| == REPLENISH_COUNT && |first| == REPLENISH_COUNT && |second| == REPLENISH_COUNT
    requires forall k :: k in first ==> k !in second
    ensures exists acts :: !NoMismatch(RunAll(NewPool(random, {}), acts))
  {
    var before := HandOuts(8) + TwoRunsTrace(first);
    TwoRuns(random, first);
    var p := RunAll(NewPool(random, {}), before);
    assert Live(p.runs[0]) && NewRandom(p, second);
    GuardIsExact(p, 1, second);
    var q := Step(p, Generate(1, second));
    var after :| Guarded(q, after) && !NoMismatch(RunAll(q, after));
    assert RunAll(p, [Generate(1, second)] + after) == RunAll(q, after) by {
      assert ([Generate(1, second)] + after)[1..] == after;
    }
    RunAdd(NewPool(random, {}), before, [Generate(1, second)] + after);
  }
}
