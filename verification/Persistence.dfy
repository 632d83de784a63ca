/**
 When a session reaches the database. Memory is updated when a frame is encrypted, the stored copy
 of an outbound session when its frame is acknowledged, an inbound session at once. One page
 lifetime: `waiting` holds the message ids whose acks are still to come, in send order.
 */
module Persistence {
  import opened Wrappers
  import opened Crypto
  import opened Ratchet
  import opened X3dh
  import opened Messaging
  import opened ChatClient

  datatype Tab = Tab(c: ChatState, waiting: seq<nat>)

  datatype Event =
    | Send(rid: nat, bundle: PreKeyBundle, text: Plaintext, draw: Draw)
    | Delivery(seqNo: nat, envelope: Envelope, newPriv: nat)
    | Ack
    | Reset(contact: nat)

  function Ids(frames: seq<Frame>): seq<nat> {
    seq(|frames|, i requires 0 <= i < |frames| => frames[i].messageId)
  }

  function Step(t: Tab, e: Event): Tab {
    match e
    case Send(rid, bundle, text, draw) =>
      (match SendOne(t.c, rid, bundle, text, draw)
       case Err(_) => t
       case Ok((c, frames)) => Tab(c, t.waiting + Ids(frames)))
    case Delivery(seqNo, envelope, newPriv) => t.(c := OnDelivery(t.c, seqNo, envelope, newPriv))
    case Ack => if t.waiting == [] then t else Tab(OnAck(t.c, t.waiting[0]), t.waiting[1..])
    case Reset(contact) => t.(c := OnReset(t.c, contact))
  }

  /** randomUUID does not repeat an id that is still waiting. */
  predicate Fresh(t: Tab, e: Event) {
    e.Send? ==> e.draw.messageId !in t.waiting
  }

  function Run(t: Tab, events: seq<Event>): Tab {
    if events == [] then t else Step(Run(t, events[..|events| - 1]), events[|events| - 1])
  }

  predicate AllFresh(t: Tab, events: seq<Event>) {
    events == []
    || (AllFresh(t, events[..|events| - 1]) && Fresh(Run(t, events[..|events| - 1]), events[|events| - 1]))
  }

  /** A page right after loading: memory is a copy of the tables and nothing is waiting. */
  predicate Loaded(t: Tab) {
    t.c.sessions == t.c.stored && t.c.pendingAcks == map[] && t.waiting == []
  }

  predicate IsPending(c: ChatState, key: SessionKey) {
    exists id :: id in c.pendingAcks && c.pendingAcks[id].sessionKey == key
  }

  predicate PendingOk(t: Tab) {
    && (forall i, j :: 0 <= i < j < |t.waiting| ==> t.waiting[i] != t.waiting[j])
    && (forall i :: 0 <= i < |t.waiting| ==> t.waiting[i] in t.c.pendingAcks)
    && (forall id :: id in t.c.pendingAcks ==> id in t.waiting && t.c.pendingAcks[id].sessionKey.Outbound?)
  }

  /** The last waiting frame of the session, at index i, left the session as `s`. */
  ghost predicate LastLeft(t: Tab, key: SessionKey, i: nat, s: RatchetState)
    requires PendingOk(t)
  {
    && i < |t.waiting| && t.c.pendingAcks[t.waiting[i]] == PendingAck(s, key)
    && forall j :: i < j < |t.waiting| ==> t.c.pendingAcks[t.waiting[j]].sessionKey != key
  }

  ghost predicate StoredAs(c: ChatState, key: SessionKey, s: RatchetState) {
    key in c.stored && c.stored[key] == s
  }

  ghost predicate Synced(t: Tab, key: SessionKey, s: RatchetState)
    requires PendingOk(t)
  {
    if IsPending(t.c, key) then exists i: nat :: LastLeft(t, key, i, s) else StoredAs(t.c, key, s)
  }

  ghost predicate TabOk(t: Tab) {
    PendingOk(t) && forall key :: key in t.c.sessions ==> Synced(t, key, t.c.sessions[key])
  }

  /** Dropping sessions from memory and table, or storing what memory got, keeps the correspondence. */
  lemma SameWaiting(t: Tab, c: ChatState)
    requires TabOk(t) && c.pendingAcks == t.c.pendingAcks
    requires forall key :: key in c.sessions ==>
               (key in t.c.sessions && c.sessions[key] == t.c.sessions[key]
                && (key in c.stored <==> key in t.c.stored) && (key in c.stored ==> c.stored[key] == t.c.stored[key]))
               || (key.Inbound? && StoredAs(c, key, c.sessions[key]))
    ensures TabOk(t.(c := c))
  {
    var u := t.(c := c);
    forall key | key in c.sessions ensures Synced(u, key, c.sessions[key]) {
      if key.Inbound? && StoredAs(c, key, c.sessions[key]) {
        assert !IsPending(c, key);
      } else {
        assert Synced(t, key, c.sessions[key]);
        if IsPending(t.c, key) {
          var i: nat :| LastLeft(t, key, i, c.sessions[key]);
          assert LastLeft(u, key, i, c.sessions[key]);
        }
      }
    }
  }

  lemma SendKeeps(t: Tab, key: SessionKey, s: RatchetState, id: nat)
    requires TabOk(t) && key.Outbound? && id !in t.waiting
    ensures TabOk(Tab(t.c.(sessions := t.c.sessions[key := s],
                           pendingAcks := t.c.pendingAcks[id := PendingAck(s, key)]),
                      t.waiting + [id]))
  {
    var u := Tab(t.c.(sessions := t.c.sessions[key := s], pendingAcks := t.c.pendingAcks[id := PendingAck(s, key)]),
                 t.waiting + [id]);
    assert u.waiting[|t.waiting|] == id;
    assert PendingOk(u);
    forall k | k in u.c.sessions ensures Synced(u, k, u.c.sessions[k]) {
      if k == key {
        assert u.c.pendingAcks[id].sessionKey == key;
        assert LastLeft(u, k, |t.waiting|, s);
      } else {
        assert Synced(t, k, t.c.sessions[k]);
        if IsPending(t.c, k) {
          var i: nat :| LastLeft(t, k, i, t.c.sessions[k]);
          assert LastLeft(u, k, i, t.c.sessions[k]);
        }
      }
    }
  }

  lemma AckPending(t: Tab)
    requires PendingOk(t) && t.waiting != []
    ensures var u := Step(t, Ack);
            && PendingOk(u) && u.c.pendingAcks == t.c.pendingAcks - {t.waiting[0]}
            && u.c.sessions == t.c.sessions
            && var acked := t.c.pendingAcks[t.waiting[0]]; u.c.stored == t.c.stored[acked.sessionKey := acked.newState]
  {
    var u := Step(t, Ack);
    FirstOut(t.waiting);
    assert forall i :: 0 <= i < |u.waiting| ==> u.waiting[i] in u.waiting;
  }

  lemma FirstOut(waiting: seq<nat>)
    requires waiting != [] && forall i, j :: 0 <= i < j < |waiting| ==> waiting[i] != waiting[j]
    ensures forall id :: id in waiting[1..] <==> id in waiting && id != waiting[0]
    ensures forall i, j :: 0 <= i < j < |waiting[1..]| ==> waiting[1..][i] != waiting[1..][j]
  {
    assert waiting == [waiting[0]] + waiting[1..];
  }

  lemma AckSynced(t: Tab, key: SessionKey, s: RatchetState)
    requires PendingOk(t) && t.waiting != [] && Synced(t, key, s) && PendingOk(Step(t, Ack))
    ensures Synced(Step(t, Ack), key, s)
  {
    AckPending(t);
    var u := Step(t, Ack);
    hide Step, OnAck;
    assert t.waiting == [t.waiting[0]] + t.waiting[1..];
    if IsPending(t.c, key) {
      var i: nat :| LastLeft(t, key, i, s);
      LaterOnly(t, key, i, s);
    } else {
      assert t.c.pendingAcks[t.waiting[0]].sessionKey != key;
    }
  }

  /** If the acked frame was the session's last one waiting, its state is stored; else it still waits. */
  lemma LaterOnly(t: Tab, key: SessionKey, i: nat, s: RatchetState)
    requires PendingOk(t) && t.waiting != [] && PendingOk(Step(t, Ack)) && LastLeft(t, key, i, s)
    ensures i > 0 ==> IsPending(Step(t, Ack).c, key) && LastLeft(Step(t, Ack), key, i - 1, s)
    ensures i == 0 ==> !IsPending(Step(t, Ack).c, key) && StoredAs(Step(t, Ack).c, key, s)
  {
    AckPending(t);
    var u := Step(t, Ack);
    assert u.waiting == t.waiting[1..];
    hide Step, OnAck;
    if i > 0 {
      assert u.waiting[i - 1] == t.waiting[i];
      assert u.c.pendingAcks[t.waiting[i]].sessionKey == key;
    } else {
      forall id | id in u.c.pendingAcks ensures u.c.pendingAcks[id].sessionKey != key {
        var j :| 0 <= j < |u.waiting| && u.waiting[j] == id;
        assert t.waiting[j + 1] == id;
      }
    }
  }

  lemma AckKeeps(t: Tab)
    requires TabOk(t) && t.waiting != []
    ensures TabOk(Step(t, Ack))
  {
    AckPending(t);
    hide Step, OnAck, Synced;
    forall key | key in t.c.sessions ensures Synced(Step(t, Ack), key, t.c.sessions[key]) {
      AckSynced(t, key, t.c.sessions[key]);
    }
  }

  lemma DropKeeps(t: Tab, c: ChatState, user: nat)
    requires TabOk(t.(c := c))
    ensures TabOk(t.(c := DropOutbound(c, user)))
  {
    SameWaiting(t.(c := c), DropOutbound(c, user));
  }

  lemma ResetKeeps(t: Tab, contact: nat)
    requires TabOk(t)
    ensures TabOk(t.(c := OnReset(t.c, contact)))
  {
    DropKeeps(t, t.c, contact);
    SameWaiting(t.(c := DropOutbound(t.c, contact)), OnReset(t.c, contact));
  }

  lemma OpenedKeeps(t: Tab, envelope: Envelope, s: RatchetState, text: Plaintext)
    requires TabOk(t)
    ensures TabOk(t.(c := OnOpened(t.c, envelope, s, text)))
  {
    var key := Inbound(envelope.ik);
    var d := t.c.(sessions := t.c.sessions[key := s], stored := t.c.stored[key := s],
                  history := t.c.history + [Opened(envelope.ik, text)]);
    SameWaiting(t, d);
    if text.Message? {
      var e := if envelope.ik in d.contacts then d else d.(contacts := d.contacts[envelope.ik := text.senderId]);
      SameWaiting(t.(c := d), e);
      DropKeeps(t, e, text.senderId);
    }
  }

  lemma DeliveryKeeps(t: Tab, seqNo: nat, envelope: Envelope, newPriv: nat)
    requires TabOk(t)
    ensures TabOk(t.(c := OnDelivery(t.c, seqNo, envelope, newPriv)))
  {
    var d := if seqNo > t.c.lastSeq then t.c.(lastSeq := seqNo) else t.c;
    SameWaiting(t, d);
    var result := DecryptInbound(d.keys, Lookup(d.sessions, Inbound(envelope.ik)), envelope, newPriv);
    if result.Ok? {
      OpenedKeeps(t.(c := d), envelope, result.value.0, result.value.1);
    }
  }

  lemma StepKeeps(t: Tab, e: Event)
    requires TabOk(t) && Fresh(t, e)
    ensures TabOk(Step(t, e))
  {
    match e
    case Send(rid, bundle, text, draw) =>
      var r := SendOne(t.c, rid, bundle, text, draw);
      if r.Ok? && bundle.verified {
        var key := Outbound(rid, bundle.deviceId);
        SendKeeps(t, key, r.value.0.sessions[key], draw.messageId);
        assert Ids(r.value.1) == [draw.messageId];
      } else if r.Ok? {
        assert t.waiting + Ids([]) == t.waiting;
      }
    case Delivery(seqNo, envelope, newPriv) => DeliveryKeeps(t, seqNo, envelope, newPriv);
    case Ack => if t.waiting != [] { AckKeeps(t); }
    case Reset(contact) => ResetKeeps(t, contact);
  }

  lemma {:induction false} RunKeeps(t: Tab, events: seq<Event>)
    requires TabOk(t) && AllFresh(t, events)
    ensures TabOk(Run(t, events))
  {
    if events != [] {
      RunKeeps(t, events[..|events| - 1]);
      StepKeeps(Run(t, events[..|events| - 1]), events[|events| - 1]);
    }
  }

  /**
   At every point of a page's life, a session in memory with no ack pending is stored as it is, and
   an inbound session always is.
   */
  lemma StoredWhenQuiet(t: Tab, events: seq<Event>, key: SessionKey)
    requires Loaded(t) && AllFresh(t, events)
    requires key in Run(t, events).c.sessions && (key.Inbound? || !IsPending(Run(t, events).c, key))
    ensures var c := Run(t, events).c; key in c.stored && c.stored[key] == c.sessions[key]
  {
    RunKeeps(t, events);
    var u := Run(t, events);
    assert Synced(u, key, u.c.sessions[key]);
  }

  // ---------------------------------------------------------------- what a reload would find

  /** The tab once every waiting ack has come. */
  function Drained(t: Tab): Tab
    decreases |t.waiting|
  {
    if t.waiting == [] then t else Drained(Step(t, Ack))
  }

  function PendingKeys(c: ChatState): set<SessionKey> {
    set id | id in c.pendingAcks :: c.pendingAcks[id].sessionKey
  }

  lemma AckTables(t: Tab)
    requires PendingOk(t) && t.waiting != []
    ensures var u := Step(t, Ack);
            u.c.stored.Keys + PendingKeys(u.c) == t.c.stored.Keys + PendingKeys(t.c)
  {
    AckPending(t);
    var u, id := Step(t, Ack), t.waiting[0];
    var key := t.c.pendingAcks[id].sessionKey;
    hide Step, OnAck, PendingOk;
    assert PendingKeys(t.c) == PendingKeys(u.c) + {key} by {
      forall k | k in PendingKeys(t.c) ensures k in PendingKeys(u.c) + {key} {
        var other :| other in t.c.pendingAcks && t.c.pendingAcks[other].sessionKey == k;
        assert other == id || other in u.c.pendingAcks;
      }
      forall k | k in PendingKeys(u.c) ensures k in PendingKeys(t.c) {
        var other :| other in u.c.pendingAcks && u.c.pendingAcks[other].sessionKey == k;
        assert other in t.c.pendingAcks;
      }
    }
  }

  lemma {:induction false} DrainedTables(t: Tab)
    requires TabOk(t)
    ensures TabOk(Drained(t)) && Drained(t).waiting == []
    ensures Drained(t).c.sessions == t.c.sessions
    ensures Drained(t).c.stored.Keys == t.c.stored.Keys + PendingKeys(t.c)
    decreases |t.waiting|
  {
    if t.waiting == [] {
      assert PendingKeys(t.c) == {};
    } else {
      AckPending(t);
      AckKeeps(t);
      AckTables(t);
      DrainedTables(Step(t, Ack));
    }
  }

  /** Nothing is stored, or about to be, for a session that memory has dropped. */
  predicate NothingStale(t: Tab) {
    t.c.stored.Keys + PendingKeys(t.c) <= t.c.sessions.Keys
  }

  /** Once the acks are in, the tables are memory's exact copy iff nothing is stale. */
  lemma DrainedIsCopy(t: Tab)
    requires TabOk(t)
    ensures Drained(t).c.stored == t.c.sessions <==> NothingStale(t)
  {
    DrainedTables(t);
    var u := Drained(t);
    if NothingStale(t) {
      forall key | key in t.c.sessions ensures key in u.c.stored && u.c.stored[key] == t.c.sessions[key] {
        assert Synced(u, key, u.c.sessions[key]);
        assert !IsPending(u.c, key);
      }
      assert u.c.stored.Keys == t.c.sessions.Keys;
    }
  }

  /** A session of the contact waits for an ack. */
  predicate AckPendingFor(c: ChatState, contact: nat) {
    exists id :: id in c.pendingAcks && BelongsTo(c.pendingAcks[id].sessionKey, contact)
  }

  /** The user whose outbound sessions an event drops, if any. */
  function Drops(c: ChatState, e: Event): Option<nat> {
    match e
    case Reset(contact) => Some(contact)
    case Delivery(_, envelope, newPriv) =>
      var got := DecryptInbound(c.keys, Lookup(c.sessions, Inbound(envelope.ik)), envelope, newPriv);
      if (c.keys.deviceId.Some? && c.keys.deviceId.value != envelope.deviceId) || got.Err? || !envelope.Init? then None
      else if got.value.1.Message? then Some(got.value.1.senderId) else None
    case Send(_, _, _, _) => None
    case Ack => None
  }

  /** What a handler leaves of the outbound sessions and of the keys in memory and table. */
  ghost predicate DropsOnly(c: ChatState, d: ChatState, who: Option<nat>) {
    && d.pendingAcks == c.pendingAcks
    && (forall key: SessionKey :: key.Outbound? ==>
          (key in d.sessions <==> key in c.sessions && (who.Some? ==> !BelongsTo(key, who.value))))
    && (c.stored.Keys <= c.sessions.Keys ==> d.stored.Keys <= d.sessions.Keys)
    && (forall key: SessionKey :: key.Outbound? ==>
          (key in d.stored <==> key in c.stored && !(who.Some? && BelongsTo(key, who.value) && key in c.sessions))
          && (key in d.stored ==> d.stored[key] == c.stored[key]))
  }

  lemma OpenedDrops(c: ChatState, envelope: Envelope, s: RatchetState, text: Plaintext)
    ensures DropsOnly(c, OnOpened(c, envelope, s, text),
                      if envelope.Init? && text.Message? then Some(text.senderId) else None)
  {
  }

  lemma DeliveryDrops(c: ChatState, seqNo: nat, envelope: Envelope, newPriv: nat)
    ensures DropsOnly(c, OnDelivery(c, seqNo, envelope, newPriv), Drops(c, Delivery(seqNo, envelope, newPriv)))
  {
    hide OnOpened;
    var d := if seqNo > c.lastSeq then c.(lastSeq := seqNo) else c;
    var got := DecryptInbound(d.keys, Lookup(d.sessions, Inbound(envelope.ik)), envelope, newPriv);
    hide DecryptInbound;
    if got.Ok? {
      OpenedDrops(d, envelope, got.value.0, got.value.1);
    }
  }

  lemma ResetDrops(c: ChatState, contact: nat)
    ensures DropsOnly(c, OnReset(c, contact), Some(contact))
  {
  }

  /**
   A drop, by a reset or by an opened init, is undone by a later reload exactly when an ack of one of
   the dropped sessions was still pending: that ack stores the session again.
   */
  lemma DropThenReload(t: Tab, e: Event)
    requires TabOk(t) && NothingStale(t) && Drops(t.c, e).Some?
    ensures var u := Step(t, e);
            Drained(u).c.stored == u.c.sessions <==> !AckPendingFor(t.c, Drops(t.c, e).value)
  {
    var u := Step(t, e);
    StepKeeps(t, e);
    DropsAsSaid(t, e);
    hide Step, Drops, TabOk, OnReset, OnDelivery, Drained;
    DropStale(t, u.c, Drops(t.c, e).value);
    DrainedIsCopy(u);
  }

  lemma DropsAsSaid(t: Tab, e: Event)
    requires e.Reset? || e.Delivery?
    ensures Step(t, e).waiting == t.waiting && DropsOnly(t.c, Step(t, e).c, Drops(t.c, e))
  {
    hide OnReset, OnDelivery, DropsOnly;
    if e.Reset? {
      ResetDrops(t.c, e.contact);
    } else {
      DeliveryDrops(t.c, e.seqNo, e.envelope, e.newPriv);
    }
  }

  lemma DropStale(t: Tab, c: ChatState, contact: nat)
    requires NothingStale(t) && PendingOk(t) && DropsOnly(t.c, c, Some(contact))
    ensures NothingStale(t.(c := c)) <==> !AckPendingFor(t.c, contact)
  {
    if AckPendingFor(t.c, contact) {
      var id :| id in c.pendingAcks && BelongsTo(c.pendingAcks[id].sessionKey, contact);
      assert c.pendingAcks[id].sessionKey in PendingKeys(c);
    } else {
      forall key | key in PendingKeys(c) ensures key in c.sessions {
        var id :| id in c.pendingAcks && c.pendingAcks[id].sessionKey == key;
        assert key in PendingKeys(t.c);
        assert key.Outbound? && !BelongsTo(key, contact);
      }
    }
  }

  // ---------------------------------------------------------------- runs whose drops lose no ack

  /** No step drops a session that still waits for an ack. */
  predicate QuietDrops(t: Tab, events: seq<Event>) {
    events == []
    || (var before := Run(t, events[..|events| - 1]);
        var who := Drops(before.c, events[|events| - 1]);
        QuietDrops(t, events[..|events| - 1]) && (who.Some? ==> !AckPendingFor(before.c, who.value)))
  }

  lemma StepNotStale(t: Tab, e: Event)
    requires TabOk(t) && NothingStale(t) && Fresh(t, e)
    requires Drops(t.c, e).Some? ==> !AckPendingFor(t.c, Drops(t.c, e).value)
    ensures NothingStale(Step(t, e))
  {
    var u, who := Step(t, e), Drops(t.c, e);
    match e
    case Ack =>
      if t.waiting != [] {
        AckPending(t);
        AckTables(t);
      }
    case Send(rid, bundle, text, draw) => SendNotStale(t, rid, bundle, text, draw);
    case Reset(_) =>
      DropsAsSaid(t, e);
      hide *;
      DropStale(t, u.c, who.value);
    case Delivery(_, _, _) =>
      DropsAsSaid(t, e);
      NotStaleAfter(t, u, who);
  }

  lemma NotStaleAfter(t: Tab, u: Tab, who: Option<nat>)
    requires PendingOk(t) && NothingStale(t) && u.waiting == t.waiting && DropsOnly(t.c, u.c, who)
    requires who.Some? ==> !AckPendingFor(t.c, who.value)
    ensures NothingStale(u)
  {
    if who.Some? {
      DropStale(t, u.c, who.value);
    } else {
      forall key | key in PendingKeys(u.c) ensures key in u.c.sessions {
        var id :| id in u.c.pendingAcks && u.c.pendingAcks[id].sessionKey == key;
        assert key in PendingKeys(t.c) && key.Outbound?;
      }
    }
  }

  lemma SendNotStale(t: Tab, rid: nat, bundle: PreKeyBundle, text: Plaintext, draw: Draw)
    requires NothingStale(t) && draw.messageId !in t.waiting
    ensures NothingStale(Step(t, Send(rid, bundle, text, draw)))
  {
    var u := Step(t, Send(rid, bundle, text, draw));
    forall key | key in PendingKeys(u.c) ensures key in u.c.sessions {
      var id :| id in u.c.pendingAcks && u.c.pendingAcks[id].sessionKey == key;
      if id in t.c.pendingAcks && t.c.pendingAcks[id] == u.c.pendingAcks[id] {
        assert key in PendingKeys(t.c);
      }
    }
  }

  /** Then, at every point and once the acks are in, a reload finds exactly the sessions of memory. */
  lemma {:induction false} ReloadFindsMemory(t: Tab, events: seq<Event>)
    requires Loaded(t) && AllFresh(t, events) && QuietDrops(t, events)
    ensures NothingStale(Run(t, events))
    ensures Drained(Run(t, events)).c.stored == Run(t, events).c.sessions
  {
    hide Step, Drops, AckPendingFor, Fresh;
    if events != [] {
      var front := events[..|events| - 1];
      ReloadFindsMemory(t, front);
      RunKeeps(t, front);
      StepNotStale(Run(t, front), events[|front|]);
    }
    RunKeeps(t, events);
    DrainedIsCopy(Run(t, events));
  }

  // ---------------------------------------------------------------- exactly which sessions a reload brings back

  /** Stored, or about to be, and not in memory. */
  predicate Stale(c: ChatState, key: SessionKey) {
    (key in c.stored || IsPending(c, key)) && key !in c.sessions
  }

  predicate SendsOn(c: ChatState, e: Event, key: SessionKey) {
    e.Send? && e.bundle.verified && key == Outbound(e.rid, e.bundle.deviceId)
    && SendOne(c, e.rid, e.bundle, e.text, e.draw).Ok?
  }

  predicate DropsKey(c: ChatState, e: Event, key: SessionKey) {
    key in c.sessions && Drops(c, e).Some? && BelongsTo(key, Drops(c, e).value)
  }

  /**
   The last drop of the session met a pending ack of it, and the session has not been made anew since.
   Both can be seen at the drop and at the send.
   */
  predicate Undone(t: Tab, events: seq<Event>, key: SessionKey) {
    events != [] &&
      var front, e := events[..|events| - 1], events[|events| - 1];
      var c := Run(t, front).c;
      if SendsOn(c, e, key) then false
      else if DropsKey(c, e, key) then IsPending(c, key)
      else Undone(t, front, key)
  }

  lemma DropStep(t: Tab, e: Event, key: SessionKey)
    requires (e.Reset? || e.Delivery?) && key.Outbound?
    ensures Stale(Step(t, e).c, key) <==> if DropsKey(t.c, e, key) then IsPending(t.c, key) else Stale(t.c, key)
  {
    DropsAsSaid(t, e);
    hide Step, Drops;
    assert IsPending(Step(t, e).c, key) <==> IsPending(t.c, key);
  }

  lemma SendStep(t: Tab, e: Event, key: SessionKey)
    requires PendingOk(t) && e.Send? && Fresh(t, e) && key.Outbound?
    ensures Stale(Step(t, e).c, key) <==> !SendsOn(t.c, e, key) && Stale(t.c, key)
  {
    var u := Step(t, e);
    if u.c.pendingAcks != t.c.pendingAcks {
      var own := Outbound(e.rid, e.bundle.deviceId);
      assert forall id :: id in u.c.pendingAcks <==> id in t.c.pendingAcks || id == e.draw.messageId;
      assert forall id :: id in t.c.pendingAcks ==> u.c.pendingAcks[id] == t.c.pendingAcks[id];
      assert u.c.pendingAcks[e.draw.messageId].sessionKey == own;
    }
  }

  lemma AckStep(t: Tab, key: SessionKey)
    requires PendingOk(t)
    ensures Stale(Step(t, Ack).c, key) <==> Stale(t.c, key)
  {
    if t.waiting != [] {
      AckPending(t);
      AckTables(t);
      var u := Step(t, Ack);
      hide Step, PendingOk;
      assert key in u.c.stored.Keys + PendingKeys(u.c) <==> key in t.c.stored.Keys + PendingKeys(t.c);
      PendingKeysAre(u.c, key);
      PendingKeysAre(t.c, key);
    }
  }

  lemma PendingKeysAre(c: ChatState, key: SessionKey)
    ensures key in PendingKeys(c) <==> IsPending(c, key)
  {
  }

  lemma {:induction false} StaleIsUndone(t: Tab, events: seq<Event>, key: SessionKey)
    requires Loaded(t) && AllFresh(t, events) && key.Outbound?
    ensures Stale(Run(t, events).c, key) <==> Undone(t, events, key)
  {
    if events == [] {
      assert !IsPending(t.c, key);
    } else {
      var front, e := events[..|events| - 1], events[|events| - 1];
      StaleIsUndone(t, front, key);
      RunKeeps(t, front);
      hide Step, Stale, IsPending, Drops, SendOne;
      match e
      case Send(_, _, _, _) => SendStep(Run(t, front), e, key);
      case Ack => AckStep(Run(t, front), key);
      case Delivery(_, _, _) => DropStep(Run(t, front), e, key);
      case Reset(_) => DropStep(Run(t, front), e, key);
    }
  }

  /** Inbound sessions are stored and dropped together. */
  predicate InboundTogether(c: ChatState) {
    forall key :: key in c.stored && key.Inbound? ==> key in c.sessions
  }

  lemma {:induction false} RunInbound(t: Tab, events: seq<Event>)
    requires Loaded(t) && AllFresh(t, events)
    ensures InboundTogether(Run(t, events).c)
  {
    if events != [] {
      RunInbound(t, events[..|events| - 1]);
      RunKeeps(t, events[..|events| - 1]);
      StepInbound(Run(t, events[..|events| - 1]), events[|events| - 1]);
    }
  }

  lemma StepInbound(t: Tab, e: Event)
    requires PendingOk(t) && InboundTogether(t.c)
    ensures InboundTogether(Step(t, e).c)
  {
    hide DecryptInbound, EncryptForDevice, OnOpened;
    if e.Delivery? {
      var d := if e.seqNo > t.c.lastSeq then t.c.(lastSeq := e.seqNo) else t.c;
      var got := DecryptInbound(d.keys, Lookup(d.sessions, Inbound(e.envelope.ik)), e.envelope, e.newPriv);
      if got.Ok? {
        OpenedInbound(d, e.envelope, got.value.0, got.value.1);
      }
    }
  }

  lemma OpenedInbound(c: ChatState, envelope: Envelope, s: RatchetState, text: Plaintext)
    requires InboundTogether(c)
    ensures InboundTogether(OnOpened(c, envelope, s, text))
  {
  }

  /**
   Over every run of a page: once the acks are in, the table holds an outbound session that memory
   has dropped exactly if its last drop met a pending ack and no later send made it anew; and the
   table is memory's exact copy exactly if there is no such session.
   */
  lemma DropsUndone(t: Tab, events: seq<Event>)
    requires Loaded(t) && AllFresh(t, events)
    ensures var u := Run(t, events);
            && (forall key: SessionKey :: key.Outbound? ==>
                  (key in Drained(u).c.stored && key !in u.c.sessions <==> Undone(t, events, key)))
            && (Drained(u).c.stored == u.c.sessions
                <==> forall key: SessionKey :: key.Outbound? ==> !Undone(t, events, key))
  {
    var u := Run(t, events);
    RunKeeps(t, events);
    RunInbound(t, events);
    DrainedTables(u);
    DrainedIsCopy(u);
    forall key: SessionKey ensures key in PendingKeys(u.c) <==> IsPending(u.c, key) {
      PendingKeysAre(u.c, key);
    }
    forall key: SessionKey | key.Outbound? ensures Stale(u.c, key) <==> Undone(t, events, key) {
      StaleIsUndone(t, events, key);
    }
    hide Undone, Drained, Run, IsPending;
    AllStale(u);
  }

  lemma AllStale(t: Tab)
    requires PendingOk(t) && InboundTogether(t.c)
    ensures NothingStale(t) <==> forall key: SessionKey :: key.Outbound? ==> !Stale(t.c, key)
  {
    forall key: SessionKey ensures key in PendingKeys(t.c) <==> IsPending(t.c, key) {
      PendingKeysAre(t.c, key);
    }
  }

  /** On a page without sessions: one message, a reset before its ack, the ack. The dropped session is stored again. */
  lemma LateAckUndoesReset(t: Tab, rid: nat, bundle: PreKeyBundle, text: Plaintext, draw: Draw)
    requires Loaded(t) && t.c.sessions == map[] && bundle.verified
    ensures var key, sent := Outbound(rid, bundle.deviceId), SendOne(t.c, rid, bundle, text, draw);
            var u := Step(Step(Step(t, Send(rid, bundle, text, draw)), Reset(rid)), Ack);
            && sent.Ok? && u.waiting == [] && u.c.sessions == map[]
            && u.c.stored == map[key := sent.value.0.sessions[key]]
  {
    var e := Send(rid, bundle, text, draw);
    var sent := SendOne(t.c, rid, bundle, text, draw);
    assert Ids(sent.value.1) == [draw.messageId];
    var u1 := Step(t, e);
    assert u1.waiting == [draw.messageId];
    var u2 := Step(u1, Reset(rid));
    assert u2.c.sessions == map[] && u2.c.stored == map[];
  }

  // ---------------------------------------------------------------- what is stored while acks are pending

  /** The state that the last acked frame of the session left; nothing after a drop, what was loaded before either. */
  function LastAcked(t: Tab, events: seq<Event>, key: SessionKey): Option<RatchetState> {
    if events == [] then Lookup(t.c.stored, key) else
    var front, e := events[..|events| - 1], events[|events| - 1];
    var u := Run(t, front);
    if e.Ack? && u.waiting != [] && u.waiting[0] in u.c.pendingAcks && u.c.pendingAcks[u.waiting[0]].sessionKey == key
    then Some(u.c.pendingAcks[u.waiting[0]].newState)
    else if DropsKey(u.c, e, key) then None
    else LastAcked(t, front, key)
  }

  lemma StoredStep(t: Tab, e: Event, key: SessionKey)
    requires PendingOk(t) && key.Outbound?
    ensures Lookup(Step(t, e).c.stored, key)
         == if e.Ack? && t.waiting != [] && t.c.pendingAcks[t.waiting[0]].sessionKey == key
            then Some(t.c.pendingAcks[t.waiting[0]].newState)
            else if DropsKey(t.c, e, key) then None
            else Lookup(t.c.stored, key)
  {
    match e
    case Send(_, _, _, _) =>
    case Ack =>
      if t.waiting != [] {
        AckPending(t);
      }
    case Delivery(_, _, _) =>
      DropsAsSaid(t, e);
      hide Step, Drops;
    case Reset(_) =>
      DropsAsSaid(t, e);
      hide Step, Drops;
  }

  /** At every point of a page's life the table holds each outbound session as its last acked frame left it. */
  lemma {:induction false} StoredIsLastAcked(t: Tab, events: seq<Event>, key: SessionKey)
    requires Loaded(t) && AllFresh(t, events) && key.Outbound?
    ensures Lookup(Run(t, events).c.stored, key) == LastAcked(t, events, key)
  {
    hide Step, DropsKey;
    if events != [] {
      var front := events[..|events| - 1];
      StoredIsLastAcked(t, front, key);
      RunKeeps(t, front);
      StoredStep(Run(t, front), events[|front|], key);
    }
  }

  /** Event i of the run is a send on the session, and memory held state s right after it. */
  ghost predicate LeftBy(t: Tab, events: seq<Event>, i: nat, key: SessionKey, s: RatchetState) {
    && i < |events| && SendsOn(Run(t, events[..i]).c, events[i], key)
    && Lookup(Run(t, events[..i + 1]).c.sessions, key) == Some(s)
  }

  lemma LeftByLonger(t: Tab, events: seq<Event>, e: Event, i: nat, key: SessionKey, s: RatchetState)
    requires LeftBy(t, events, i, key, s)
    ensures LeftBy(t, events + [e], i, key, s)
  {
    assert (events + [e])[..i] == events[..i] && (events + [e])[..i + 1] == events[..i + 1];
  }

  /** Every pending ack was made by a send, and carries the state that memory held right after it. */
  lemma {:induction false} PendingOrigin(t: Tab, events: seq<Event>, id: nat) returns (i: nat)
    requires Loaded(t) && AllFresh(t, events) && id in Run(t, events).c.pendingAcks
    ensures var pending := Run(t, events).c.pendingAcks[id];
            LeftBy(t, events, i, pending.sessionKey, pending.newState)
    ensures i < |events| && events[i].Send? && events[i].draw.messageId == id
  {
    assert events != [];
    var front, e := events[..|events| - 1], events[|events| - 1];
    var u, pending := Run(t, front), Run(t, events).c.pendingAcks[id];
    RunKeeps(t, front);
    PendingStep(u, e, id);
    assert events == front + [e];
    if id in u.c.pendingAcks && u.c.pendingAcks[id] == pending {
      i := PendingOrigin(t, front, id);
      LeftByLonger(t, front, e, i, pending.sessionKey, pending.newState);
    } else {
      i := |front|;
      assert events[..i] == front && events[..i + 1] == events;
    }
  }

  lemma PendingStep(t: Tab, e: Event, id: nat)
    requires PendingOk(t) && id in Step(t, e).c.pendingAcks
    ensures var pending := Step(t, e).c.pendingAcks[id];
            || (id in t.c.pendingAcks && t.c.pendingAcks[id] == pending)
            || (e.Send? && e.draw.messageId == id && SendsOn(t.c, e, pending.sessionKey)
                && Lookup(Step(t, e).c.sessions, pending.sessionKey) == Some(pending.newState))
  {
    match e
    case Send(_, _, _, _) => hide EncryptForDevice;
    case Ack =>
      if t.waiting != [] {
        AckPending(t);
      }
    case Delivery(_, _, _) =>
      DropsAsSaid(t, e);
      hide Step, Drops;
    case Reset(_) =>
      DropsAsSaid(t, e);
      hide Step, Drops;
  }

  /**
   So the stored state of an outbound session is what was loaded, or exactly what memory held right
   after some frame of the session, which has been acked: never a state that only memory had.
   */
  lemma {:induction false} StoredOrigin(t: Tab, events: seq<Event>, key: SessionKey)
    requires Loaded(t) && AllFresh(t, events) && key.Outbound?
    ensures var s := Lookup(Run(t, events).c.stored, key);
            s.None? || s == Lookup(t.c.stored, key) || exists i: nat :: LeftBy(t, events, i, key, s.value)
  {
    StoredIsLastAcked(t, events, key);
    if events != [] {
      var front, e := events[..|events| - 1], events[|events| - 1];
      var u := Run(t, front);
      assert events == front + [e];
      RunKeeps(t, front);
      StoredIsLastAcked(t, front, key);
      StoredOrigin(t, front, key);
      if e.Ack? && u.waiting != [] && u.c.pendingAcks[u.waiting[0]].sessionKey == key {
        var i := PendingOrigin(t, front, u.waiting[0]);
        LeftByLonger(t, front, e, i, key, u.c.pendingAcks[u.waiting[0]].newState);
      } else if !DropsKey(u.c, e, key) && LastAcked(t, front, key).Some?
        && LastAcked(t, front, key) != Lookup(t.c.stored, key) {
        var s := LastAcked(t, front, key).value;
        var i: nat :| LeftBy(t, front, i, key, s);
        LeftByLonger(t, front, e, i, key, s);
      }
    }
  }
}
