/**
 What each handler of the session layer does, field by field and key by key, and what the send loop
 does over a whole list of bundles. None of it is said by way of the functions that specify the handlers.
 */
module ClientHandlers {
  import opened Wrappers
  import opened Crypto
  import opened Ratchet
  import opened X3dh
  import opened Messaging
  import opened ChatClient

  // ---------------------------------------------------------------- a delivered frame

  /** The frame is for this device, or for a client that has no device id yet. */
  predicate IsMine(c: ChatState, envelope: Envelope) {
    c.keys.deviceId.None? || c.keys.deviceId == Some(envelope.deviceId)
  }

  /** What the ratchet makes of the frame, under the session of its identity key. */
  function Opening(c: ChatState, envelope: Envelope, newPriv: nat): Result<(RatchetState, Plaintext)> {
    DecryptInbound(c.keys, Lookup(c.sessions, Inbound(envelope.ik)), envelope, newPriv)
  }

  /** The frame is an init with a message of the user to whose device the session is; that drops it. */
  predicate DroppedBy(envelope: Envelope, text: Plaintext, key: SessionKey) {
    envelope.Init? && text.Message? && key.Outbound? && key.user == text.senderId
  }

  /** The cursor goes to the delivery's number, never back, whatever comes of the frame. */
  lemma CursorIsLarger(c: ChatState, seqNo: nat, envelope: Envelope, newPriv: nat)
    ensures var lastSeq := OnDelivery(c, seqNo, envelope, newPriv).lastSeq;
            lastSeq >= c.lastSeq && lastSeq >= seqNo && (lastSeq == c.lastSeq || lastSeq == seqNo)
  {
    hide DecryptInbound;
  }

  /** A frame for another device, or one that does not open, moves the cursor and nothing else. */
  lemma UnopenedChangesNothing(c: ChatState, seqNo: nat, envelope: Envelope, newPriv: nat)
    requires !IsMine(c, envelope) || Opening(c, envelope, newPriv).Err?
    ensures var d := OnDelivery(c, seqNo, envelope, newPriv);
            d.(lastSeq := c.lastSeq) == c
  {
    hide DecryptInbound;
  }

  /** What is left of a table after the frame: `sessions` are those in memory before it. */
  ghost predicate TakenIn(sessions: Sessions, table: Sessions, table': Sessions, envelope: Envelope, s: RatchetState,
                          text: Plaintext)
  {
    forall key :: Lookup(table', key) == if key == Inbound(envelope.ik) then Some(s)
                                         else if DroppedBy(envelope, text, key) && key in sessions then None
                                         else Lookup(table, key)
  }

  /** A new identity key is put down as the sender's; what the map says of others stays. */
  ghost predicate Learned(contacts: map<PublicKey, nat>, contacts': map<PublicKey, nat>, ik: PublicKey, text: Plaintext)
  {
    && (forall k :: k in contacts' <==> k in contacts || (k == ik && text.Message?))
    && (forall k :: k in contacts ==> contacts'[k] == contacts[k])
    && (ik in contacts' && ik !in contacts ==> text.Message? && contacts'[ik] == text.senderId)
  }

  lemma DropTables(c: ChatState, user: nat)
    ensures var d := DropOutbound(c, user);
            && d.(sessions := c.sessions, stored := c.stored) == c
            && (forall key :: Lookup(d.sessions, key)
                              == if key.Outbound? && key.user == user then None else Lookup(c.sessions, key))
            && (forall key :: Lookup(d.stored, key)
                              == if key.Outbound? && key.user == user && key in c.sessions then None
                                 else Lookup(c.stored, key))
  {
  }

  lemma OpenedTables(c: ChatState, envelope: Envelope, s: RatchetState, text: Plaintext)
    ensures var d := OnOpened(c, envelope, s, text);
            && TakenIn(c.sessions, c.sessions, d.sessions, envelope, s, text)
            && TakenIn(c.sessions, c.stored, d.stored, envelope, s, text)
            && Learned(c.contacts, d.contacts, envelope.ik, text)
            && d.history == c.history + [Opened(envelope.ik, text)]
            && d.(sessions := c.sessions, stored := c.stored, contacts := c.contacts, history := c.history) == c
  {
    hide DropOutbound, BelongsTo;
    var key := Inbound(envelope.ik);
    var d := c.(sessions := c.sessions[key := s], stored := c.stored[key := s],
                history := c.history + [Opened(envelope.ik, text)]);
    if text.Message? {
      var e := if envelope.ik in d.contacts then d else d.(contacts := d.contacts[envelope.ik := text.senderId]);
      DropTables(e, text.senderId);
    }
  }

  /**
   A frame that opens: its text is appended, its identity key's session is the ratchet's new state in
   memory and table, a first message drops its sender's outbound sessions, a new identity key is put
   down as the sender's, and every other session, contact and field stays.
   */
  lemma OpenedIsExact(c: ChatState, seqNo: nat, envelope: Envelope, newPriv: nat)
    requires IsMine(c, envelope) && Opening(c, envelope, newPriv).Ok?
    ensures var d, (s, text) := OnDelivery(c, seqNo, envelope, newPriv), Opening(c, envelope, newPriv).value;
            && d.history == c.history + [Opened(envelope.ik, text)]
            && TakenIn(c.sessions, c.sessions, d.sessions, envelope, s, text)
            && TakenIn(c.sessions, c.stored, d.stored, envelope, s, text)
            && Learned(c.contacts, d.contacts, envelope.ik, text)
            && d.user == c.user && d.keys == c.keys && d.pendingAcks == c.pendingAcks
  {
    hide DecryptInbound, OnOpened, TakenIn, Learned;
    var (s, text) := Opening(c, envelope, newPriv).value;
    OpenedTables(if seqNo > c.lastSeq then c.(lastSeq := seqNo) else c, envelope, s, text);
  }

  /** Numbers steer the cursor only: renumbered frames, from any cursor, do the same to all else. */
  lemma NumbersSteerTheCursorOnly(c: ChatState, lastSeq: nat, seqNo: nat, other: nat, envelope: Envelope, newPriv: nat)
    ensures OnDelivery(c.(lastSeq := lastSeq), other, envelope, newPriv).(lastSeq := 0)
         == OnDelivery(c, seqNo, envelope, newPriv).(lastSeq := 0)
  {
    hide DecryptInbound, OnOpened;
    if IsMine(c, envelope) && Opening(c, envelope, newPriv).Ok? {
      var (s, text) := Opening(c, envelope, newPriv).value;
      OpenedCursor(c, lastSeq, envelope, s, text);
      OpenedCursor(c, if seqNo > c.lastSeq then seqNo else c.lastSeq, envelope, s, text);
      OpenedCursor(c, if other > lastSeq then other else lastSeq, envelope, s, text);
    }
  }

  lemma OpenedCursor(c: ChatState, lastSeq: nat, envelope: Envelope, s: RatchetState, text: Plaintext)
    ensures OnOpened(c.(lastSeq := lastSeq), envelope, s, text) == OnOpened(c, envelope, s, text).(lastSeq := lastSeq)
  {
  }

  // ---------------------------------------------------------------- a reset

  /** The session is one with the contact: to any of its devices, or from an identity key known as the contact's. */
  predicate SessionWith(c: ChatState, contact: nat, key: SessionKey) {
    match key
    case Outbound(user, _) => user == contact
    case Inbound(ik) => ik in c.contacts && c.contacts[ik] == contact
  }

  /** A reset deletes exactly the sessions with the contact, from memory and table, and changes nothing else. */
  lemma ResetIsExact(c: ChatState, contact: nat)
    ensures var d := OnReset(c, contact);
            && (forall key :: Lookup(d.sessions, key)
                              == if SessionWith(c, contact, key) then None else Lookup(c.sessions, key))
            && (forall key :: Lookup(d.stored, key)
                              == if SessionWith(c, contact, key) && key in c.sessions then None
                                 else Lookup(c.stored, key))
            && d.(sessions := c.sessions, stored := c.stored) == c
  {
  }

  // ---------------------------------------------------------------- the send loop

  /** The loop encrypts for this bundle. */
  predicate Served(bundle: PreKeyBundle, skip: Option<nat>) {
    bundle.verified && skip != Some(bundle.deviceId)
  }

  /** What encrypting for a bundle gives from the sessions as they were before the loop. */
  function Attempt(c: ChatState, rid: nat, bundle: PreKeyBundle, text: Plaintext, draw: Draw)
    : Result<(Envelope, RatchetState)>
  {
    EncryptForDevice(c.keys, bundle, text, Lookup(c.sessions, Outbound(rid, bundle.deviceId)), draw.ekPriv, draw.nonce)
  }

  /** The loop gets through the first n bundles. */
  predicate Passes(c: ChatState, rid: nat, bundles: seq<PreKeyBundle>, skip: Option<nat>, text: Plaintext,
                   draws: seq<Draw>, n: nat)
    requires n <= |bundles| <= |draws|
  {
    forall i :: 0 <= i < n && Served(bundles[i], skip) ==> Attempt(c, rid, bundles[i], text, draws[i]).Ok?
  }

  /** The first bundle whose encryption throws, or n if none does. */
  function Throws(c: ChatState, rid: nat, bundles: seq<PreKeyBundle>, skip: Option<nat>, text: Plaintext,
                  draws: seq<Draw>, n: nat): (t: nat)
    requires n <= |bundles| <= |draws|
    ensures t <= n && (t < n ==> Served(bundles[t], skip) && Attempt(c, rid, bundles[t], text, draws[t]).Err?)
    ensures Passes(c, rid, bundles, skip, text, draws, t)
  {
    if n == 0 then 0 else
    var t := Throws(c, rid, bundles, skip, text, draws, n - 1);
    if t < n - 1 || (Served(bundles[t], skip) && Attempt(c, rid, bundles[t], text, draws[t]).Err?) then t else n
  }

  /** One frame for each served bundle of the first n, in order, to the recipient's mailbox. */
  function Intended(c: ChatState, rid: nat, bundles: seq<PreKeyBundle>, skip: Option<nat>, text: Plaintext,
                    draws: seq<Draw>, n: nat): seq<Frame>
    requires n <= |bundles| <= |draws|
    requires Passes(c, rid, bundles, skip, text, draws, n)
  {
    if n == 0 then [] else
    Intended(c, rid, bundles, skip, text, draws, n - 1)
    + if Served(bundles[n - 1], skip)
      then [Frame(draws[n - 1].messageId, rid, Attempt(c, rid, bundles[n - 1], text, draws[n - 1]).value.0)]
      else []
  }

  /** The devices differ, and so do the message ids drawn. */
  predicate AllDiffer(bundles: seq<PreKeyBundle>, draws: seq<Draw>) {
    && |bundles| <= |draws|
    && (forall i, j :: 0 <= i < j < |bundles| ==> bundles[i].deviceId != bundles[j].deviceId)
    && (forall i, j :: 0 <= i < j < |bundles| ==> draws[i].messageId != draws[j].messageId)
  }

  /** One of the first n bundles that the loop served has this session, or this message id. */
  predicate SessionServed(bundles: seq<PreKeyBundle>, skip: Option<nat>, n: nat, rid: nat, key: SessionKey)
    requires n <= |bundles|
  {
    exists i :: 0 <= i < n && Served(bundles[i], skip) && key == Outbound(rid, bundles[i].deviceId)
  }

  predicate IdDrawn(bundles: seq<PreKeyBundle>, skip: Option<nat>, draws: seq<Draw>, n: nat, id: nat)
    requires n <= |bundles| <= |draws|
  {
    exists i :: 0 <= i < n && Served(bundles[i], skip) && id == draws[i].messageId
  }

  /** After n turns each served device's session is the one its own attempt left, and no other session has changed. */
  ghost predicate SessionsAdvanced(c: ChatState, d: ChatState, rid: nat, bundles: seq<PreKeyBundle>, skip: Option<nat>,
                                   text: Plaintext, draws: seq<Draw>, n: nat)
    requires n <= |bundles| <= |draws| && Passes(c, rid, bundles, skip, text, draws, n)
  {
    && (forall i :: 0 <= i < n && Served(bundles[i], skip) ==>
          Lookup(d.sessions, Outbound(rid, bundles[i].deviceId))
          == Some(Attempt(c, rid, bundles[i], text, draws[i]).value.1))
    && (forall key :: !SessionServed(bundles, skip, n, rid, key) ==> Lookup(d.sessions, key) == Lookup(c.sessions, key))
  }

  /** And each of these states waits for the ack of its frame, under the device's session; all other acks stay. */
  ghost predicate AcksAdvanced(c: ChatState, d: ChatState, rid: nat, bundles: seq<PreKeyBundle>, skip: Option<nat>,
                               text: Plaintext, draws: seq<Draw>, n: nat)
    requires n <= |bundles| <= |draws| && Passes(c, rid, bundles, skip, text, draws, n)
  {
    && (forall i :: 0 <= i < n && Served(bundles[i], skip) ==>
          Awaited(d, draws[i].messageId)
          == Some(PendingAck(Attempt(c, rid, bundles[i], text, draws[i]).value.1, Outbound(rid, bundles[i].deviceId))))
    && (forall id :: !IdDrawn(bundles, skip, draws, n, id) ==> Awaited(d, id) == Awaited(c, id))
  }

  function Awaited(c: ChatState, messageId: nat): Option<PendingAck> {
    if messageId in c.pendingAcks then Some(c.pendingAcks[messageId]) else None
  }

  /** What the loop has done to the client's state once the first n bundles are served without a throw. */
  ghost predicate Advanced(c: ChatState, d: ChatState, rid: nat, bundles: seq<PreKeyBundle>, skip: Option<nat>,
                           text: Plaintext, draws: seq<Draw>, n: nat)
    requires n <= |bundles| <= |draws| && Passes(c, rid, bundles, skip, text, draws, n)
  {
    && d.(sessions := c.sessions, pendingAcks := c.pendingAcks) == c
    && SessionsAdvanced(c, d, rid, bundles, skip, text, draws, n)
    && AcksAdvanced(c, d, rid, bundles, skip, text, draws, n)
  }

  /** Served next, a device still has the session it had before the loop. */
  lemma TurnIs(c: ChatState, d: ChatState, rid: nat, bundles: seq<PreKeyBundle>, skip: Option<nat>, text: Plaintext,
               draws: seq<Draw>, n: nat)
    requires AllDiffer(bundles, draws) && n < |bundles| && Served(bundles[n], skip)
    requires Passes(c, rid, bundles, skip, text, draws, n) && Advanced(c, d, rid, bundles, skip, text, draws, n)
    ensures var key, a := Outbound(rid, bundles[n].deviceId), Attempt(c, rid, bundles[n], text, draws[n]);
            && (a.Err? ==> SendOne(d, rid, bundles[n], text, draws[n]).Err?)
            && (a.Ok? ==>
                  SendOne(d, rid, bundles[n], text, draws[n])
                  == Ok((d.(sessions := d.sessions[key := a.value.1],
                            pendingAcks := d.pendingAcks[draws[n].messageId := PendingAck(a.value.1, key)]),
                         [Frame(draws[n].messageId, rid, a.value.0)])))
  {
    hide EncryptForDevice, AcksAdvanced, Passes;
    assert !SessionServed(bundles, skip, n, rid, Outbound(rid, bundles[n].deviceId));
  }

  lemma ServedSets(rid: nat, bundles: seq<PreKeyBundle>, skip: Option<nat>, draws: seq<Draw>, n: nat)
    requires n < |bundles| <= |draws| && Served(bundles[n], skip)
    ensures forall key :: SessionServed(bundles, skip, n + 1, rid, key)
                          <==> SessionServed(bundles, skip, n, rid, key) || key == Outbound(rid, bundles[n].deviceId)
    ensures forall id :: IdDrawn(bundles, skip, draws, n + 1, id)
                         <==> IdDrawn(bundles, skip, draws, n, id) || id == draws[n].messageId
  {
    hide Served;
    forall key
      ensures SessionServed(bundles, skip, n + 1, rid, key)
              <==> SessionServed(bundles, skip, n, rid, key) || key == Outbound(rid, bundles[n].deviceId)
    {
      if SessionServed(bundles, skip, n, rid, key) {
        var i :| 0 <= i < n && Served(bundles[i], skip) && key == Outbound(rid, bundles[i].deviceId);
        assert 0 <= i < n + 1;
      }
    }
    forall id
      ensures IdDrawn(bundles, skip, draws, n + 1, id)
              <==> IdDrawn(bundles, skip, draws, n, id) || id == draws[n].messageId
    {
      if IdDrawn(bundles, skip, draws, n, id) {
        var i :| 0 <= i < n && Served(bundles[i], skip) && id == draws[i].messageId;
        assert 0 <= i < n + 1;
      }
    }
  }

  lemma TurnSessions(c: ChatState, d: ChatState, d': ChatState, rid: nat, bundles: seq<PreKeyBundle>, skip: Option<nat>,
                     text: Plaintext, draws: seq<Draw>, n: nat)
    requires AllDiffer(bundles, draws) && n < |bundles| && Served(bundles[n], skip)
    requires Passes(c, rid, bundles, skip, text, draws, n + 1)
    requires SessionsAdvanced(c, d, rid, bundles, skip, text, draws, n)
    requires d'.sessions == d.sessions[Outbound(rid, bundles[n].deviceId) :=
                                         Attempt(c, rid, bundles[n], text, draws[n]).value.1]
    ensures SessionsAdvanced(c, d', rid, bundles, skip, text, draws, n + 1)
  {
    hide Attempt;
    ServedSets(rid, bundles, skip, draws, n);
    hide SessionServed, IdDrawn, Served;
  }

  lemma TurnAcks(c: ChatState, d: ChatState, d': ChatState, rid: nat, bundles: seq<PreKeyBundle>, skip: Option<nat>,
                 text: Plaintext, draws: seq<Draw>, n: nat)
    requires AllDiffer(bundles, draws) && n < |bundles| && Served(bundles[n], skip)
    requires Passes(c, rid, bundles, skip, text, draws, n + 1)
    requires AcksAdvanced(c, d, rid, bundles, skip, text, draws, n)
    requires d'.pendingAcks
          == d.pendingAcks[draws[n].messageId := PendingAck(Attempt(c, rid, bundles[n], text, draws[n]).value.1,
                                                            Outbound(rid, bundles[n].deviceId))]
    ensures AcksAdvanced(c, d', rid, bundles, skip, text, draws, n + 1)
  {
    hide Attempt;
    ServedSets(rid, bundles, skip, draws, n);
    hide SessionServed, IdDrawn, Served;
  }

  lemma TurnAdvances(c: ChatState, d: ChatState, rid: nat, bundles: seq<PreKeyBundle>, skip: Option<nat>,
                     text: Plaintext, draws: seq<Draw>, n: nat)
    requires AllDiffer(bundles, draws) && n < |bundles| && Served(bundles[n], skip)
    requires Passes(c, rid, bundles, skip, text, draws, n + 1)
    requires Advanced(c, d, rid, bundles, skip, text, draws, n)
    ensures var r := SendOne(d, rid, bundles[n], text, draws[n]);
            && r.Ok? && Advanced(c, r.value.0, rid, bundles, skip, text, draws, n + 1)
            && r.value.1 == [Frame(draws[n].messageId, rid, Attempt(c, rid, bundles[n], text, draws[n]).value.0)]
  {
    hide Attempt, SendOne, SessionsAdvanced, AcksAdvanced;
    TurnIs(c, d, rid, bundles, skip, text, draws, n);
    var d' := SendOne(d, rid, bundles[n], text, draws[n]).value.0;
    TurnSessions(c, d, d', rid, bundles, skip, text, draws, n);
    TurnAcks(c, d, d', rid, bundles, skip, text, draws, n);
  }

  lemma PassesOn(c: ChatState, rid: nat, bundles: seq<PreKeyBundle>, skip: Option<nat>, text: Plaintext,
                 draws: seq<Draw>, n: nat)
    requires 0 < n <= |bundles| <= |draws| && Passes(c, rid, bundles, skip, text, draws, n - 1)
    requires Attempt(c, rid, bundles[n - 1], text, draws[n - 1]).Ok?
    ensures Passes(c, rid, bundles, skip, text, draws, n)
  {
  }

  lemma SkippedAdvances(c: ChatState, d: ChatState, rid: nat, bundles: seq<PreKeyBundle>, skip: Option<nat>,
                        text: Plaintext, draws: seq<Draw>, n: nat)
    requires n < |bundles| <= |draws| && !Served(bundles[n], skip) && Passes(c, rid, bundles, skip, text, draws, n)
    requires Advanced(c, d, rid, bundles, skip, text, draws, n)
    ensures Advanced(c, d, rid, bundles, skip, text, draws, n + 1)
    ensures skip != Some(bundles[n].deviceId) ==> SendOne(d, rid, bundles[n], text, draws[n]) == Ok((d, []))
  {
    hide Attempt;
    SkippedSets(rid, bundles, skip, draws, n);
    hide SessionServed, IdDrawn;
  }

  lemma SkippedSets(rid: nat, bundles: seq<PreKeyBundle>, skip: Option<nat>, draws: seq<Draw>, n: nat)
    requires n < |bundles| <= |draws| && !Served(bundles[n], skip)
    ensures forall key :: SessionServed(bundles, skip, n, rid, key) <==> SessionServed(bundles, skip, n + 1, rid, key)
    ensures forall id :: IdDrawn(bundles, skip, draws, n, id) <==> IdDrawn(bundles, skip, draws, n + 1, id)
  {
    hide Served;
  }

  lemma NothingAdvanced(c: ChatState, rid: nat, bundles: seq<PreKeyBundle>, skip: Option<nat>, text: Plaintext,
                        draws: seq<Draw>)
    requires |bundles| <= |draws|
    ensures Advanced(c, c, rid, bundles, skip, text, draws, 0)
  {
  }

  /**
   The send loop over bundles of different devices. It throws exactly if some served bundle's encryption
   does, at the first such; up to there it sends one frame for each served bundle, in order, to the
   recipient's mailbox, each made from that device's own session as it was before the loop, and the new
   states are in memory and wait for the acks of their frames. Nothing else changes.
   */
  lemma {:induction false} LoopServesEach(c: ChatState, rid: nat, bundles: seq<PreKeyBundle>, skip: Option<nat>,
                                          text: Plaintext, draws: seq<Draw>, n: nat)
    requires AllDiffer(bundles, draws) && n <= |bundles|
    ensures var sent, t := SendAll(c, rid, bundles, skip, text, draws, n),
                           Throws(c, rid, bundles, skip, text, draws, n);
            && (sent.ok <==> t == n)
            && sent.frames == Intended(c, rid, bundles, skip, text, draws, t)
            && Advanced(c, sent.state, rid, bundles, skip, text, draws, t)
  {
    hide Attempt, SendOne, Advanced, Passes;
    if n == 0 {
      NothingAdvanced(c, rid, bundles, skip, text, draws);
    } else {
      LoopServesEach(c, rid, bundles, skip, text, draws, n - 1);
      var before := SendAll(c, rid, bundles, skip, text, draws, n - 1);
      if before.ok {
        if !Served(bundles[n - 1], skip) {
          SkippedAdvances(c, before.state, rid, bundles, skip, text, draws, n - 1);
          assert before.frames + [] == before.frames;
        } else if Attempt(c, rid, bundles[n - 1], text, draws[n - 1]).Ok? {
          PassesOn(c, rid, bundles, skip, text, draws, n);
          TurnAdvances(c, before.state, rid, bundles, skip, text, draws, n - 1);
        } else {
          TurnIs(c, before.state, rid, bundles, skip, text, draws, n - 1);
        }
      }
    }
  }
}
