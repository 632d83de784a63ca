/**
 The session layer of useChat.ts. `ChatState` and the functions over it say what each event
 handler does; the class `ChatClient` is the hook with its mutable refs, proved against them.
 Session-map keys `user:device` and base64 identity keys are the two constructors of
 `SessionKey`; module Encoding proves the texts apart. User ids are numbers.
 */
module ChatClient {
  import opened Wrappers
  import opened Crypto
  import opened Ratchet
  import opened X3dh
  import opened Messaging

  datatype SessionKey = Outbound(user: nat, device: nat) | Inbound(ik: PublicKey)

  type Sessions = map<SessionKey, RatchetState>

  datatype PendingAck = PendingAck(newState: RatchetState, sessionKey: SessionKey)

  /** A decrypted frame: from which identity key, and what it said. */
  datatype Opened = Opened(ik: PublicKey, text: Plaintext)

  datatype Frame = Frame(messageId: nat, mailbox: nat, envelope: Envelope)

  /** What one sent frame draws at random. */
  datatype Draw = Draw(messageId: nat, ekPriv: nat, nonce: nat)

  datatype ChatState = ChatState(
    user: nat,
    keys: DeviceKeys,
    sessions: Sessions,                  // sessionsRef
    stored: Sessions,                    // the sessions table
    contacts: map<PublicKey, nat>,       // ikToUserIdRef
    pendingAcks: map<nat, PendingAck>,
    lastSeq: nat,                        // relay_last_seq
    history: seq<Opened>                 // what appendMessage was given for received frames
  )

  function Lookup(sessions: Sessions, key: SessionKey): Option<RatchetState> {
    if key in sessions then Some(sessions[key]) else None
  }

  /** Keys that start with `user:`. */
  predicate BelongsTo(key: SessionKey, user: nat) {
    key.Outbound? && key.user == user
  }

  function OutboundKeys(sessions: Sessions, user: nat): set<SessionKey> {
    set k | k in sessions && BelongsTo(k, user)
  }

  function DropOutbound(c: ChatState, user: nat): ChatState {
    var gone := OutboundKeys(c.sessions, user);
    c.(sessions := c.sessions - gone, stored := c.stored - gone)
  }

  /** The inbound sessions of every identity key known to belong to the contact. */
  function InboundKeys(c: ChatState, contact: nat): set<SessionKey> {
    set ik | ik in c.contacts && c.contacts[ik] == contact && Inbound(ik) in c.sessions :: Inbound(ik)
  }

  function OnReset(c: ChatState, contact: nat): ChatState {
    var d := DropOutbound(c, contact);
    var gone := InboundKeys(d, contact);
    d.(sessions := d.sessions - gone, stored := d.stored - gone)
  }

  /** What follows a successful decryption. */
  function OnOpened(c: ChatState, envelope: Envelope, s: RatchetState, text: Plaintext): ChatState {
    var key := Inbound(envelope.ik);
    var d := c.(sessions := c.sessions[key := s], stored := c.stored[key := s],
                history := c.history + [Opened(envelope.ik, text)]);
    match text
    case SyncCopy(_, _) => d
    case Message(senderId, _) =>
      var e := if envelope.ik in d.contacts then d else d.(contacts := d.contacts[envelope.ik := senderId]);
      if envelope.Init? then DropOutbound(e, senderId) else e
  }

  function OnDelivery(c: ChatState, seqNo: nat, envelope: Envelope, newPriv: nat): ChatState {
    var d := if seqNo > c.lastSeq then c.(lastSeq := seqNo) else c;
    if d.keys.deviceId.Some? && d.keys.deviceId.value != envelope.deviceId then d else
    match DecryptInbound(d.keys, Lookup(d.sessions, Inbound(envelope.ik)), envelope, newPriv)
    case Err(_) => d
    case Ok((s, text)) => OnOpened(d, envelope, s, text)
  }

  function OnAck(c: ChatState, messageId: nat): ChatState {
    if messageId !in c.pendingAcks then c else
    var pending := c.pendingAcks[messageId];
    c.(stored := c.stored[pending.sessionKey := pending.newState], pendingAcks := c.pendingAcks - {messageId})
  }

  /** One turn of the loop over bundles; an encryption error leaves the loop. */
  function SendOne(c: ChatState, rid: nat, bundle: PreKeyBundle, text: Plaintext, draw: Draw)
    : Result<(ChatState, seq<Frame>)>
  {
    if !bundle.verified then Ok((c, [])) else
    var key := Outbound(rid, bundle.deviceId);
    var r :- EncryptForDevice(c.keys, bundle, text, Lookup(c.sessions, key), draw.ekPriv, draw.nonce);
    Ok((c.(sessions := c.sessions[key := r.1], pendingAcks := c.pendingAcks[draw.messageId := PendingAck(r.1, key)]),
        [Frame(draw.messageId, rid, r.0)]))
  }

  datatype Sent = Sent(state: ChatState, frames: seq<Frame>, ok: bool)

  /** The loop over the first n bundles; `skip` is the own device in the loop for sync copies. */
  function SendAll(c: ChatState, rid: nat, bundles: seq<PreKeyBundle>, skip: Option<nat>, text: Plaintext,
                   draws: seq<Draw>, n: nat): Sent
    requires n <= |bundles| <= |draws|
  {
    if n == 0 then Sent(c, [], true) else
    var before := SendAll(c, rid, bundles, skip, text, draws, n - 1);
    if !before.ok || skip == Some(bundles[n - 1].deviceId) then before else
    match SendOne(before.state, rid, bundles[n - 1], text, draws[n - 1])
    case Err(_) => before.(ok := false)
    case Ok((state, frames)) => Sent(state, before.frames + frames, true)
  }

  class ChatClient {
    const user: nat
    var keys: DeviceKeys
    var sessions: Sessions
    var stored: Sessions
    var contacts: map<PublicKey, nat>
    var pendingAcks: map<nat, PendingAck>
    var lastSeq: nat
    var history: seq<Opened>

    function State(): ChatState
      reads this
    {
      ChatState(user, keys, sessions, stored, contacts, pendingAcks, lastSeq, history)
    }

    /** The page load: memory starts as a copy of the tables. */
    constructor (user: nat, keys: DeviceKeys, stored: Sessions, contacts: map<PublicKey, nat>, lastSeq: nat)
      ensures State() == ChatState(user, keys, stored, stored, contacts, map[], lastSeq, [])
    {
      this.user, this.keys, this.sessions, this.stored := user, keys, stored, stored;
      this.contacts, this.pendingAcks, this.lastSeq, this.history := contacts, map[], lastSeq, [];
    }

    /** The loop that deletes, over a snapshot of the keys, every session of `user:`. */
    method DeleteOutbound(contact: nat)
      modifies this
      ensures State() == DropOutbound(old(State()), contact)
    {
      var snapshot := sessions.Keys;
      ghost var done: set<SessionKey> := {};
      while snapshot != {}
        invariant snapshot !! done && snapshot + done == old(sessions).Keys
        invariant sessions == old(sessions) - (set k | k in done && BelongsTo(k, contact))
        invariant stored == old(stored) - (set k | k in done && BelongsTo(k, contact))
        invariant State() == old(State()).(sessions := sessions, stored := stored)
        decreases snapshot
      {
        var key :| key in snapshot;
        if BelongsTo(key, contact) {
          sessions, stored := sessions - {key}, stored - {key};
        }
        snapshot, done := snapshot - {key}, done + {key};
      }
      assert (set k | k in done && BelongsTo(k, contact)) == OutboundKeys(old(sessions), contact);
    }

    method ResetSession(contact: nat)
      modifies this
      ensures State() == OnReset(old(State()), contact)
    {
      DeleteOutbound(contact);
      label dropped:
      var theirIKs := set ik | ik in contacts && contacts[ik] == contact;
      ghost var done: set<PublicKey> := {};
      ghost var all := theirIKs;
      while theirIKs != {}
        invariant theirIKs !! done && theirIKs + done == all
        invariant sessions == old@dropped(sessions) - (set ik | ik in done :: Inbound(ik))
        invariant stored
            == old@dropped(stored) - (set ik | ik in done && Inbound(ik) in old@dropped(sessions) :: Inbound(ik))
        invariant State() == old@dropped(State()).(sessions := sessions, stored := stored)
        decreases theirIKs
      {
        var ik :| ik in theirIKs;
        if Inbound(ik) in sessions {
          sessions, stored := sessions - {Inbound(ik)}, stored - {Inbound(ik)};
        }
        theirIKs, done := theirIKs - {ik}, done + {ik};
      }
      ghost var gone := InboundKeys(old@dropped(State()), contact);
      assert sessions == old@dropped(sessions) - gone;
      assert stored == old@dropped(stored) - gone;
    }

    method HandleDelivery(seqNo: nat, envelope: Envelope, newPriv: nat)
      modifies this
      ensures State() == OnDelivery(old(State()), seqNo, envelope, newPriv)
    {
      if seqNo > lastSeq {
        lastSeq := seqNo;
      }
      if keys.deviceId.Some? && keys.deviceId.value != envelope.deviceId {
        return;
      }
      var result := DecryptInbound(keys, Lookup(sessions, Inbound(envelope.ik)), envelope, newPriv);
      if result.Err? {
        return;
      }
      var (newState, text) := result.value;
      sessions := sessions[Inbound(envelope.ik) := newState];
      stored := stored[Inbound(envelope.ik) := newState];
      history := history + [Opened(envelope.ik, text)];
      if text.Message? {
        if envelope.ik !in contacts {
          contacts := contacts[envelope.ik := text.senderId];
        }
        if envelope.Init? {
          DeleteOutbound(text.senderId);
        }
      }
    }

    /**
     An ack that is waited for stores the state its frame left, under its session and no other, and is
     then no longer waited for; any other ack, a repeated one too, changes nothing.
     */
    method HandleAck(messageId: nat)
      modifies this
      ensures State() == OnAck(old(State()), messageId)
      ensures messageId !in pendingAcks && pendingAcks == old(pendingAcks) - {messageId}
      ensures messageId !in old(pendingAcks) ==> State() == old(State())
      ensures messageId in old(pendingAcks) ==>
                var acked := old(pendingAcks)[messageId];
                && acked.sessionKey in stored && stored[acked.sessionKey] == acked.newState
                && stored - {acked.sessionKey} == old(stored) - {acked.sessionKey}
      ensures OnAck(State(), messageId) == State()
      ensures sessions == old(sessions) && contacts == old(contacts) && history == old(history)
      ensures keys == old(keys) && lastSeq == old(lastSeq)
    {
      if messageId in pendingAcks {
        var pending := pendingAcks[messageId];
        stored := stored[pending.sessionKey := pending.newState];
        pendingAcks := pendingAcks - {messageId};
      }
    }

    /** One of the two loops of sendMessage; `ok` is false when an encryption threw. */
    method SendToBundles(rid: nat, bundles: seq<PreKeyBundle>, skip: Option<nat>, text: Plaintext, draws: seq<Draw>)
      returns (frames: seq<Frame>, ok: bool)
      requires |bundles| <= |draws|
      modifies this
      ensures Sent(State(), frames, ok) == SendAll(old(State()), rid, bundles, skip, text, draws, |bundles|)
    {
      frames, ok := [], true;
      for i := 0 to |bundles|
        invariant Sent(State(), frames, ok) == SendAll(old(State()), rid, bundles, skip, text, draws, i)
      {
        var bundle := bundles[i];
        if ok && skip != Some(bundle.deviceId) && bundle.verified {
          var key := Outbound(rid, bundle.deviceId);
          var r := EncryptForDevice(keys, bundle, text, Lookup(sessions, key), draws[i].ekPriv, draws[i].nonce);
          if r.Err? {
            ok := false;
          } else {
            var (envelope, newState) := r.value;
            sessions := sessions[key := newState];
            frames := frames + [Frame(draws[i].messageId, rid, envelope)];
            pendingAcks := pendingAcks[draws[i].messageId := PendingAck(newState, key)];
          }
        }
      }
    }
  }
}
