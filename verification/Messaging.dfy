/** encryptForDevice and decryptInbound of messaging.ts. */
module Messaging {
  import opened Wrappers
  import opened Crypto
  import opened Ratchet
  import opened X3dh
  import TwoParty

  /** The two envelope types, with the fields each of them puts on the wire. */
  datatype Envelope =
    | Init(ik: PublicKey, ek: PublicKey, opkId: Option<nat>, deviceId: nat, packet: Packet)
    | Msg(ik: PublicKey, deviceId: nat, packet: Packet)

  function EncryptForDevice(my: DeviceKeys, bundle: PreKeyBundle, text: Plaintext, session: Option<RatchetState>,
                            ekPriv: nat, nonce: nat): Result<(Envelope, RatchetState)>
  {
    match session
    case None =>
      var x3dh := Initiate(my, bundle, ekPriv);
      var r :- Encrypt(InitSender(x3dh.master, x3dh.ek, bundle.signedPrekey), text, nonce);
      Ok((Init(my.identity.pub, x3dh.ek.pub, x3dh.opkId, x3dh.deviceId, r.1), r.0))
    case Some(s) =>
      var r :- Encrypt(s, text, nonce);
      Ok((Msg(my.identity.pub, bundle.deviceId, r.1), r.0))
  }

  /** `session` is what sessionLookup returns for the envelope's identity key. */
  function DecryptInbound(my: DeviceKeys, session: Option<RatchetState>, envelope: Envelope, newPriv: nat)
    : Result<(RatchetState, Plaintext)>
  {
    match envelope
    case Init(ik, ek, opkId, _, packet) =>
      Decrypt(InitReceiver(Receive(my, ik, ek, opkId), my.signedPrekey), packet, newPriv)
    case Msg(_, _, packet) =>
      if session.None? then Err(NoSession) else Decrypt(session.value, packet, newPriv)
  }

  /** A receiving session stands where a sending session stands: the next frame of one opens with the other. */
  predicate Matches(sender: RatchetState, receiver: RatchetState) {
    && sender.CKs.Some? && sender.CKs == receiver.CKr
    && receiver.DHr == Some(sender.DHs.pub) && sender.Ns == receiver.Nr
  }

  /**
   A first message, with or without a one-time prekey, always encrypts; its init opens exactly
   when both sides agree about the one-time prekey, whatever session the receiver had before.
   */
  lemma InitRoundTrip(sender: DeviceKeys, receiver: DeviceKeys, bundle: PreKeyBundle, text: Plaintext,
                      ekPriv: nat, nonce: nat, previous: Option<RatchetState>, newPriv: nat)
    requires HonestKeys(sender) && HonestKeys(receiver) && BundleOf(receiver, bundle)
    ensures EncryptForDevice(sender, bundle, text, None, ekPriv, nonce).Ok?
    ensures var sent := EncryptForDevice(sender, bundle, text, None, ekPriv, nonce).value;
            var got := DecryptInbound(receiver, previous, sent.0, newPriv);
            && sent.0.Init? && sent.0.ik == sender.identity.pub && sent.0.deviceId == bundle.deviceId
            && (got.Ok? <==> PrekeyAgrees(receiver.oneTimePrekeys, bundle.oneTimePrekey))
            && (got.Ok? ==> got.value.1 == text && Matches(sent.1, got.value.0)
                               && got.value.0.CKs.Some? && got.value.0.typingKey == sent.1.typingKey)
  {
    MasterAgreement(sender, receiver, bundle, ekPriv);
    DHAgreement(ekPriv, receiver.signedPrekey.priv, 0);
  }

  /** A sending and a receiving session that match open each other's next frame, and match again. */
  lemma MsgRoundTrip(sender: DeviceKeys, receiver: DeviceKeys, bundle: PreKeyBundle, text: Plaintext,
                     s: RatchetState, r: RatchetState, nonce: nat, newPriv: nat)
    requires Matches(s, r) && SkippedName(s.DHs.pub, s.Ns) !in r.skippedKeys
    ensures EncryptForDevice(sender, bundle, text, Some(s), 0, nonce).Ok?
    ensures var sent := EncryptForDevice(sender, bundle, text, Some(s), 0, nonce).value;
            var got := DecryptInbound(receiver, Some(r), sent.0, newPriv);
            got.Ok? && got.value.1 == text && Matches(sent.1, got.value.0)
            && got.value.0.skippedKeys == r.skippedKeys
  {
  }

  /** The first message of a conversation is the first delivery of a two-party ratchet run. */
  lemma InitStartsRun(sender: DeviceKeys, receiver: DeviceKeys, bundle: PreKeyBundle, text: Plaintext,
                      ekPriv: nat, nonce: nat, newPriv: nat)
    requires HonestKeys(sender) && HonestKeys(receiver) && BundleOf(receiver, bundle)
    requires PrekeyAgrees(receiver.oneTimePrekeys, bundle.oneTimePrekey)
    requires ekPriv != receiver.signedPrekey.priv && ekPriv < newPriv && receiver.signedPrekey.priv < newPriv
    ensures var sent := EncryptForDevice(sender, bundle, text, None, ekPriv, nonce).value;
            var got := DecryptInbound(receiver, None, sent.0, newPriv);
            got.Ok?
            && TwoParty.Reachable(TwoParty.World(sent.1, got.value.0,
                                                 [TwoParty.Wire(TwoParty.Alice, text, sent.0.packet)],
                                                 [TwoParty.Receipt(TwoParty.Bob, 0, text)], newPriv + 1))
  {
    InitRoundTrip(sender, receiver, bundle, text, ekPriv, nonce, None, newPriv);
    MasterAgreement(sender, receiver, bundle, ekPriv);
    var master := Initiate(sender, bundle, ekPriv).master;
    var start := TwoParty.Start(master, ekPriv, receiver.signedPrekey.priv, newPriv);
    var send, deliver := TwoParty.Send(TwoParty.Alice, text, nonce), TwoParty.Deliver(0);
    assert TwoParty.Run(start, []) == start;
    assert TwoParty.StartOk(master, ekPriv, receiver.signedPrekey.priv, newPriv);
    assert TwoParty.Reachable(start);
    TwoParty.StepReachable(start, send);
    TwoParty.StepReachable(TwoParty.Step(start, send), deliver);
  }

  // ---------------------------------------------------------------- every returned session can send

  /** Sender- and receiver-initialised sessions and all their successors. */
  predicate Usable(s: RatchetState) {
    s.CKs.None? ==> s.DHr.None? && s.skippedKeys == map[]
  }

  /** Every session these two functions return can encrypt. */
  lemma SessionsCanSend(my: DeviceKeys, bundle: PreKeyBundle, text: Plaintext, session: Option<RatchetState>,
                        envelope: Envelope, random: nat, nonce: nat)
    requires session.Some? ==> Usable(session.value)
    ensures var sent := EncryptForDevice(my, bundle, text, session, random, nonce);
            sent.Ok? ==> sent.value.1.CKs.Some? && Usable(sent.value.1)
    ensures var got := DecryptInbound(my, session, envelope, random);
            got.Ok? ==> got.value.0.CKs.Some? && Usable(got.value.0)
  {
  }
}
