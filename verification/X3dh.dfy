/** The X3DH key agreement of x3dh.ts, over symbolic keys. */
module X3dh {
  import opened Wrappers
  import opened Crypto

  datatype OneTimePublic = OneTimePublic(keyId: nat, pub: PublicKey)

  datatype OneTimePrivate = OneTimePrivate(keyId: nat, priv: nat)

  /** The parts of a device's keys that messages depend on; `deviceId` is None until the server assigns it. */
  datatype DeviceKeys = DeviceKeys(deviceId: Option<nat>, identity: KeyPair, signedPrekey: KeyPair,
                                   oneTimePrekeys: seq<OneTimePrivate>)

  /** `verified` stands for the outcome of verifyBundle. */
  datatype PreKeyBundle = PreKeyBundle(deviceId: nat, identityKey: PublicKey, signedPrekey: PublicKey,
                                       oneTimePrekey: Option<OneTimePublic>, verified: bool)

  datatype X3dhResult = X3dhResult(master: RootKey, ek: KeyPair, opkId: Option<nat>, deviceId: nat)

  function Initiate(my: DeviceKeys, bundle: PreKeyBundle, ekPriv: nat): X3dhResult {
    var ek := GenerateKeyPair(ekPriv);
    var dhs := [DH(my.identity.priv, bundle.signedPrekey), DH(ek.priv, bundle.identityKey),
                DH(ek.priv, bundle.signedPrekey)];
    match bundle.oneTimePrekey
    case None => X3dhResult(Master(dhs), ek, None, bundle.deviceId)
    case Some(opk) => X3dhResult(Master(dhs + [DH(ek.priv, opk.pub)]), ek, Some(opk.keyId), bundle.deviceId)
  }

  /** `find` by key id: the first entry with that id. */
  function Find(prekeys: seq<OneTimePrivate>, keyId: nat): Option<OneTimePrivate> {
    if prekeys == [] then None
    else if prekeys[0].keyId == keyId then Some(prekeys[0])
    else Find(prekeys[1..], keyId)
  }

  /** A named one-time prekey that is not found is left out silently, as in the source. */
  function Receive(my: DeviceKeys, ik: PublicKey, ek: PublicKey, opkId: Option<nat>): RootKey {
    var dhs := [DH(my.signedPrekey.priv, ik), DH(my.identity.priv, ek), DH(my.signedPrekey.priv, ek)];
    var entry := if opkId.None? then None else Find(my.oneTimePrekeys, opkId.value);
    if entry.None? then Master(dhs) else Master(dhs + [DH(entry.value.priv, ek)])
  }

  predicate HonestKeys(keys: DeviceKeys) {
    keys.identity == GenerateKeyPair(keys.identity.priv) && keys.signedPrekey == GenerateKeyPair(keys.signedPrekey.priv)
  }

  /** The bundle carries the device's own identity key and signed prekey. */
  predicate BundleOf(keys: DeviceKeys, bundle: PreKeyBundle) {
    bundle.identityKey == keys.identity.pub && bundle.signedPrekey == keys.signedPrekey.pub
  }

  /** The one-time prekey of the bundle, if any, is the public half of what its id finds at the device. */
  predicate PrekeyAgrees(prekeys: seq<OneTimePrivate>, opk: Option<OneTimePublic>) {
    opk.None? || (Find(prekeys, opk.value.keyId).Some?
                   && PublicKey(Find(prekeys, opk.value.keyId).value.priv) == opk.value.pub)
  }

  /** Both sides derive one master secret exactly when they agree about the one-time prekey. */
  lemma MasterAgreement(sender: DeviceKeys, receiver: DeviceKeys, bundle: PreKeyBundle, ekPriv: nat)
    requires HonestKeys(sender) && HonestKeys(receiver) && BundleOf(receiver, bundle)
    ensures var sent := Initiate(sender, bundle, ekPriv);
            sent.master == Receive(receiver, sender.identity.pub, sent.ek.pub, sent.opkId)
            <==> PrekeyAgrees(receiver.oneTimePrekeys, bundle.oneTimePrekey)
  {
    var sent := Initiate(sender, bundle, ekPriv);
    var received := Receive(receiver, sender.identity.pub, sent.ek.pub, sent.opkId);
    DHAgreement(sender.identity.priv, receiver.signedPrekey.priv, 0);
    DHAgreement(ekPriv, receiver.identity.priv, 0);
    DHAgreement(ekPriv, receiver.signedPrekey.priv, 0);
    assert sent.master.inputs[..3] == received.inputs[..3];
    if bundle.oneTimePrekey.Some? {
      var opk, found := bundle.oneTimePrekey.value, Find(receiver.oneTimePrekeys, bundle.oneTimePrekey.value.keyId);
      assert sent.master.inputs[3] == DH(ekPriv, opk.pub);
      if found.Some? {
        DHAgreement(found.value.priv, ekPriv, opk.pub.priv);
        DHAgreement(ekPriv, opk.pub.priv, 0);
        assert received.inputs[3] == DH(found.value.priv, PublicKey(ekPriv));
      }
    }
  }

  /** Prekeys generated later do not change what an id finds. */
  lemma {:induction false} FindStable(prekeys: seq<OneTimePrivate>, more: seq<OneTimePrivate>, keyId: nat)
    requires Find(prekeys, keyId).Some?
    ensures Find(prekeys + more, keyId) == Find(prekeys, keyId)
  {
    if prekeys[0].keyId != keyId {
      assert (prekeys + more)[1..] == prekeys[1..] + more;
      FindStable(prekeys[1..], more, keyId);
    }
  }
}
