/**
 How far the app uses the ratchet. An outbound session is only ever sent on and an inbound one only
 received on, so over every run, resets included, no session takes a DH step after its init: the
 root key of an outbound session stays one KDF_RK step from its X3DH secret, that of an inbound
 session two.
 */
module OneWay {
  import opened Wrappers
  import opened Crypto
  import opened Ratchet
  import opened X3dh
  import opened Messaging
  import opened ChatClient
  import opened Mesh

  /** The KDF_RK output that a chain starts from. */
  function Base(chain: ChainKey): (base: ChainKey)
    ensures base.ChainSeed?
  {
    match chain
    case ChainSeed(_, _) => chain
    case NextChain(c) => Base(c)
  }

  lemma {:induction false} BaseAdvance(chain: ChainKey, n: nat)
    ensures Base(Advance(chain, n)) == Base(chain)
  {
    if n > 0 {
      BaseAdvance(chain, n - 1);
    }
  }

  /** The chain is the first one after an X3DH secret. */
  predicate First(chain: ChainKey) {
    Base(chain).root.Master?
  }

  predicate OutboundOk(s: RatchetState) {
    Depth(s.RK) == 1 && s.CKr.None? && s.PN == 0 && s.CKs.Some? && First(s.CKs.value)
  }

  predicate InboundOk(s: RatchetState) {
    Depth(s.RK) == 2 && s.Ns == 0 && s.PN == 0
  }

  predicate SessionOk(key: SessionKey, s: RatchetState) {
    if key.Outbound? then OutboundOk(s) else InboundOk(s)
  }

  ghost predicate SessionsOk(sessions: Sessions) {
    forall key :: key in sessions ==> SessionOk(key, sessions[key])
  }

  /** The frame announces no earlier chain and is sealed under a key of a first chain. */
  predicate FrameOk(e: Envelope) {
    e.packet.header.pn == 0 && First(e.packet.ct.key.chain)
  }

  ghost predicate AllOneWay(m: Mesh) {
    && (forall d :: 0 <= d < |m.nodes| ==> SessionsOk(m.nodes[d].sessions))
    && (forall u: nat, k: nat :: k < |m.Log(u)| ==> FrameOk(m.Log(u)[k].envelope))
  }

  lemma EncryptOneWay(my: DeviceKeys, bundle: PreKeyBundle, text: Plaintext, session: Option<RatchetState>,
                      ekPriv: nat, nonce: nat)
    requires session.Some? ==> OutboundOk(session.value)
    ensures var sent := EncryptForDevice(my, bundle, text, session, ekPriv, nonce);
            sent.Ok? && FrameOk(sent.value.0) && OutboundOk(sent.value.1)
  {
  }

  /** A frame under a key of a first chain opens on an inbound session without a DH step, or not at all. */
  lemma DecryptOneWay(s: RatchetState, p: Packet, newPriv: nat)
    requires InboundOk(s) && First(p.ct.key.chain) && Decrypt(s, p, newPriv).Ok?
    ensures InboundOk(Decrypt(s, p, newPriv).value.0)
    ensures var s' := Decrypt(s, p, newPriv).value.0; s'.RK == s.RK && s'.DHs == s.DHs && s'.DHr == s.DHr
  {
    hide Decrypt, DhStep, Skip;
    if SkippedName(p.header.dh, p.header.n) in s.skippedKeys {
      CachedKeeps(s, p, newPriv);
    } else {
      UncachedIs(s, p, newPriv);
      if s.DHr == Some(p.header.dh) {
        OnChainKeeps(s, p);
      } else {
        var s1 := DhStep(s, p.header, newPriv).value;
        StepChain(s, p.header, newPriv);
        OnChainKeeps(s1, p);
      }
    }
  }

  lemma CachedKeeps(s: RatchetState, p: Packet, newPriv: nat)
    requires SkippedName(p.header.dh, p.header.n) in s.skippedKeys && Decrypt(s, p, newPriv).Ok?
    ensures var s' := Decrypt(s, p, newPriv).value.0; s' == s.(skippedKeys := s'.skippedKeys)
  {
  }

  lemma UncachedIs(s: RatchetState, p: Packet, newPriv: nat)
    requires SkippedName(p.header.dh, p.header.n) !in s.skippedKeys && Decrypt(s, p, newPriv).Ok?
    ensures s.DHr == Some(p.header.dh) ==> Decrypt(s, p, newPriv) == DecryptOnChain(s, p)
    ensures s.DHr != Some(p.header.dh) ==> DhStep(s, p.header, newPriv).Ok?
                                           && Decrypt(s, p, newPriv)
                                             == DecryptOnChain(DhStep(s, p.header, newPriv).value, p)
  {
    hide DecryptOnChain, DhStep;
  }

  /** Opening on a chain moves nothing but the chain, and only under a key of that chain. */
  lemma OnChainKeeps(s: RatchetState, p: Packet)
    requires DecryptOnChain(s, p).Ok?
    ensures var s' := DecryptOnChain(s, p).value.0; s' == s.(CKr := s'.CKr, Nr := s'.Nr, skippedKeys := s'.skippedKeys)
    ensures s.CKr.Some? && Base(p.ct.key.chain) == Base(s.CKr.value)
  {
    if s.CKr.Some? && p.header.n > s.Nr {
      BaseAdvance(s.CKr.value, p.header.n - s.Nr);
    }
  }

  lemma StepChain(s: RatchetState, header: Header, newPriv: nat)
    requires DhStep(s, header, newPriv).Ok?
    ensures var s1 := DhStep(s, header, newPriv).value;
            && s1.CKr.Some? && Base(s1.CKr.value).root == s.RK && Depth(s1.RK) == Depth(s.RK) + 2
            && s1.Ns == 0 && s1.PN == s.Ns
  {
  }

  lemma InboundOneWay(my: DeviceKeys, session: Option<RatchetState>, e: Envelope, newPriv: nat)
    requires session.Some? ==> InboundOk(session.value)
    requires FrameOk(e) && DecryptInbound(my, session, e, newPriv).Ok?
    ensures InboundOk(DecryptInbound(my, session, e, newPriv).value.0)
    ensures e.Msg? ==> var s' := DecryptInbound(my, session, e, newPriv).value.0;
                       session.Some? && s'.RK == session.value.RK && s'.DHs == session.value.DHs
                         && s'.DHr == session.value.DHr
  {
    hide Decrypt, DecryptOnChain, DhStep;
    if e.Init? {
      var s := InitReceiver(Receive(my, e.ik, e.ek, e.opkId), my.signedPrekey);
      UncachedIs(s, e.packet, newPriv);
      StepChain(s, e.packet.header, newPriv);
      OnChainKeeps(DhStep(s, e.packet.header, newPriv).value, e.packet);
    } else {
      DecryptOneWay(session.value, e.packet, newPriv);
    }
  }

  lemma SendOneWay(c: ChatState, rid: nat, bundle: PreKeyBundle, text: Plaintext, draw: Draw)
    requires SessionsOk(c.sessions)
    ensures var r := SendOne(c, rid, bundle, text, draw);
            r.Ok? && SessionsOk(r.value.0.sessions)
            && forall i :: 0 <= i < |r.value.1| ==> FrameOk(r.value.1[i].envelope)
  {
    hide EncryptForDevice, OutboundOk, InboundOk, FrameOk;
    var key := Outbound(rid, bundle.deviceId);
    assert key in c.sessions ==> SessionOk(key, c.sessions[key]);
    EncryptOneWay(c.keys, bundle, text, Lookup(c.sessions, key), draw.ekPriv, draw.nonce);
  }

  lemma DeliveryOneWay(c: ChatState, seqNo: nat, e: Envelope, newPriv: nat)
    requires SessionsOk(c.sessions) && FrameOk(e)
    ensures SessionsOk(OnDelivery(c, seqNo, e, newPriv).sessions)
  {
    hide DecryptInbound, OutboundOk, InboundOk, FrameOk;
    var session := Lookup(c.sessions, Inbound(e.ik));
    assert session.Some? ==> SessionOk(Inbound(e.ik), session.value);
    if DecryptInbound(c.keys, session, e, newPriv).Ok? {
      InboundOneWay(c.keys, session, e, newPriv);
    }
  }

  lemma PostsOneWay(m: Mesh, src: nat, dst: nat, opk: Option<OneTimePublic>, verified: bool, text: Plaintext,
                    draw: Draw)
    requires AllOneWay(m) && Enabled(m, Send(src, dst, opk, verified, text, draw))
    ensures AllOneWay(Step(m, Send(src, dst, opk, verified, text, draw)))
  {
    hide SendOne, SessionsOk, FrameOk;
    var user, bundle := m.nodes[dst].user, BundleFor(m.nodes[dst].keys, opk, verified);
    SendOneWay(m.nodes[src], user, bundle, text, draw);
    var frames, m' := SendOne(m.nodes[src], user, bundle, text, draw).value.1,
                      Step(m, Send(src, dst, opk, verified, text, draw));
    forall u: nat, k: nat | k < |m'.Log(u)| ensures FrameOk(m'.Log(u)[k].envelope) {
      FiledAppends(m.logs, src, text, frames, u);
      if k < |m.Log(u)| {
        assert m'.Log(u)[k] == m.Log(u)[k];
      }
    }
  }

  /** An action that changes one device and no mailbox. */
  lemma OneNode(m: Mesh, m': Mesh, d: nat)
    requires AllOneWay(m) && m'.logs == m.logs && |m'.nodes| == |m.nodes| && d < |m.nodes|
    requires forall i :: 0 <= i < |m.nodes| && i != d ==> m'.nodes[i] == m.nodes[i]
    requires SessionsOk(m'.nodes[d].sessions)
    ensures AllOneWay(m')
  {
    hide SessionsOk, FrameOk;
    forall u: nat, k: nat | k < |m'.Log(u)| ensures FrameOk(m'.Log(u)[k].envelope) {
      assert m'.Log(u) == m.Log(u);
    }
  }

  lemma StepOneWay(m: Mesh, a: Action)
    requires AllOneWay(m)
    ensures AllOneWay(Step(m, a))
  {
    hide SendOne, OnDelivery, SessionsOk, FrameOk;
    if Enabled(m, a) {
      match a
      case Send(src, dst, opk, verified, text, draw) =>
        PostsOneWay(m, src, dst, opk, verified, text, draw);
      case Deliver(dst, newPriv) =>
        if HasHead(m, dst) {
          DeliveryOneWay(m.nodes[dst], m.nodes[dst].lastSeq + 1, Head(m, dst).envelope, newPriv);
          hide AllOneWay;
          OneNode(m, Step(m, a), dst);
        }
      case Reset(dev, contact) =>
        Fewer(m.nodes[dev].sessions, OnReset(m.nodes[dev], contact).sessions);
        hide AllOneWay;
        OneNode(m, Step(m, a), dev);
      case Ack(dev, messageId) =>
        hide AllOneWay;
        OneNode(m, Step(m, a), dev);
      case Mint(dev, more) =>
        assert SessionsOk(m.nodes[dev].sessions);
        hide AllOneWay;
        OneNode(m, Step(m, a), dev);
      case Keep(dev, count) =>
        hide AllOneWay;
        OneNode(m, Step(m, a), dev);
    }
  }

  lemma Fewer(sessions: Sessions, left: Sessions)
    requires SessionsOk(sessions) && forall key :: key in left ==> key in sessions && left[key] == sessions[key]
    ensures SessionsOk(left)
  {
  }

  lemma {:induction false} RunOneWay(m: Mesh, actions: seq<Action>)
    requires AllOneWay(m)
    ensures AllOneWay(Run(m, actions))
  {
    hide AllOneWay, Step;
    if actions != [] {
      RunOneWay(m, actions[..|actions| - 1]);
      StepOneWay(Run(m, actions[..|actions| - 1]), actions[|actions| - 1]);
    }
  }

  /**
   In every run of a mesh, resets included, every outbound session stands one KDF_RK step, and every
   inbound session two, from its X3DH secret, and a "msg" frame that opens leaves root key and both
   ratchet keys as they were: after the init, no session takes another DH step.
   */
  lemma NoFurtherDhStep(m: Mesh, actions: seq<Action>, d: nat, newPriv: nat)
    requires Fresh(m)
    ensures var m' := Run(m, actions);
            && (forall i, key :: 0 <= i < |m'.nodes| && key in m'.nodes[i].sessions ==>
                  Depth(m'.nodes[i].sessions[key].RK) == if key.Outbound? then 1 else 2)
            && (HasHead(m', d) && Head(m', d).envelope.Msg? && HeadResult(m', d, newPriv).Ok? ==>
                  var before, after := Lookup(m'.nodes[d].sessions, Inbound(Head(m', d).envelope.ik)),
                                       HeadResult(m', d, newPriv).value.0;
                  before.Some? && after.RK == before.value.RK && after.DHs == before.value.DHs
                    && after.DHr == before.value.DHr)
  {
    hide Run, DecryptInbound;
    RunOneWay(m, actions);
    var m' := Run(m, actions);
    assert forall i, key :: 0 <= i < |m'.nodes| && key in m'.nodes[i].sessions ==>
        SessionOk(key, m'.nodes[i].sessions[key]);
    if HasHead(m', d) && HeadResult(m', d, newPriv).Ok? {
      var e := Head(m', d).envelope;
      InboundOneWay(m'.nodes[d].keys, Lookup(m'.nodes[d].sessions, Inbound(e.ik)), e, newPriv);
    }
  }
}
