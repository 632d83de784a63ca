/**
 Session reset. It works from any session tables whatsoever: nothing is assumed about the sessions
 that the devices hold or about the frames in flight when the reset happens.
 */
module Recovery {
  import opened Wrappers
  import opened Crypto
  import opened Ratchet
  import opened X3dh
  import opened Messaging
  import opened ChatClient
  import opened Mesh

  /** A reset leaves the device no session for sending to, or receiving from, any known device of the contact. */
  lemma ResetForgets(m: Mesh, dev: nat, contact: nat, other: nat)
    requires MeshOk(m) && dev < |m.nodes| && other < |m.nodes| && m.nodes[other].user == contact
    ensures var m' := Step(m, Reset(dev, contact));
            && Sending(m', dev, other) == None
            && (m.nodes[other].keys.identity.pub in m.nodes[dev].contacts ==> Receiving(m', other, dev) == None)
  {
    assert ContactsOk(m.nodes, m.nodes[dev].contacts);
  }

  /** A missing outbound session stays missing until the device sends there. */
  lemma StaysForgotten(m: Mesh, a: Action, from: nat, to: nat)
    requires MeshOk(m) && from < |m.nodes| && to < |m.nodes| && Sending(m, from, to) == None
    requires !(a.Send? && a.src == from && a.dst == to)
    ensures to < |Step(m, a).nodes| && from < |Step(m, a).nodes| && Sending(Step(m, a), from, to) == None
  {
    hide MeshOk, SentStep, TookStep;
    if !Enabled(m, a) {
    } else if a.Send? {
      var sent, p, s := SendIs(m, a);
      if sent {
        SentElsewhere(m, Step(m, a), a.src, a.dst, p, s, from, to);
      }
    } else if a.Deliver? {
      if HasHead(m, a.dst) {
        DeliverTakes(m, a.dst, a.newPriv);
        TookSize(m, Step(m, a), a.dst, a.newPriv);
        TookOthers(m, Step(m, a), a.dst, a.newPriv, from, to);
      }
    } else {
      QuietIs(m, a);
    }
  }

  lemma TookSize(m: Mesh, m': Mesh, dst: nat, newPriv: nat)
    requires HasHead(m, dst) && TookStep(m, m', dst, newPriv)
    ensures |m'.nodes| == |m.nodes|
  {
  }

  lemma SentElsewhere(m: Mesh, m': Mesh, src: nat, dst: nat, p: Post, s: RatchetState, from: nat, to: nat)
    requires MeshOk(m) && SentStep(m, m', src, dst, p, s) && from < |m.nodes| && to < |m.nodes|
    requires !(src == from && dst == to)
    ensures |m'.nodes| == |m.nodes| && Sending(m', from, to) == Sending(m, from, to)
  {
    SentSessions(m, m', src, dst, p, s, from, to);
  }

  /** Without an outbound session the next frame is an init, and it fits its addressee whatever that holds. */
  lemma NextSendIsInit(m: Mesh, a: Action)
    requires MeshOk(m) && Enabled(m, a) && a.Send? && a.verified && Sending(m, a.src, a.dst) == None
    ensures var m', user := Step(m, a), m.nodes[a.dst].user;
            var at := |m.Log(user)|;
            && |m'.Log(user)| == at + 1 && m'.Log(user)[at].envelope.Init?
            && m'.Log(user)[at].text == a.text && Between(m'.Log(user)[at], a.src, Device(m.nodes[a.dst]))
            && a.dst < |m'.nodes| && a.dst < |m'.minted| && Fits(FullKeys(m', a.dst), None, m'.Log(user)[at].envelope)
  {
    hide HonestKeys, ContactsOk;
    var sent, p, s := SendIs(m, a);
    var src, dst := m.nodes[a.src], m.nodes[a.dst];
    InitIsSent(src.keys, BundleFor(dst.keys, a.opk, true), a.text, a.draw);
  }

  lemma InitIsSent(keys: DeviceKeys, bundle: PreKeyBundle, text: Plaintext, draw: Draw)
    ensures EncryptForDevice(keys, bundle, text, None, draw.ekPriv, draw.nonce).Ok?
    ensures EncryptForDevice(keys, bundle, text, None, draw.ekPriv, draw.nonce).value.0.Init?
  {
  }

  lemma Sizes(m: Mesh)
    requires MeshOk(m)
    ensures |m.minted| == |m.nodes|
  {
  }

  /** An init that fits a device keeps fitting it, through everything that can happen to the device. */
  lemma StepFits(m: Mesh, a: Action, d: nat, e: Envelope)
    requires MeshOk(m) && d < |m.nodes| && e.Init? && Fits(FullKeys(m, d), None, e)
    ensures d < |Step(m, a).nodes| && d < |Step(m, a).minted| && Fits(FullKeys(Step(m, a), d), None, e)
  {
    hide MeshOk, Fits, HonestKeys, SendOne, SenderView, NextView;
    Sizes(m);
    StepKeepsMesh(m, a);
    Sizes(Step(m, a));
    if !Enabled(m, a) {
    } else if a.Send? {
      var sent, p, s := SendIs(m, a);
    } else if a.Deliver? {
      if HasHead(m, a.dst) {
        DeliverTakes(m, a.dst, a.newPriv);
      }
    } else {
      QuietIs(m, a);
      FitsMoreKeys(FullKeys(m, d), MorePrekeys(a), e);
      assert m.minted[d] + [] == m.minted[d];
    }
  }

  lemma FitsMoreKeys(keys: DeviceKeys, more: seq<OneTimePrivate>, e: Envelope)
    requires e.Init? && Fits(keys, None, e)
    ensures Fits(keys.(oneTimePrekeys := keys.oneTimePrekeys + more), None, e)
  {
    if e.opkId.Some? {
      FindStable(keys.oneTimePrekeys, more, e.opkId.value);
    }
  }

  lemma FitsAny(keys: DeviceKeys, view: Option<View>, e: Envelope)
    requires e.Init? && Fits(keys, None, e)
    ensures Fits(keys, view, e)
  {
  }

  lemma {:induction false} RunFits(m: Mesh, actions: seq<Action>, d: nat, e: Envelope)
    requires MeshOk(m) && d < |m.nodes| && e.Init? && Fits(FullKeys(m, d), None, e)
    ensures d < |Run(m, actions).nodes| && d < |Run(m, actions).minted| && Fits(FullKeys(Run(m, actions), d), None, e)
  {
    hide MeshOk, Step, Fits;
    Sizes(m);
    if actions != [] {
      RunFits(m, actions[..|actions| - 1], d, e);
      RunKeepsMesh(m, actions[..|actions| - 1]);
      StepFits(Run(m, actions[..|actions| - 1]), actions[|actions| - 1], d, e);
    }
  }

  /** A pair without an outbound session is in step from the end of the log on. */
  lemma InStepAtEnd(m: Mesh, from: nat, to: nat)
    requires MeshOk(m) && from < |m.nodes| && to < |m.nodes| && Sending(m, from, to) == None
    ensures InStep(m, from, to, |m.Log(m.nodes[to].user)|)
  {
    var log := m.Log(m.nodes[to].user);
    assert log[|log|..] == [];
  }

  /** A device opens an init that fits it and whose prekey it holds, and drops every outbound session to the sender. */
  lemma InitDropsOutbound(m: Mesh, from: nat, to: nat, newPriv: nat)
    requires MeshOk(m) && HasHead(m, to) && from < |m.nodes|
    requires Between(Head(m, to), from, Device(m.nodes[to]))
    requires Head(m, to).envelope.Init? && Head(m, to).text.Message?
          && Fits(FullKeys(m, to), None, Head(m, to).envelope)
    requires Kept(m.nodes[to].keys, Head(m, to).envelope)
    ensures var m' := Step(m, Deliver(to, newPriv));
            && |m'.nodes| == |m.nodes| && Sending(m', to, from) == None
            && m'.nodes[to].history == m.nodes[to].history + [Opened(m.nodes[from].keys.identity.pub, Head(m, to).text)]
  {
    hide ContactsOk, HonestKeys, DecryptInbound, ReceiverView, NextView, Kept;
    assert PostOk(m.nodes, Head(m, to));
    FitsAny(FullKeys(m, to), ReceiverView(Receiving(m, from, to)), Head(m, to).envelope);
    FrameOpens(FullKeys(m, to), Receiving(m, from, to), Head(m, to).envelope, newPriv);
    KeptIsFull(m.nodes[to].keys, FullKeys(m, to), Receiving(m, from, to), Head(m, to).envelope, newPriv);
    DeliverTakes(m, to, newPriv);
  }

  lemma {:induction false} RunStaysForgotten(m: Mesh, actions: seq<Action>, from: nat, to: nat)
    requires MeshOk(m) && from < |m.nodes| && to < |m.nodes| && Sending(m, from, to) == None
    requires forall i :: 0 <= i < |actions| ==> !(actions[i].Send? && actions[i].src == from && actions[i].dst == to)
    ensures |Run(m, actions).nodes| == |m.nodes| && Sending(Run(m, actions), from, to) == None
  {
    hide MeshOk, Step, Sending;
    RunKeepsMesh(m, actions);
    if actions != [] {
      var before := Run(m, actions[..|actions| - 1]);
      RunStaysForgotten(m, actions[..|actions| - 1], from, to);
      RunKeepsMesh(m, actions[..|actions| - 1]);
      StaysForgotten(before, actions[|actions| - 1], from, to);
    }
  }

  /** Mailboxes only grow. */
  lemma StepLogs(m: Mesh, a: Action, u: nat)
    ensures m.Log(u) <= Step(m, a).Log(u)
  {
    hide SendOne, OnDelivery, Filed;
    if a.Send? && Enabled(m, a) {
      var sent := SendOne(m.nodes[a.src], m.nodes[a.dst].user, BundleFor(m.nodes[a.dst].keys, a.opk, a.verified),
                          a.text, a.draw);
      if sent.Ok? {
        FiledAppends(m.logs, a.src, a.text, sent.value.1, u);
      }
    }
  }

  lemma {:induction false} RunLogs(m: Mesh, actions: seq<Action>, u: nat)
    ensures m.Log(u) <= Run(m, actions).Log(u)
  {
    hide Step;
    if actions != [] {
      RunLogs(m, actions[..|actions| - 1], u);
      StepLogs(Run(m, actions[..|actions| - 1]), actions[|actions| - 1], u);
    }
  }

  /** A frame that a pair is in step for is shown when its turn comes. */
  lemma InStepShows(m: Mesh, from: nat, to: nat, since: nat, newPriv: nat)
    requires MeshOk(m) && InStep(m, from, to, since) && HasHead(m, to) && since <= m.nodes[to].lastSeq
    requires Between(Head(m, to), from, Device(m.nodes[to])) && Kept(m.nodes[to].keys, Head(m, to).envelope)
    ensures var m' := Step(m, Deliver(to, newPriv));
            |m'.nodes| == |m.nodes|
            && m'.nodes[to].history == m.nodes[to].history + [Opened(m.nodes[from].keys.identity.pub, Head(m, to).text)]
  {
    hide HeadResult, ContactsOk, HonestKeys;
    assert PostOk(m.nodes, Head(m, to));
    HeadOpens(m, from, to, since, newPriv);
    DeliverTakes(m, to, newPriv);
  }

  /** From a's init on its way to b, to b having opened it and forgotten its session to a. */
  lemma InitRecovers(m1: Mesh, send: Action, during: seq<Action>, newPriv: nat)
    requires MeshOk(m1) && Enabled(m1, send) && send.Send? && send.verified && send.text.Message?
    requires Sending(m1, send.src, send.dst) == None
    requires var m2 := Run(Step(m1, send), during);
             HasHead(m2, send.dst) && m2.nodes[send.dst].lastSeq == |m1.Log(m1.nodes[send.dst].user)|
             && Kept(m2.nodes[send.dst].keys, Head(m2, send.dst).envelope)
    ensures var a, b := send.src, send.dst;
            var m2 := Run(Step(m1, send), during);
            var m3 := Step(m2, Deliver(b, newPriv));
            && Head(m2, b).envelope.Init? && Head(m2, b).text == send.text
            && MeshOk(m3) && |m3.nodes| == |m1.nodes| && Sending(m3, b, a) == None
            && m3.nodes[b].history == m2.nodes[b].history + [Opened(m1.nodes[a].keys.identity.pub, send.text)]
  {
    hide MeshOk, Step, Run, Sending, Fits, Kept;
    var a, b, user := send.src, send.dst, m1.nodes[send.dst].user;
    var m1', at := Step(m1, send), |m1.Log(user)|;
    var m2 := Run(m1', during);
    NextSendIsInit(m1, send);
    StepKeepsMesh(m1, send);
    RunKeepsMesh(m1', during);
    assert SameDevice(m1.nodes[b], m1'.nodes[b]) && SameDevice(m1'.nodes[b], m2.nodes[b]);
    assert SameDevice(m1.nodes[a], m1'.nodes[a]) && SameDevice(m1'.nodes[a], m2.nodes[a]);
    RunLogs(m1', during, user);
    assert Head(m2, b) == m1'.Log(user)[at];
    RunFits(m1', during, b, Head(m2, b).envelope);
    InitDropsOutbound(m2, a, b, newPriv);
    StepKeepsMesh(m2, Deliver(b, newPriv));
  }

  /**
   Reset recovery. Device a resets its contact with b's user; anything else happens; a's next frame
   to b is an init. Once b has taken that init from its mailbox, everything b posts for a from then
   on opens at a when a gets to it, whatever old frames were in flight, until a resets b's user again
   or processes an init of b without holding the one-time prekey that it names.
   */
  lemma ResetRecovery(m: Mesh, a: nat, b: nat, before: seq<Action>, send: Action, during: seq<Action>, newPriv: nat,
                      after: seq<Action>, newPriv': nat)
    requires MeshOk(m) && a < |m.nodes| && b < |m.nodes|
    requires forall i :: 0 <= i < |before| ==> !(before[i].Send? && before[i].src == a && before[i].dst == b)
    requires send.Send? && send.src == a && send.dst == b && send.verified && send.text.Message?
    requires var m1 := Run(Step(m, Reset(a, m.nodes[b].user)), before);
             var m2 := Run(Step(m1, send), during);
             && Enabled(m1, send)
             && HasHead(m2, b) && m2.nodes[b].lastSeq == |m1.Log(m1.nodes[b].user)|
             && Kept(m2.nodes[b].keys, Head(m2, b).envelope)
             && var m3 := Step(m2, Deliver(b, newPriv));
             a < |m3.nodes| && RunSpares(m3, after, b, a, |m3.Log(m3.nodes[a].user)|)
    ensures var m1 := Run(Step(m, Reset(a, m.nodes[b].user)), before);
            var m2 := Run(Step(m1, send), during);
            var m3 := Step(m2, Deliver(b, newPriv));
            var m4 := Run(m3, after);
            && Head(m2, b).envelope.Init? && Head(m2, b).text == send.text
            && b < |m3.nodes|
            && m3.nodes[b].history == m2.nodes[b].history + [Opened(m1.nodes[a].keys.identity.pub, send.text)]
            && a < |m3.nodes| && a < |m4.nodes| && b < |m4.nodes|
            && (HasHead(m4, a) && |m3.Log(m3.nodes[a].user)| <= m4.nodes[a].lastSeq
                && Between(Head(m4, a), b, Device(m4.nodes[a])) && Kept(m4.nodes[a].keys, Head(m4, a).envelope) ==>
                  a < |Step(m4, Deliver(a, newPriv')).nodes|
                  && Step(m4, Deliver(a, newPriv')).nodes[a].history
                     == m4.nodes[a].history + [Opened(m4.nodes[b].keys.identity.pub, Head(m4, a).text)])
  {
    hide MeshOk, Step, InStep, Run, Enabled, Sending;
    var reset := Reset(a, m.nodes[b].user);
    var m0 := Step(m, reset);
    StepKeepsMesh(m, reset);
    ResetForgets(m, a, m.nodes[b].user, b);
    var m1 := Run(m0, before);
    RunKeepsMesh(m0, before);
    RunStaysForgotten(m0, before, a, b);
    InitRecovers(m1, send, during, newPriv);
    var m3 := Step(Run(Step(m1, send), during), Deliver(b, newPriv));
    InStepAtEnd(m3, b, a);
    RunKeepsMesh(m3, after);
    RunKeepsPair(m3, after, b, a, |m3.Log(m3.nodes[a].user)|);
    var m4 := Run(m3, after);
    if HasHead(m4, a) && |m3.Log(m3.nodes[a].user)| <= m4.nodes[a].lastSeq
      && Between(Head(m4, a), b, Device(m4.nodes[a]))
       && Kept(m4.nodes[a].keys, Head(m4, a).envelope) {
      InStepShows(m4, b, a, |m3.Log(m3.nodes[a].user)|, newPriv');
    }
  }
}
