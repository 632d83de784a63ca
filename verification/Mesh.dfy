/**
 Any number of devices exchanging frames through per-user mailbox logs.

 `logs[u]` is the mailbox of user u; a device has processed a prefix of its user's log, once and
 in order (module Mailbox proves that of the socket server). An action is one atomic step of one
 device: one turn of a send loop, one delivered frame, one ack, a batch of one-time prekeys made or
 kept, one session reset. Actions of different devices interleave in any way, so inits may cross.

 `minted[d]` lists the one-time prekeys device d has made; it holds the private halves of the first
 so many of them. Bundles may carry any of them, so also one whose batch the device does not hold
 yet (module Prekeys says when the pool is that way).
 */
module Mesh {
  import opened Wrappers
  import opened Crypto
  import opened Ratchet
  import opened X3dh
  import opened Messaging
  import opened ChatClient

  /** A frame in a mailbox; `from` and `text` say who sent it and what it was asked to send. */
  datatype Post = Post(from: nat, text: Plaintext, envelope: Envelope)

  datatype Mesh = Mesh(nodes: seq<ChatState>, logs: map<nat, seq<Post>>, minted: seq<seq<OneTimePrivate>>) {
    function Log(user: nat): seq<Post> {
      LogOf(logs, user)
    }
  }

  datatype Action =
    | Send(src: nat, dst: nat, opk: Option<OneTimePublic>, verified: bool, text: Plaintext, draw: Draw)
    | Deliver(dst: nat, newPriv: nat)
    | Ack(dev: nat, messageId: nat)
    | Mint(dev: nat, more: seq<OneTimePrivate>)
    | Keep(dev: nat, count: nat)
    | Reset(dev: nat, contact: nat)

  function BundleFor(keys: DeviceKeys, opk: Option<OneTimePublic>, verified: bool): PreKeyBundle {
    PreKeyBundle(if keys.deviceId.Some? then keys.deviceId.value else 0,
                 keys.identity.pub, keys.signedPrekey.pub, opk, verified)
  }

  /** What the environment of an action must be: honest prekeys, and the sender's own id in its messages. */
  predicate Enabled(m: Mesh, a: Action) {
    match a
    case Send(src, dst, opk, _, text, _) =>
      src < |m.nodes| && dst < |m.nodes| && dst < |m.minted| && PrekeyAgrees(m.minted[dst], opk)
      && (text.Message? ==> text.senderId == m.nodes[src].user)
    case Deliver(dst, _) => dst < |m.nodes|
    case Ack(dev, _) => dev < |m.nodes|
    case Mint(dev, _) => dev < |m.nodes| && dev < |m.minted|
    case Keep(dev, count) =>
      dev < |m.nodes| && dev < |m.minted| && |m.nodes[dev].keys.oneTimePrekeys| <= count <= |m.minted[dev]|
    case Reset(dev, _) => dev < |m.nodes|
  }

  function LogOf(logs: map<nat, seq<Post>>, user: nat): seq<Post> {
    if user in logs then logs[user] else []
  }

  /** The server appends each frame to the mailbox that the frame itself names. */
  function Filed(logs: map<nat, seq<Post>>, from: nat, text: Plaintext, frames: seq<Frame>): map<nat, seq<Post>> {
    if frames == [] then logs else
    var before, last := Filed(logs, from, text, frames[..|frames| - 1]), frames[|frames| - 1];
    before[last.mailbox := LogOf(before, last.mailbox) + [Post(from, text, last.envelope)]]
  }

  ghost predicate FromFrame(p: Post, from: nat, text: Plaintext, frames: seq<Frame>, user: nat) {
    exists i :: 0 <= i < |frames| && frames[i].mailbox == user && p == Post(from, text, frames[i].envelope)
  }

  /** A mailbox only grows, and by what the frames addressed to it carry. */
  lemma {:induction false} FiledAppends(logs: map<nat, seq<Post>>, from: nat, text: Plaintext, frames: seq<Frame>,
                                        user: nat)
    ensures var before, after := LogOf(logs, user), LogOf(Filed(logs, from, text, frames), user);
            && before <= after
            && forall k :: |before| <= k < |after| ==> FromFrame(after[k], from, text, frames, user)
  {
    if frames != [] {
      var front := frames[..|frames| - 1];
      FiledAppends(logs, from, text, front, user);
      var before, after := LogOf(logs, user), LogOf(Filed(logs, from, text, frames), user);
      forall k | |before| <= k < |after| ensures FromFrame(after[k], from, text, frames, user) {
        if k < |LogOf(Filed(logs, from, text, front), user)| {
          assert FromFrame(after[k], from, text, front, user);
        } else {
          assert after[k] == Post(from, text, frames[|front|].envelope);
        }
      }
    }
  }

  function Step(m: Mesh, a: Action): Mesh {
    if !Enabled(m, a) then m else
    match a
    case Send(src, dst, opk, verified, text, draw) =>
      var user := m.nodes[dst].user;
      (match SendOne(m.nodes[src], user, BundleFor(m.nodes[dst].keys, opk, verified), text, draw)
       case Err(_) => m
       case Ok((state, frames)) =>
         m.(nodes := m.nodes[src := state], logs := Filed(m.logs, src, text, frames)))
    case Deliver(dst, newPriv) =>
      var node := m.nodes[dst];
      if node.lastSeq >= |m.Log(node.user)| then m
      else
        var envelope := m.Log(node.user)[node.lastSeq].envelope;
        m.(nodes := m.nodes[dst := OnDelivery(node, node.lastSeq + 1, envelope, newPriv)])
    case Ack(dev, messageId) => m.(nodes := m.nodes[dev := OnAck(m.nodes[dev], messageId)])
    case Mint(dev, more) => m.(minted := m.minted[dev := m.minted[dev] + more])
    case Keep(dev, count) =>
      var node := m.nodes[dev];
      m.(nodes := m.nodes[dev := node.(keys := node.keys.(oneTimePrekeys := m.minted[dev][..count]))])
    case Reset(dev, contact) => m.(nodes := m.nodes[dev := OnReset(m.nodes[dev], contact)])
  }

  // ---------------------------------------------------------------- identities and logs

  ghost predicate DevicesOk(nodes: seq<ChatState>) {
    && (forall i :: 0 <= i < |nodes| ==> HonestKeys(nodes[i].keys) && nodes[i].keys.deviceId.Some?)
    && (forall i, j :: 0 <= i < j < |nodes| ==>
          nodes[i].keys.identity.pub != nodes[j].keys.identity.pub && nodes[i].keys.deviceId != nodes[j].keys.deviceId)
  }

  /** A contact map says of no device of the mesh that it belongs to someone else. */
  ghost predicate ContactsOk(nodes: seq<ChatState>, contacts: map<PublicKey, nat>) {
    forall j :: 0 <= j < |nodes| && nodes[j].keys.identity.pub in contacts ==>
      contacts[nodes[j].keys.identity.pub] == nodes[j].user
  }

  ghost predicate PostOk(nodes: seq<ChatState>, p: Post) {
    && p.from < |nodes| && p.envelope.ik == nodes[p.from].keys.identity.pub
    && p.envelope.packet.ct.text == p.text
    && (p.text.Message? ==> p.text.senderId == nodes[p.from].user)
  }

  ghost predicate MeshOk(m: Mesh) {
    && DevicesOk(m.nodes)
    && (forall i :: 0 <= i < |m.nodes| ==> ContactsOk(m.nodes, m.nodes[i].contacts))
    && (forall u: nat, k: nat :: k < |m.Log(u)| ==> PostOk(m.nodes, m.Log(u)[k]))
    && (forall i :: 0 <= i < |m.nodes| ==> m.nodes[i].lastSeq <= |m.Log(m.nodes[i].user)|)
    && |m.minted| == |m.nodes|
    && (forall i :: 0 <= i < |m.nodes| ==> m.nodes[i].keys.oneTimePrekeys <= m.minted[i])
  }

  /** The device's keys once it holds every one-time prekey it has made. */
  function FullKeys(m: Mesh, d: nat): DeviceKeys
    requires d < |m.nodes| && d < |m.minted|
  {
    m.nodes[d].keys.(oneTimePrekeys := m.minted[d])
  }

  /** The device holds the one-time prekey that the frame names. */
  predicate Kept(keys: DeviceKeys, e: Envelope) {
    e.Init? && e.opkId.Some? ==> Find(keys.oneTimePrekeys, e.opkId.value).Some?
  }

  // ---------------------------------------------------------------- one sending and one receiving session

  /** Where a session stands on its chain. */
  datatype View = View(dh: PublicKey, ck: ChainKey, n: nat)

  function SenderView(session: Option<RatchetState>): Option<View> {
    if session.None? || session.value.CKs.None? then None
    else Some(View(session.value.DHs.pub, session.value.CKs.value, session.value.Ns))
  }

  function ReceiverView(session: Option<RatchetState>): Option<View> {
    if session.None? || session.value.DHr.None? || session.value.CKr.None? || session.value.skippedKeys != map[]
    then None
    else Some(View(session.value.DHr.value, session.value.CKr.value, session.value.Nr))
  }

  /** The chain an init starts at a receiver with these keys. */
  function InitChain(keys: DeviceKeys, e: Envelope): ChainKey
    requires e.Init?
  {
    ChainSeed(Receive(keys, e.ik, e.ek, e.opkId), DH(keys.signedPrekey.priv, e.packet.header.dh))
  }

  /** A receiver that stands at `view` opens this frame. */
  ghost predicate Fits(keys: DeviceKeys, view: Option<View>, e: Envelope) {
    && e.packet.ct.nonce == e.packet.nonce
    && match e
       case Init(_, _, opkId, _, packet) =>
         packet.header.n == 0 && packet.ct.key == MessageKey(InitChain(keys, e))
         && (opkId.Some? ==> Find(keys.oneTimePrekeys, opkId.value).Some?)
       case Msg(_, _, packet) =>
         view.Some? && packet.header.dh == view.value.dh && packet.header.n == view.value.n
         && packet.ct.key == MessageKey(view.value.ck)
  }

  function NextView(keys: DeviceKeys, view: Option<View>, e: Envelope): Option<View> {
    match e
    case Init(_, _, _, _, packet) => Some(View(packet.header.dh, NextChain(InitChain(keys, e)), 1))
    case Msg(_, _, packet) =>
      if view.None? then None else Some(View(view.value.dh, NextChain(view.value.ck), view.value.n + 1))
  }

  /** Every queued frame opens in turn, and then the receiver stands where the sender's live session stands. */
  ghost predicate Ready(keys: DeviceKeys, view: Option<View>, queue: seq<Post>, sender: Option<View>)
    decreases queue
  {
    if queue == [] then sender.Some? ==> view == sender
    else Fits(keys, view, queue[0].envelope)
         && Ready(keys, NextView(keys, view, queue[0].envelope), queue[1..], sender)
  }

  lemma FrameOpens(keys: DeviceKeys, session: Option<RatchetState>, e: Envelope, newPriv: nat)
    requires Fits(keys, ReceiverView(session), e)
    ensures var got := DecryptInbound(keys, session, e, newPriv);
            got.Ok? && got.value.1 == e.packet.ct.text
            && ReceiverView(Some(got.value.0)) == NextView(keys, ReceiverView(session), e)
  {
  }

  /** A frame made for a device fits a receiver that stands where the sending session stood. */
  lemma FrameFits(sender: DeviceKeys, receiver: DeviceKeys, bundle: PreKeyBundle, text: Plaintext,
                  session: Option<RatchetState>, ekPriv: nat, nonce: nat, view: Option<View>)
    requires HonestKeys(sender) && HonestKeys(receiver) && BundleOf(receiver, bundle)
    requires PrekeyAgrees(receiver.oneTimePrekeys, bundle.oneTimePrekey)
    requires session.Some? ==> SenderView(session) == view
    ensures var sent := EncryptForDevice(sender, bundle, text, session, ekPriv, nonce);
            sent.Ok? ==>
              Fits(receiver, view, sent.value.0) && sent.value.0.packet.ct.text == text
              && SenderView(Some(sent.value.1)) == NextView(receiver, view, sent.value.0)
              && sent.value.0.ik == sender.identity.pub && sent.value.0.deviceId == bundle.deviceId
              && (session.None? ==> sent.value.0.Init?)
  {
    MasterAgreement(sender, receiver, bundle, ekPriv);
    DHAgreement(ekPriv, receiver.signedPrekey.priv, 0);
  }

  lemma {:induction false} ReadyAppend(keys: DeviceKeys, view: Option<View>, queue: seq<Post>, sender: Option<View>,
                                       p: Post)
    requires Ready(keys, view, queue, sender)
    requires Fits(keys, sender, p.envelope)
    ensures Ready(keys, view, queue + [p], NextView(keys, sender, p.envelope))
    decreases queue
  {
    if queue == [] {
      assert (queue + [p])[1..] == [];
    } else {
      assert (queue + [p])[1..] == queue[1..] + [p];
      ReadyAppend(keys, NextView(keys, view, queue[0].envelope), queue[1..], sender, p);
    }
  }

  lemma {:induction false} ReadyDrop(keys: DeviceKeys, view: Option<View>, queue: seq<Post>, sender: Option<View>)
    requires Ready(keys, view, queue, sender)
    ensures Ready(keys, view, queue, None)
    decreases queue
  {
    if queue != [] {
      ReadyDrop(keys, NextView(keys, view, queue[0].envelope), queue[1..], sender);
    }
  }

  /** Frames that need no receiving session open from any. */
  lemma {:induction false} ReadyFromAny(keys: DeviceKeys, view: Option<View>, queue: seq<Post>, sender: Option<View>)
    requires Ready(keys, None, queue, sender)
    ensures Ready(keys, view, queue, sender)
  {
    if queue != [] {
      assert NextView(keys, view, queue[0].envelope) == NextView(keys, None, queue[0].envelope);
    }
  }

  lemma {:induction false} ReadyMoreKeys(keys: DeviceKeys, more: seq<OneTimePrivate>, view: Option<View>,
                                         queue: seq<Post>, sender: Option<View>)
    requires Ready(keys, view, queue, sender)
    ensures Ready(keys.(oneTimePrekeys := keys.oneTimePrekeys + more), view, queue, sender)
    decreases queue
  {
    if queue != [] {
      var e := queue[0].envelope;
      if e.Init? && e.opkId.Some? {
        FindStable(keys.oneTimePrekeys, more, e.opkId.value);
      }
      ReadyMoreKeys(keys, more, NextView(keys, view, e), queue[1..], sender);
    }
  }

  // ---------------------------------------------------------------- queues between two devices

  predicate Between(p: Post, from: nat, device: nat) {
    p.from == from && p.envelope.deviceId == device
  }

  /** The frames of a log that go from one device to another. */
  function Queue(log: seq<Post>, from: nat, device: nat): seq<Post> {
    if log == [] then []
    else (if Between(log[0], from, device) then [log[0]] else []) + Queue(log[1..], from, device)
  }

  lemma {:induction false} QueueAppend(log: seq<Post>, p: Post, from: nat, device: nat)
    ensures Queue(log + [p], from, device) == Queue(log, from, device) + (if Between(p, from, device) then [p] else [])
  {
    hide Between;
    if log == [] {
      assert (log + [p])[1..] == [];
    } else {
      assert (log + [p])[1..] == log[1..] + [p];
      QueueAppend(log[1..], p, from, device);
    }
  }

  /** What device `to` holds for frames from device `from`. */
  function Receiving(m: Mesh, from: nat, to: nat): Option<RatchetState>
    requires from < |m.nodes| && to < |m.nodes|
  {
    Lookup(m.nodes[to].sessions, Inbound(m.nodes[from].keys.identity.pub))
  }

  function Device(c: ChatState): nat {
    if c.keys.deviceId.Some? then c.keys.deviceId.value else 0
  }

  function Sending(m: Mesh, from: nat, to: nat): Option<RatchetState>
    requires from < |m.nodes| && to < |m.nodes|
  {
    Lookup(m.nodes[from].sessions, Outbound(m.nodes[to].user, Device(m.nodes[to])))
  }

  /** The log index from which the pair is watched. */
  function Front(m: Mesh, to: nat, since: nat): nat
    requires to < |m.nodes|
  {
    if m.nodes[to].lastSeq < since then since else m.nodes[to].lastSeq
  }

  function Pending(m: Mesh, from: nat, to: nat, since: nat): seq<Post>
    requires to < |m.nodes| && Front(m, to, since) <= |m.Log(m.nodes[to].user)|
  {
    Queue(m.Log(m.nodes[to].user)[Front(m, to, since)..], from, Device(m.nodes[to]))
  }

  /** Where the receiver stands when the front is reached; unknown while it is still behind `since`. */
  function Standing(m: Mesh, from: nat, to: nat, since: nat): Option<View>
    requires from < |m.nodes| && to < |m.nodes|
  {
    if m.nodes[to].lastSeq < since then None else ReceiverView(Receiving(m, from, to))
  }

  /**
   The pair (from, to) is in step for every frame at log index `since` or later: those frames open
   in turn, and after them the inbound session matches the outbound one.
   */
  ghost predicate InStep(m: Mesh, from: nat, to: nat, since: nat) {
    && from < |m.nodes| && to < |m.nodes| && to < |m.minted| && Front(m, to, since) <= |m.Log(m.nodes[to].user)|
    && Ready(FullKeys(m, to), Standing(m, from, to, since), Pending(m, from, to, since),
             SenderView(Sending(m, from, to)))
  }

  // ---------------------------------------------------------------- every action keeps identities and pairs

  /** The fixed parts of every device. */
  ghost predicate SameDevice(c: ChatState, c': ChatState) {
    && c'.user == c.user && c'.keys.deviceId == c.keys.deviceId
    && c'.keys.identity == c.keys.identity && c'.keys.signedPrekey == c.keys.signedPrekey
  }

  ghost predicate SameDevices(m: Mesh, m': Mesh) {
    |m'.nodes| == |m.nodes| && forall i :: 0 <= i < |m.nodes| ==> SameDevice(m.nodes[i], m'.nodes[i])
  }

  /** Exactly one frame p went from src to dst, and src's session for it is now s. */
  ghost predicate SentStep(m: Mesh, m': Mesh, src: nat, dst: nat, p: Post, s: RatchetState) {
    && src < |m.nodes| && dst < |m.nodes| && |m'.nodes| == |m.nodes| && dst < |m.minted| && m'.minted == m.minted
    && (forall u: nat :: m'.Log(u) == if u == m.nodes[dst].user then m.Log(u) + [p] else m.Log(u))
    && (forall i :: 0 <= i < |m.nodes| && i != src ==> m'.nodes[i] == m.nodes[i])
    && m'.nodes[src] == m.nodes[src].(sessions := m'.nodes[src].sessions, pendingAcks := m'.nodes[src].pendingAcks)
    && m'.nodes[src].sessions == m.nodes[src].sessions[Outbound(m.nodes[dst].user, Device(m.nodes[dst])) := s]
    && p.from == src && p.envelope.deviceId == Device(m.nodes[dst]) && PostOk(m.nodes, p)
    && Fits(FullKeys(m, dst), SenderView(Sending(m, src, dst)), p.envelope)
    && SenderView(Some(s)) == NextView(FullKeys(m, dst), SenderView(Sending(m, src, dst)), p.envelope)
  }

  ghost predicate NoStep(m: Mesh, m': Mesh) {
    m'.nodes == m.nodes && m'.minted == m.minted && forall u: nat :: m'.Log(u) == m.Log(u)
  }

  /** A send either fails and changes nothing, or puts one fitting frame in the addressee's mailbox. */
  lemma SendIs(m: Mesh, a: Action) returns (sent: bool, p: Post, s: RatchetState)
    requires MeshOk(m) && Enabled(m, a) && a.Send?
    ensures sent ==> SentStep(m, Step(m, a), a.src, a.dst, p, s) && p.text == a.text
    ensures !sent ==> NoStep(m, Step(m, a))
  {
    var src, dst := m.nodes[a.src], m.nodes[a.dst];
    var bundle := BundleFor(dst.keys, a.opk, a.verified);
    var e := EncryptForDevice(src.keys, bundle, a.text, Sending(m, a.src, a.dst), a.draw.ekPriv, a.draw.nonce);
    sent := a.verified && e.Ok?;
    if sent {
      FrameFits(src.keys, FullKeys(m, a.dst), bundle, a.text, Sending(m, a.src, a.dst), a.draw.ekPriv, a.draw.nonce,
                SenderView(Sending(m, a.src, a.dst)));
      p, s := Post(a.src, a.text, e.value.0), e.value.1;
      var frames := [Frame(a.draw.messageId, dst.user, e.value.0)];
      assert frames[..0] == [];
      assert Filed(m.logs, a.src, a.text, frames) == m.logs[dst.user := m.Log(dst.user) + [p]];
    } else {
      p, s := *, *;
    }
  }

  lemma SameDevicesKeep(m: Mesh, m': Mesh)
    requires SameDevices(m, m')
    ensures DevicesOk(m.nodes) ==> DevicesOk(m'.nodes)
    ensures forall p :: PostOk(m.nodes, p) ==> PostOk(m'.nodes, p)
    ensures forall contacts :: ContactsOk(m.nodes, contacts) ==> ContactsOk(m'.nodes, contacts)
  {
  }

  lemma SentKeepsMesh(m: Mesh, m': Mesh, src: nat, dst: nat, p: Post, s: RatchetState)
    requires MeshOk(m) && SentStep(m, m', src, dst, p, s)
    ensures MeshOk(m') && SameDevices(m, m')
  {
    hide Fits, NextView, SenderView, PostOk, ContactsOk, DevicesOk, Sending;
    SameDevicesKeep(m, m');
  }

  lemma SentSessions(m: Mesh, m': Mesh, src: nat, dst: nat, p: Post, s: RatchetState, from: nat, to: nat)
    requires DevicesOk(m.nodes) && SentStep(m, m', src, dst, p, s) && from < |m.nodes| && to < |m.nodes|
    ensures Receiving(m', from, to) == Receiving(m, from, to)
    ensures Sending(m', from, to) == if from == src && to == dst then Some(s) else Sending(m, from, to)
  {
    hide Fits, NextView, SenderView, PostOk, HonestKeys;
  }

  lemma SentPending(m: Mesh, m': Mesh, src: nat, dst: nat, p: Post, s: RatchetState, from: nat, to: nat, since: nat)
    requires DevicesOk(m.nodes) && SentStep(m, m', src, dst, p, s) && from < |m.nodes| && to < |m.nodes|
    requires Front(m, to, since) <= |m.Log(m.nodes[to].user)|
    ensures Front(m', to, since) == Front(m, to, since) <= |m'.Log(m.nodes[to].user)|
    ensures Pending(m', from, to, since)
            == Pending(m, from, to, since) + if from == src && to == dst then [p] else []
  {
    hide Fits, NextView, SenderView, PostOk, HonestKeys, Queue, Sending;
    var node, log, front := m.nodes[to], m.Log(m.nodes[to].user), Front(m, to, since);
    if node.user == m.nodes[dst].user {
      assert m'.Log(node.user)[front..] == log[front..] + [p];
      QueueAppend(log[front..], p, from, Device(node));
    }
  }

  lemma SentKeepsPair(m: Mesh, m': Mesh, src: nat, dst: nat, p: Post, s: RatchetState, from: nat, to: nat, since: nat)
    requires MeshOk(m) && SentStep(m, m', src, dst, p, s) && InStep(m, from, to, since)
    ensures InStep(m', from, to, since)
  {
    hide Fits, NextView, SenderView, ReceiverView, PostOk, Ready, HonestKeys, Pending, Sending, Receiving;
    SentSessions(m, m', src, dst, p, s, from, to);
    SentPending(m, m', src, dst, p, s, from, to, since);
    if from == src && to == dst {
      ReadyAppend(FullKeys(m, to), Standing(m, from, to, since), Pending(m, from, to, since),
                  SenderView(Sending(m, from, to)), p);
    } else {
      assert Pending(m, from, to, since) + [] == Pending(m, from, to, since);
    }
  }

  // ---------------------------------------------------------------- delivering

  predicate HasHead(m: Mesh, dst: nat) {
    dst < |m.nodes| && m.nodes[dst].lastSeq < |m.Log(m.nodes[dst].user)|
  }

  /** The frame a device processes next. */
  function Head(m: Mesh, dst: nat): Post
    requires HasHead(m, dst)
  {
    m.Log(m.nodes[dst].user)[m.nodes[dst].lastSeq]
  }

  predicate ForDevice(p: Post, c: ChatState) {
    p.envelope.deviceId == Device(c)
  }

  /** What decrypting the head would give device dst. */
  function HeadResult(m: Mesh, dst: nat, newPriv: nat): Result<(RatchetState, Plaintext)>
    requires HasHead(m, dst)
  {
    DecryptInbound(m.nodes[dst].keys, Lookup(m.nodes[dst].sessions, Inbound(Head(m, dst).envelope.ik)),
                   Head(m, dst).envelope, newPriv)
  }

  /** Device dst took its head: an inbound session and the history may have moved, outbound sessions may be gone. */
  ghost predicate TookStep(m: Mesh, m': Mesh, dst: nat, newPriv: nat)
    requires HasHead(m, dst)
  {
    var p, got, node := Head(m, dst), HeadResult(m, dst, newPriv), m.nodes[dst];
    var opens := ForDevice(p, node) && got.Ok?;
    && m'.logs == m.logs && m'.minted == m.minted && |m'.nodes| == |m.nodes|
    && (forall i :: 0 <= i < |m.nodes| && i != dst ==> m'.nodes[i] == m.nodes[i])
    && m'.nodes[dst].user == node.user && m'.nodes[dst].keys == node.keys && m'.nodes[dst].lastSeq == node.lastSeq + 1
    && ContactsOk(m.nodes, m'.nodes[dst].contacts)
    && m'.nodes[dst].history == node.history + (if opens then [Opened(p.envelope.ik, p.text)] else [])
    && (forall ik :: Lookup(m'.nodes[dst].sessions, Inbound(ik))
                     == if opens && ik == p.envelope.ik then Some(got.value.0) else Lookup(node.sessions, Inbound(ik)))
    && (forall user, device :: Lookup(m'.nodes[dst].sessions, Outbound(user, device))
                               == if opens && p.envelope.Init? && p.text.Message? && p.text.senderId == user then None
                                  else Lookup(node.sessions, Outbound(user, device)))
  }

  lemma DecryptText(s: RatchetState, p: Packet, newPriv: nat)
    ensures Decrypt(s, p, newPriv).Ok? ==> Decrypt(s, p, newPriv).value.1 == p.ct.text
  {
  }

  lemma InboundText(keys: DeviceKeys, session: Option<RatchetState>, e: Envelope, newPriv: nat)
    ensures DecryptInbound(keys, session, e, newPriv).Ok? ==>
              DecryptInbound(keys, session, e, newPriv).value.1 == e.packet.ct.text
  {
    hide Decrypt;
    if e.Init? {
      DecryptText(InitReceiver(Receive(keys, e.ik, e.ek, e.opkId), keys.signedPrekey), e.packet, newPriv);
    } else if session.Some? {
      DecryptText(session.value, e.packet, newPriv);
    }
  }

  /** What a successful decryption does to the session map, key by key. */
  lemma OpenedLookups(c: ChatState, e: Envelope, s: RatchetState, text: Plaintext)
    ensures forall ik :: Lookup(OnOpened(c, e, s, text).sessions, Inbound(ik))
                         == if ik == e.ik then Some(s) else Lookup(c.sessions, Inbound(ik))
    ensures forall user, device :: Lookup(OnOpened(c, e, s, text).sessions, Outbound(user, device))
                                   == if e.Init? && text.Message? && text.senderId == user then None
                                      else Lookup(c.sessions, Outbound(user, device))
  {
  }

  lemma OpenedRest(c: ChatState, e: Envelope, s: RatchetState, text: Plaintext)
    ensures var d := OnOpened(c, e, s, text);
            && d.user == c.user && d.keys == c.keys && d.lastSeq == c.lastSeq
            && d.history == c.history + [Opened(e.ik, text)]
            && d.contacts
               == if text.Message? && e.ik !in c.contacts then c.contacts[e.ik := text.senderId] else c.contacts
  {
  }

  /** Device dst once it has moved its cursor past the head and, if that opened, taken it in. */
  function Took(m: Mesh, dst: nat, newPriv: nat): ChatState
    requires HasHead(m, dst)
  {
    var p, got, node := Head(m, dst), HeadResult(m, dst, newPriv), m.nodes[dst];
    var d := node.(lastSeq := node.lastSeq + 1);
    if ForDevice(p, node) && got.Ok? then OnOpened(d, p.envelope, got.value.0, got.value.1) else d
  }

  lemma DeliverIs(m: Mesh, dst: nat, newPriv: nat)
    requires MeshOk(m) && HasHead(m, dst)
    ensures Step(m, Deliver(dst, newPriv)) == m.(nodes := m.nodes[dst := Took(m, dst, newPriv)])
    ensures HeadResult(m, dst, newPriv).Ok? ==> HeadResult(m, dst, newPriv).value.1 == Head(m, dst).text
    ensures Head(m, dst).text.Message?
          ==> ContactsOk(m.nodes, map[Head(m, dst).envelope.ik := Head(m, dst).text.senderId])
  {
    hide DecryptInbound, HonestKeys, OnOpened;
    var node, p := m.nodes[dst], Head(m, dst);
    assert PostOk(m.nodes, p);
    InboundText(node.keys, Lookup(node.sessions, Inbound(p.envelope.ik)), p.envelope, newPriv);
  }

  lemma DeliverTakes(m: Mesh, dst: nat, newPriv: nat)
    requires MeshOk(m) && HasHead(m, dst)
    ensures TookStep(m, Step(m, Deliver(dst, newPriv)), dst, newPriv)
  {
    var node, p, got := m.nodes[dst], Head(m, dst), HeadResult(m, dst, newPriv);
    DeliverIs(m, dst, newPriv);
    assert ContactsOk(m.nodes, node.contacts);
    hide Step, MeshOk, HeadResult, Head, OnOpened, Lookup;
    if got.Ok? {
      var (s, text) := got.value;
      OpenedLookups(node.(lastSeq := node.lastSeq + 1), p.envelope, s, text);
      OpenedRest(node.(lastSeq := node.lastSeq + 1), p.envelope, s, text);
    }
  }

  lemma TookKeepsMesh(m: Mesh, m': Mesh, dst: nat, newPriv: nat)
    requires MeshOk(m) && HasHead(m, dst)
    requires TookStep(m, m', dst, newPriv)
    ensures MeshOk(m') && SameDevices(m, m')
  {
    hide PostOk, ContactsOk, DevicesOk, HeadResult;
    SameDevicesKeep(m, m');
    assert forall u: nat :: m'.Log(u) == m.Log(u);
  }

  lemma QueueHead(log: seq<Post>, k: nat, from: nat, device: nat)
    requires k < |log|
    ensures Queue(log[k..], from, device)
            == (if Between(log[k], from, device) then [log[k]] else []) + Queue(log[k + 1..], from, device)
  {
    assert log[k..][1..] == log[k + 1..];
  }

  /** With the named one-time prekey kept, decrypting is as with all of them. */
  lemma KeptIsFull(keys: DeviceKeys, full: DeviceKeys, session: Option<RatchetState>, e: Envelope, newPriv: nat)
    requires keys.oneTimePrekeys <= full.oneTimePrekeys && full == keys.(oneTimePrekeys := full.oneTimePrekeys)
    requires Kept(keys, e)
    ensures DecryptInbound(keys, session, e, newPriv) == DecryptInbound(full, session, e, newPriv)
  {
    hide Decrypt;
    if e.Init? && e.opkId.Some? {
      var rest := full.oneTimePrekeys[|keys.oneTimePrekeys|..];
      assert full.oneTimePrekeys == keys.oneTimePrekeys + rest;
      FindStable(keys.oneTimePrekeys, rest, e.opkId.value);
    }
  }

  /** An init that would open with all one-time prekeys does not open while the named one is not kept. */
  lemma NotKeptFails(keys: DeviceKeys, full: DeviceKeys, session: Option<RatchetState>, e: Envelope,
                     view: Option<View>, newPriv: nat)
    requires full == keys.(oneTimePrekeys := full.oneTimePrekeys) && Fits(full, view, e) && !Kept(keys, e)
    ensures DecryptInbound(keys, session, e, newPriv).Err?
  {
    var short, long := Receive(keys, e.ik, e.ek, e.opkId), Receive(full, e.ik, e.ek, e.opkId);
    assert |short.inputs| != |long.inputs|;
  }

  /** A frame that the pair is in step for opens, with the text that was sent, if its prekey is kept. */
  lemma HeadOpens(m: Mesh, from: nat, to: nat, since: nat, newPriv: nat)
    requires MeshOk(m) && InStep(m, from, to, since)
    requires since <= m.nodes[to].lastSeq < |m.Log(m.nodes[to].user)|
    requires Between(Head(m, to), from, Device(m.nodes[to])) && Kept(m.nodes[to].keys, Head(m, to).envelope)
    ensures HeadResult(m, to, newPriv).Ok?
    ensures Ready(FullKeys(m, to), ReceiverView(Some(HeadResult(m, to, newPriv).value.0)),
                  Pending(m, from, to, m.nodes[to].lastSeq + 1), SenderView(Sending(m, from, to)))
  {
    hide Fits, NextView, ReceiverView, DecryptInbound, Kept;
    var log, k := m.Log(m.nodes[to].user), m.nodes[to].lastSeq;
    QueueHead(log, k, from, Device(m.nodes[to]));
    var rest := Queue(log[k + 1..], from, Device(m.nodes[to]));
    assert Pending(m, from, to, since)[1..] == rest;
    assert PostOk(m.nodes, Head(m, to));
    FrameOpens(FullKeys(m, to), Receiving(m, from, to), Head(m, to).envelope, newPriv);
    KeptIsFull(m.nodes[to].keys, FullKeys(m, to), Receiving(m, from, to), Head(m, to).envelope, newPriv);
  }

  lemma TookOthers(m: Mesh, m': Mesh, dst: nat, newPriv: nat, from: nat, to: nat)
    requires MeshOk(m) && HasHead(m, dst)
    requires TookStep(m, m', dst, newPriv) && from < |m.nodes| && to < |m.nodes|
    ensures Sending(m', from, to) == Sending(m, from, to) || Sending(m', from, to) == None
    ensures to != dst || !Between(Head(m, dst), from, Device(m.nodes[dst])) ==>
              Receiving(m', from, to) == Receiving(m, from, to)
    ensures to == dst && Between(Head(m, dst), from, Device(m.nodes[dst])) && HeadResult(m, dst, newPriv).Ok? ==>
              Receiving(m', from, to) == Some(HeadResult(m, dst, newPriv).value.0)
  {
    hide HeadResult, HonestKeys, ContactsOk;
    assert PostOk(m.nodes, Head(m, dst));
  }

  lemma TookKeepsPair(m: Mesh, m': Mesh, dst: nat, newPriv: nat, from: nat, to: nat, since: nat)
    requires MeshOk(m) && HasHead(m, dst)
    requires TookStep(m, m', dst, newPriv) && InStep(m, from, to, since)
    requires to == dst && since <= m.nodes[to].lastSeq && Between(Head(m, to), from, Device(m.nodes[to])) ==>
               Kept(m.nodes[to].keys, Head(m, to).envelope)
    ensures InStep(m', from, to, since)
  {
    hide Kept, HeadResult, HonestKeys, ContactsOk, DevicesOk, PostOk, Ready, ReceiverView, SenderView, Queue, Sending,
         Receiving;
    TookOthers(m, m', dst, newPriv, from, to);
    var keys, log, k := FullKeys(m, to), m.Log(m.nodes[to].user), m.nodes[to].lastSeq;
    var queue, sender := Pending(m', from, to, since), SenderView(Sending(m, from, to));
    if to == dst && k >= since {
      QueueHead(log, k, from, Device(m.nodes[to]));
      if Between(log[k], from, Device(m.nodes[to])) {
        HeadOpens(m, from, to, since, newPriv);
      } else {
        assert [] + Queue(log[k + 1..], from, Device(m.nodes[to])) == Queue(log[k + 1..], from, Device(m.nodes[to]));
      }
    } else if to == dst && k + 1 == since {
      ReadyFromAny(keys, Standing(m', from, to, since), queue, sender);
    }
    assert Ready(keys, Standing(m', from, to, since), queue, sender);
    ReadyDrop(keys, Standing(m', from, to, since), queue, sender);
    NoSender();
  }

  lemma NoSender()
    ensures SenderView(None) == None
  {
  }

  // ---------------------------------------------------------------- acks, prekeys, resets

  /** One device changed, in no way that its frames depend on except more prekeys and fewer outbound sessions. */
  ghost predicate QuietStep(m: Mesh, m': Mesh, dev: nat, more: seq<OneTimePrivate>) {
    && dev < |m.nodes| && m'.logs == m.logs && |m'.nodes| == |m.nodes|
    && dev < |m.minted| && m'.minted == m.minted[dev := m.minted[dev] + more]
    && (forall i :: 0 <= i < |m.nodes| && i != dev ==> m'.nodes[i] == m.nodes[i])
    && m'.nodes[dev].user == m.nodes[dev].user && m'.nodes[dev].lastSeq == m.nodes[dev].lastSeq
    && m'.nodes[dev].contacts == m.nodes[dev].contacts && m'.nodes[dev].history == m.nodes[dev].history
    && m'.nodes[dev].keys == m.nodes[dev].keys.(oneTimePrekeys := m'.nodes[dev].keys.oneTimePrekeys)
    && m'.nodes[dev].keys.oneTimePrekeys <= m'.minted[dev]
    && (forall k :: k in m'.nodes[dev].sessions ==>
          k in m.nodes[dev].sessions && m'.nodes[dev].sessions[k] == m.nodes[dev].sessions[k])
  }

  function MorePrekeys(a: Action): seq<OneTimePrivate> {
    if a.Mint? then a.more else []
  }

  lemma QuietIs(m: Mesh, a: Action)
    requires MeshOk(m) && Enabled(m, a) && (a.Ack? || a.Mint? || a.Keep? || a.Reset?)
    ensures QuietStep(m, Step(m, a), a.dev, MorePrekeys(a))
    ensures !a.Reset? ==> Step(m, a).nodes[a.dev].sessions == m.nodes[a.dev].sessions
  {
    hide DevicesOk, ContactsOk, PostOk;
    assert m.minted[a.dev] + [] == m.minted[a.dev];
  }

  lemma QuietKeepsMesh(m: Mesh, m': Mesh, dev: nat, more: seq<OneTimePrivate>)
    requires MeshOk(m) && QuietStep(m, m', dev, more)
    ensures MeshOk(m') && SameDevices(m, m')
  {
    hide PostOk, ContactsOk, DevicesOk;
    SameDevicesKeep(m, m');
    assert forall u: nat :: m'.Log(u) == m.Log(u);
  }

  lemma QuietKeepsPair(m: Mesh, m': Mesh, dev: nat, more: seq<OneTimePrivate>, from: nat, to: nat, since: nat)
    requires MeshOk(m) && QuietStep(m, m', dev, more) && InStep(m, from, to, since)
    requires Receiving(m', from, to) == Receiving(m, from, to)
    ensures InStep(m', from, to, since)
  {
    hide HonestKeys, ContactsOk, DevicesOk, PostOk, Ready, ReceiverView, SenderView, Queue, Receiving;
    var keys, standing := FullKeys(m, to), Standing(m, from, to, since);
    var queue, sender := Pending(m, from, to, since), SenderView(Sending(m, from, to));
    assert Sending(m', from, to) == Sending(m, from, to) || Sending(m', from, to) == None;
    if to == dev {
      ReadyMoreKeys(keys, more, standing, queue, sender);
    }
    assert Ready(FullKeys(m', to), standing, queue, sender);
    ReadyDrop(FullKeys(m', to), standing, queue, sender);
    NoSender();
  }

  lemma ResetSpares(m: Mesh, a: Action, from: nat)
    requires MeshOk(m) && Enabled(m, a) && a.Reset? && from < |m.nodes| && a.contact != m.nodes[from].user
    ensures Receiving(Step(m, a), from, a.dev) == Receiving(m, from, a.dev)
  {
    assert ContactsOk(m.nodes, m.nodes[a.dev].contacts);
  }

  // ---------------------------------------------------------------- every run

  /** The action makes `to` process a frame of `from` at log index `since` or later. */
  predicate TakesFrom(m: Mesh, a: Action, from: nat, to: nat, since: nat) {
    a.Deliver? && a.dst == to && HasHead(m, to) && since <= m.nodes[to].lastSeq
    && Between(Head(m, to), from, Device(m.nodes[to]))
  }

  /**
   Two things can put a pair out of step: the receiver resets its contact with the sender, or it
   processes an init of the sender, at `since` or later, while it does not hold the named prekey.
   */
  predicate Spares(m: Mesh, a: Action, from: nat, to: nat, since: nat)
    requires from < |m.nodes|
  {
    && (a.Reset? && a.dev == to ==> a.contact != m.nodes[from].user)
    && (TakesFrom(m, a, from, to, since) ==> Kept(m.nodes[to].keys, Head(m, to).envelope))
  }

  lemma NoStepKeeps(m: Mesh, m': Mesh)
    requires NoStep(m, m')
    ensures MeshOk(m) ==> MeshOk(m') && SameDevices(m, m')
    ensures forall from, to, since :: InStep(m, from, to, since) ==> InStep(m', from, to, since)
  {
    hide PostOk, ContactsOk, DevicesOk, Ready, Queue;
  }

  lemma StepKeepsMesh(m: Mesh, a: Action)
    requires MeshOk(m)
    ensures MeshOk(Step(m, a)) && SameDevices(m, Step(m, a))
  {
    hide MeshOk, SentStep, TookStep, QuietStep, SameDevices;
    if !Enabled(m, a) {
      NoStepKeeps(m, m);
    } else if a.Send? {
      var sent, p, s := SendIs(m, a);
      if sent {
        SentKeepsMesh(m, Step(m, a), a.src, a.dst, p, s);
      } else {
        NoStepKeeps(m, Step(m, a));
      }
    } else if a.Deliver? {
      if HasHead(m, a.dst) {
        DeliverTakes(m, a.dst, a.newPriv);
        TookKeepsMesh(m, Step(m, a), a.dst, a.newPriv);
      } else {
        NoStepKeeps(m, m);
      }
    } else {
      QuietIs(m, a);
      QuietKeepsMesh(m, Step(m, a), a.dev, MorePrekeys(a));
    }
  }

  lemma StepKeepsPair(m: Mesh, a: Action, from: nat, to: nat, since: nat)
    requires MeshOk(m) && InStep(m, from, to, since) && Spares(m, a, from, to, since)
    ensures InStep(Step(m, a), from, to, since)
  {
    hide MeshOk, SentStep, TookStep, QuietStep;
    if !Enabled(m, a) {
    } else if a.Send? {
      var sent, p, s := SendIs(m, a);
      if sent {
        SentKeepsPair(m, Step(m, a), a.src, a.dst, p, s, from, to, since);
      } else {
        NoStepKeeps(m, Step(m, a));
      }
    } else if a.Deliver? {
      if HasHead(m, a.dst) {
        DeliverTakes(m, a.dst, a.newPriv);
        TookKeepsPair(m, Step(m, a), a.dst, a.newPriv, from, to, since);
      }
    } else {
      QuietIs(m, a);
      if a.Reset? && a.dev == to {
        ResetSpares(m, a, from);
      }
      QuietKeepsPair(m, Step(m, a), a.dev, MorePrekeys(a), from, to, since);
    }
  }

  function Run(m: Mesh, actions: seq<Action>): Mesh {
    if actions == [] then m else Step(Run(m, actions[..|actions| - 1]), actions[|actions| - 1])
  }

  /** No action of the run puts the pair out of step. */
  predicate RunSpares(m: Mesh, actions: seq<Action>, from: nat, to: nat, since: nat) {
    actions != [] ==>
      var before := Run(m, actions[..|actions| - 1]);
      && RunSpares(m, actions[..|actions| - 1], from, to, since)
      && from < |before.nodes| && Spares(before, actions[|actions| - 1], from, to, since)
  }

  lemma {:induction false} RunKeepsMesh(m: Mesh, actions: seq<Action>)
    requires MeshOk(m)
    ensures MeshOk(Run(m, actions)) && SameDevices(m, Run(m, actions))
  {
    hide MeshOk, Step;
    if actions != [] {
      RunKeepsMesh(m, actions[..|actions| - 1]);
      StepKeepsMesh(Run(m, actions[..|actions| - 1]), actions[|actions| - 1]);
    }
  }

  lemma {:induction false} RunKeepsPair(m: Mesh, actions: seq<Action>, from: nat, to: nat, since: nat)
    requires MeshOk(m) && InStep(m, from, to, since) && RunSpares(m, actions, from, to, since)
    ensures InStep(Run(m, actions), from, to, since)
  {
    hide MeshOk, Step, InStep;
    if actions != [] {
      var before := Run(m, actions[..|actions| - 1]);
      RunKeepsMesh(m, actions[..|actions| - 1]);
      RunKeepsPair(m, actions[..|actions| - 1], from, to, since);
      StepKeepsPair(before, actions[|actions| - 1], from, to, since);
    }
  }

  // ---------------------------------------------------------------- every envelope opens

  /** What a device should have shown: every frame addressed to it, in log order. */
  function ShouldShow(log: seq<Post>, c: ChatState): seq<Opened> {
    if log == [] then []
    else ShouldShow(log[..|log| - 1], c)
         + if ForDevice(log[|log| - 1], c) then [Opened(log[|log| - 1].envelope.ik, log[|log| - 1].text)] else []
  }

  ghost predicate Fresh(m: Mesh) {
    && MeshOk(m) && m.logs == map[]
    && forall i :: 0 <= i < |m.nodes| ==> m.nodes[i].sessions == map[] && m.nodes[i].history == []
  }

  ghost predicate ShowsAll(m: Mesh, d: nat) {
    && d < |m.nodes| && m.nodes[d].lastSeq <= |m.Log(m.nodes[d].user)|
    && m.nodes[d].history == ShouldShow(m.Log(m.nodes[d].user)[..m.nodes[d].lastSeq], m.nodes[d])
  }

  lemma {:induction false} ShouldShowSame(log: seq<Post>, c: ChatState, c': ChatState)
    requires SameDevice(c, c')
    ensures ShouldShow(log, c) == ShouldShow(log, c')
  {
    if log != [] {
      ShouldShowSame(log[..|log| - 1], c, c');
    }
  }

  /** The device has shown less than it should have, which it can never make up for. */
  ghost predicate Behind(m: Mesh, d: nat) {
    && d < |m.nodes| && m.nodes[d].lastSeq <= |m.Log(m.nodes[d].user)|
    && |m.nodes[d].history| < |ShouldShow(m.Log(m.nodes[d].user)[..m.nodes[d].lastSeq], m.nodes[d])|
  }

  /** If the action makes the device process a frame addressed to it, it holds the prekey the frame names. */
  predicate KeptStep(m: Mesh, a: Action, d: nat) {
    a.Deliver? && a.dst == d && HasHead(m, d) && ForDevice(Head(m, d), m.nodes[d]) ==>
      Kept(m.nodes[d].keys, Head(m, d).envelope)
  }

  predicate AllKept(m: Mesh, actions: seq<Action>, d: nat) {
    actions != [] ==>
      AllKept(m, actions[..|actions| - 1], d) && KeptStep(Run(m, actions[..|actions| - 1]), actions[|actions| - 1], d)
  }

  /** One more processed frame, in what is shown and in what should be. */
  lemma TookHistory(m: Mesh, d: nat, newPriv: nat)
    requires MeshOk(m) && HasHead(m, d)
    ensures var m', p, node := Step(m, Deliver(d, newPriv)), Head(m, d), m.nodes[d];
            var log, k, shown := m.Log(node.user), node.lastSeq, [Opened(p.envelope.ik, p.text)];
            && d < |m'.nodes| && m'.nodes[d].lastSeq == k + 1 <= |m'.Log(m'.nodes[d].user)|
            && m'.nodes[d].history
               == node.history + (if ForDevice(p, node) && HeadResult(m, d, newPriv).Ok? then shown else [])
            && ShouldShow(m'.Log(m'.nodes[d].user)[..k + 1], m'.nodes[d])
               == ShouldShow(log[..k], node) + (if ForDevice(p, node) then shown else [])
  {
    hide HeadResult, MeshOk, Step, ContactsOk;
    var m', log, k := Step(m, Deliver(d, newPriv)), m.Log(m.nodes[d].user), m.nodes[d].lastSeq;
    DeliverTakes(m, d, newPriv);
    assert log[..k + 1][..k] == log[..k];
    ShouldShowSame(log[..k], m.nodes[d], m'.nodes[d]);
  }

  lemma TookShows(m: Mesh, dst: nat, newPriv: nat)
    requires MeshOk(m) && HasHead(m, dst) && ShowsAll(m, dst)
    requires forall from :: 0 <= from < |m.nodes| ==> InStep(m, from, dst, 0)
    ensures KeptStep(m, Deliver(dst, newPriv), dst) ==> ShowsAll(Step(m, Deliver(dst, newPriv)), dst)
    ensures !KeptStep(m, Deliver(dst, newPriv), dst) ==> Behind(Step(m, Deliver(dst, newPriv)), dst)
  {
    var p := Head(m, dst);
    assert PostOk(m.nodes, p);
    hide InStep, HeadResult, MeshOk, Kept, Step, ShouldShow, PostOk;
    TookHistory(m, dst, newPriv);
    if ForDevice(p, m.nodes[dst]) {
      if Kept(m.nodes[dst].keys, p.envelope) {
        HeadOpens(m, p.from, dst, 0, newPriv);
      } else {
        HeadFails(m, p.from, dst, newPriv);
      }
    }
  }

  lemma HeadFails(m: Mesh, from: nat, to: nat, newPriv: nat)
    requires MeshOk(m) && InStep(m, from, to, 0) && HasHead(m, to)
    requires Between(Head(m, to), from, Device(m.nodes[to])) && !Kept(m.nodes[to].keys, Head(m, to).envelope)
    ensures HeadResult(m, to, newPriv).Err?
  {
    hide Fits, NextView, ReceiverView, DecryptInbound, Kept;
    var log, k := m.Log(m.nodes[to].user), m.nodes[to].lastSeq;
    QueueHead(log, k, from, Device(m.nodes[to]));
    assert Pending(m, from, to, 0)[0] == Head(m, to);
    NotKeptFails(m.nodes[to].keys, FullKeys(m, to), Lookup(m.nodes[to].sessions, Inbound(Head(m, to).envelope.ik)),
                 Head(m, to).envelope, Standing(m, from, to, 0), newPriv);
  }

  /** What a device has shown, and should have, is untouched by everything but its own deliveries. */
  lemma OthersShow(m: Mesh, a: Action, d: nat)
    requires MeshOk(m) && d < |m.nodes| && !(a.Deliver? && a.dst == d && HasHead(m, d))
    ensures var m', log, k := Step(m, a), m.Log(m.nodes[d].user), m.nodes[d].lastSeq;
            && d < |m'.nodes| && m'.nodes[d].history == m.nodes[d].history && m'.nodes[d].lastSeq == k
            && k <= |m'.Log(m'.nodes[d].user)|
            && ShouldShow(m'.Log(m'.nodes[d].user)[..k], m'.nodes[d]) == ShouldShow(log[..k], m.nodes[d])
  {
    hide MeshOk, SentStep, InStep, ShouldShow;
    var log, k := m.Log(m.nodes[d].user), m.nodes[d].lastSeq;
    CursorOk(m, d);
    if !Enabled(m, a) {
    } else if a.Send? {
      var sent, p, s := SendIs(m, a);
      if sent {
        SentShows(m, Step(m, a), a.src, a.dst, p, s, d);
      }
    } else if a.Deliver? {
      if HasHead(m, a.dst) {
        DeliverTakes(m, a.dst, a.newPriv);
      }
    } else {
      QuietIs(m, a);
      ShouldShowSame(log[..k], m.nodes[d], Step(m, a).nodes[d]);
    }
  }

  lemma CursorOk(m: Mesh, d: nat)
    requires MeshOk(m) && d < |m.nodes|
    ensures m.nodes[d].lastSeq <= |m.Log(m.nodes[d].user)|
  {
  }

  lemma SentShows(m: Mesh, m': Mesh, src: nat, dst: nat, p: Post, s: RatchetState, d: nat)
    requires SentStep(m, m', src, dst, p, s) && d < |m.nodes| && m.nodes[d].lastSeq <= |m.Log(m.nodes[d].user)|
    ensures d < |m'.nodes| && m'.nodes[d].history == m.nodes[d].history && m'.nodes[d].lastSeq == m.nodes[d].lastSeq
    ensures m.nodes[d].lastSeq <= |m'.Log(m'.nodes[d].user)|
    ensures ShouldShow(m'.Log(m'.nodes[d].user)[..m.nodes[d].lastSeq], m'.nodes[d])
         == ShouldShow(m.Log(m.nodes[d].user)[..m.nodes[d].lastSeq], m.nodes[d])
  {
    hide Fits, NextView, SenderView, PostOk, Sending;
    var log, k := m.Log(m.nodes[d].user), m.nodes[d].lastSeq;
    assert m'.Log(m.nodes[d].user)[..k] == log[..k];
    ShouldShowSame(log[..k], m.nodes[d], m'.nodes[d]);
  }

  lemma StepShows(m: Mesh, a: Action, d: nat)
    requires MeshOk(m) && ShowsAll(m, d)
    requires forall from :: 0 <= from < |m.nodes| ==> InStep(m, from, d, 0)
    ensures KeptStep(m, a, d) ==> ShowsAll(Step(m, a), d)
    ensures !KeptStep(m, a, d) ==> Behind(Step(m, a), d)
  {
    hide MeshOk, InStep, Step, Kept;
    if a.Deliver? && a.dst == d && HasHead(m, d) {
      TookShows(m, d, a.newPriv);
    } else {
      OthersShow(m, a, d);
    }
  }

  lemma TookBehind(m: Mesh, d: nat, newPriv: nat)
    requires MeshOk(m) && HasHead(m, d) && Behind(m, d)
    ensures Behind(Step(m, Deliver(d, newPriv)), d)
  {
    hide HeadResult, MeshOk, Step, ShouldShow;
    TookHistory(m, d, newPriv);
  }

  lemma StepBehind(m: Mesh, a: Action, d: nat)
    requires MeshOk(m) && Behind(m, d)
    ensures Behind(Step(m, a), d)
  {
    hide MeshOk, Step;
    if a.Deliver? && a.dst == d && HasHead(m, d) {
      TookBehind(m, d, a.newPriv);
    } else {
      OthersShow(m, a, d);
    }
  }

  lemma {:induction false} KeptSpares(m: Mesh, actions: seq<Action>, from: nat, d: nat)
    requires MeshOk(m) && from < |m.nodes| && d < |m.nodes| && AllKept(m, actions, d)
    requires forall i :: 0 <= i < |actions| ==> !actions[i].Reset?
    ensures RunSpares(m, actions, from, d, 0)
  {
    hide MeshOk, Step, Kept;
    if actions != [] {
      KeptSpares(m, actions[..|actions| - 1], from, d);
      RunKeepsMesh(m, actions[..|actions| - 1]);
    }
  }

  /**
   From a mesh without sessions, over every run of sends, crossing inits, deliveries, acks and new
   prekeys without a reset: a device shows exactly the frames addressed to it, in order, each with the
   text that was sent, if and only if it held the one-time prekey of each init when it processed it.
   Otherwise it stays behind for good.
   */
  lemma {:induction false} EveryEnvelopeOpens(m: Mesh, actions: seq<Action>, d: nat)
    requires Fresh(m) && d < |m.nodes| && forall i :: 0 <= i < |actions| ==> !actions[i].Reset?
    ensures AllKept(m, actions, d) ==> ShowsAll(Run(m, actions), d)
    ensures !AllKept(m, actions, d) ==> Behind(Run(m, actions), d)
    ensures ShowsAll(Run(m, actions), d) <==> AllKept(m, actions, d)
  {
    hide MeshOk, Step, InStep, ShowsAll, Behind, KeptStep;
    if actions == [] {
      FreshShows(m, d);
    } else {
      var front := actions[..|actions| - 1];
      var before := Run(m, front);
      EveryEnvelopeOpens(m, front, d);
      RunKeepsMesh(m, front);
      if AllKept(m, front, d) {
        forall from | 0 <= from < |before.nodes| ensures InStep(before, from, d, 0) {
          FreshInStep(m, from, d);
          KeptSpares(m, front, from, d);
          RunKeepsPair(m, front, from, d, 0);
        }
        StepShows(before, actions[|actions| - 1], d);
      } else {
        StepBehind(before, actions[|actions| - 1], d);
      }
    }
    NotBoth(Run(m, actions), d);
  }

  lemma NotBoth(m: Mesh, d: nat)
    ensures !(ShowsAll(m, d) && Behind(m, d))
  {
  }

  lemma FreshShows(m: Mesh, d: nat)
    requires Fresh(m) && d < |m.nodes|
    ensures ShowsAll(m, d)
  {
    assert m.Log(m.nodes[d].user) == [];
  }

  lemma FreshInStep(m: Mesh, from: nat, to: nat)
    requires Fresh(m) && from < |m.nodes| && to < |m.nodes|
    ensures InStep(m, from, to, 0)
  {
    assert m.Log(m.nodes[to].user) == [];
  }
}
