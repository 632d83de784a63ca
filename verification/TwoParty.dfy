/**
 Two ratchet parties and a network that may reorder, lose and repeat messages.

 A run is any sequence of actions. `Deliver(k)` hands the k-th message ever sent to its
 addressee, so loss is an index never delivered and repetition an index delivered again.
 An `Err` from the ratchet leaves the world as it was, as it leaves the caller's state.
 */
module TwoParty {
  import opened Crypto
  import opened Ratchet
  import opened RatchetHistory

  datatype Party = Alice | Bob {
    function Other(): Party {
      if Alice? then Bob else Alice
    }
  }

  /** One message on the network; `text` is what its sender passed to ratchetEncrypt. */
  datatype Wire = Wire(from: Party, text: Plaintext, packet: Packet)

  /** One successful decryption: to whom, of which message, and what came out. */
  datatype Receipt = Receipt(to: Party, k: nat, text: Plaintext)

  datatype World = World(alice: RatchetState, bob: RatchetState, net: seq<Wire>, out: seq<Receipt>, nextKey: nat) {
    function State(who: Party): RatchetState {
      if who.Alice? then alice else bob
    }

    function With(who: Party, s: RatchetState): World {
      if who.Alice? then this.(alice := s) else this.(bob := s)
    }
  }

  datatype Action = Send(who: Party, text: Plaintext, nonce: nat) | Deliver(k: nat)

  /** The two states that X3DH leaves behind (module Messaging connects it). */
  function Start(master: RootKey, ek: nat, spk: nat, nextKey: nat): World {
    World(InitSender(master, GenerateKeyPair(ek), PublicKey(spk)), InitReceiver(master, GenerateKeyPair(spk)),
          [], [], nextKey)
  }

  /** What X3DH guarantees: distinct ephemeral and signed prekeys, and later draws are different from both. */
  ghost predicate StartOk(master: RootKey, ek: nat, spk: nat, nextKey: nat) {
    master.Master? && ek != spk && ek < nextKey && spk < nextKey
  }

  function Step(w: World, a: Action): World {
    match a
    case Send(who, text, nonce) =>
      (match Encrypt(w.State(who), text, nonce)
       case Err(_) => w
       case Ok((s, packet)) => w.With(who, s).(net := w.net + [Wire(who, text, packet)]))
    case Deliver(k) =>
      if k >= |w.net| then w else
      var to := w.net[k].from.Other();
      match Decrypt(w.State(to), w.net[k].packet, w.nextKey)
      case Err(_) => w
      case Ok((s, text)) =>
        // A private key drawn by a call that fails is never used, so only a kept one takes a number.
        var nextKey := if s.DHs == w.State(to).DHs then w.nextKey else w.nextKey + 1;
        w.With(to, s).(out := w.out + [Receipt(to, k, text)], nextKey := nextKey)
  }

  function Run(w: World, actions: seq<Action>): World {
    if actions == [] then w else Step(Run(w, actions[..|actions| - 1]), actions[|actions| - 1])
  }

  function Indices(out: seq<Receipt>): set<nat> {
    set r | r in out :: r.k
  }

  function Received(w: World): set<nat> {
    Indices(w.out)
  }

  // ---------------------------------------------------------------- the invariant

  /** Where the run is: the shared history, and the positions of the two parties. */
  datatype Shadow = Shadow(h: History, alice: nat, bob: nat) {
    function Position(who: Party): nat {
      if who.Alice? then alice else bob
    }
  }

  ghost predicate PositionsOk(sh: Shadow) {
    && sh.alice % 2 == 1 && sh.bob % 2 == 0
    && (sh.alice == sh.bob + 1 || sh.bob == sh.alice + 1)
    && |sh.h.keys| == (if sh.alice > sh.bob then sh.alice else sh.bob) + 1
  }

  ghost predicate WireOk(h: History, k: nat, wire: Wire)
    requires k < |h.places|
  {
    && Honest(h, h.places[k].chain, h.places[k].n, wire.packet, wire.text)
    && (wire.from.Alice? <==> h.places[k].chain % 2 == 1)
  }

  ghost predicate NetOk(h: History, net: seq<Wire>) {
    |net| == |h.places| && forall k :: 0 <= k < |net| ==> WireOk(h, k, net[k])
  }

  /** Every receipt is of a message sent by the other party, with its text, at most once. */
  ghost predicate ReceiptsOk(net: seq<Wire>, out: seq<Receipt>) {
    && (forall i :: 0 <= i < |out| ==>
          out[i].k < |net| && out[i].to == net[out[i].k].from.Other() && out[i].text == net[out[i].k].text)
    && (forall i, j :: 0 <= i < j < |out| ==> out[i].k != out[j].k)
  }

  ghost predicate SharedOk(w: World, sh: Shadow) {
    && DistinctKeys(sh.h) && PlacesInverse(sh.h) && PositionsOk(sh)
    && (forall x :: x in sh.h.keys ==> x < w.nextKey)
    && NetOk(sh.h, w.net) && ReceiptsOk(w.net, w.out)
  }

  ghost predicate PartyAt(w: World, sh: Shadow, who: Party) {
    PartyOk(sh.h, sh.Position(who), Received(w), w.State(who))
  }

  ghost predicate Inv(w: World, sh: Shadow) {
    SharedOk(w, sh) && PartyAt(w, sh, Alice) && PartyAt(w, sh, Bob)
  }

  lemma StartInv(master: RootKey, ek: nat, spk: nat, nextKey: nat)
    requires StartOk(master, ek, spk, nextKey)
    ensures Inv(Start(master, ek, spk, nextKey), Shadow(History(master, [spk, ek], [[], []], []), 1, 0))
  {
    var h := History(master, [spk, ek], [[], []], []);
    assert Root(master, h.keys, 0) == master;
    assert Seed(master, h.keys, 1) == ChainSeed(master, DH(ek, PublicKey(spk)));
  }

  // ---------------------------------------------------------------- sending

  function Sent(h: History, i: nat): History
    requires i < |h.chains|
  {
    h.(chains := h.chains[i := h.chains[i] + [|h.places|]], places := h.places + [Place(i, |h.chains[i]|)])
  }

  lemma SentOk(h: History, i: nat)
    requires DistinctKeys(h) && PlacesInverse(h) && 1 <= i < |h.keys|
    ensures DistinctKeys(Sent(h, i)) && PlacesInverse(Sent(h, i)) && Extends(h, Sent(h, i))
    ensures Sent(h, i).keys == h.keys
  {
  }

  /** The sender's own account after one ratchetEncrypt, and what it put on the network. */
  lemma SenderKeeps(h: History, i: nat, received: set<nat>, s: RatchetState, text: Plaintext, nonce: nat)
    requires DistinctKeys(h) && PlacesInverse(h) && 1 <= i < |h.keys| && PartyOk(h, i, received, s)
    requires forall k :: k in received ==> k < |h.places|
    ensures Encrypt(s, text, nonce).Ok?
    ensures PartyOk(Sent(h, i), i, received, Encrypt(s, text, nonce).value.0)
    ensures Honest(Sent(h, i), i, |h.chains[i]|, Encrypt(s, text, nonce).value.1, text)
  {
    var h' := Sent(h, i);
    SentOk(h, i);
    KeysStable(h, h');
    SentUndisturbed(h, i, i, received);
    CacheUndisturbed(h, h', i, s.Nr, received, received, s.skippedKeys);
    UndisturbedNothingAhead(h, h', i, s.Nr, received, received);
  }

  lemma SentUndisturbed(h: History, i: nat, at: nat, received: set<nat>)
    requires DistinctKeys(h) && PlacesInverse(h) && 1 <= i < |h.keys|
    requires forall k :: k in received ==> k < |h.places|
    requires at == i || at == i + 1 || at + 1 == i
    ensures Undisturbed(h, Sent(h, i), at, received, received)
  {
    SentOk(h, i);
  }

  lemma SentOther(h: History, i: nat, other: nat)
    requires 1 <= i < |h.chains| && other < |h.chains| && (other == i + 1 || other + 1 == i)
    ensures Sent(h, i).chains[other] == h.chains[other]
    ensures other >= 2 ==> Sent(h, i).chains[other - 2] == h.chains[other - 2]
  {
  }

  lemma SentNetOk(h: History, i: nat, net: seq<Wire>, wire: Wire)
    requires DistinctKeys(h) && PlacesInverse(h) && NetOk(h, net)
    requires 1 <= i < |h.keys| <= i + 2
    requires Honest(Sent(h, i), i, |h.chains[i]|, wire.packet, wire.text) && (wire.from.Alice? <==> i % 2 == 1)
    ensures NetOk(Sent(h, i), net + [wire])
  {
    var h' := Sent(h, i);
    KeysStable(h, h');
    forall k | 0 <= k < |net| + 1 ensures WireOk(h', k, (net + [wire])[k]) {
      if k < |net| {
        assert WireOk(h, k, net[k]);
      }
    }
  }

  lemma SendKeeps(w: World, sh: Shadow, who: Party, text: Plaintext, nonce: nat)
    requires Inv(w, sh) && sh.Position(who) >= 1
    ensures Inv(Step(w, Send(who, text, nonce)), sh.(h := Sent(sh.h, sh.Position(who))))
  {
    hide PartyOk, Sent;
    var h, i, s, received := sh.h, sh.Position(who), w.State(who), Received(w);
    var other := sh.Position(who.Other());
    assert PartyAt(w, sh, who) && PartyAt(w, sh, who.Other());
    SentOk(h, i);
    SenderKeeps(h, i, received, s, text, nonce);
    SentUndisturbed(h, i, other, received);
    SentOther(h, i, other);
    PartyUndisturbed(h, Sent(h, i), other, received, received, w.State(who.Other()));
    var wire := Wire(who, text, Encrypt(s, text, nonce).value.1);
    SentNetOk(h, i, w.net, wire);
    var w' := Step(w, Send(who, text, nonce));
    assert w' == w.With(who, Encrypt(s, text, nonce).value.0).(net := w.net + [wire]);
  }

  // ---------------------------------------------------------------- delivering

  /** Delivering a message that another position receives disturbs nothing. */
  lemma DeliveredUndisturbed(h: History, h': History, at: nat, received: set<nat>, k: nat)
    requires DistinctKeys(h) && PlacesInverse(h) && k < |h.places|
    requires h' == h || (exists x :: x !in h.keys && h' == Turned(h, x))
    requires !Receives(at, h.places[k].chain)
    ensures Undisturbed(h, h', at, received, received + {k})
  {
  }

  lemma TurnedNetOk(h: History, newPriv: nat, net: seq<Wire>)
    requires DistinctKeys(h) && PlacesInverse(h) && newPriv !in h.keys && NetOk(h, net)
    ensures NetOk(Turned(h, newPriv), net)
  {
    KeysStable(h, Turned(h, newPriv));
    forall k | 0 <= k < |net| ensures WireOk(Turned(h, newPriv), k, net[k]) {
      assert WireOk(h, k, net[k]);
    }
  }

  lemma ReceiptAdded(net: seq<Wire>, out: seq<Receipt>, k: nat)
    requires ReceiptsOk(net, out) && k < |net| && k !in Indices(out)
    ensures var out' := out + [Receipt(net[k].from.Other(), k, net[k].text)];
            ReceiptsOk(net, out') && Indices(out') == Indices(out) + {k}
  {
    var receipt := Receipt(net[k].from.Other(), k, net[k].text);
    var out' := out + [receipt];
    assert forall i :: 0 <= i < |out| ==> out[i] in out;
    assert out'[|out|] in out';
    forall m | m in Indices(out) ensures m in Indices(out') {
      var q :| q in out && q.k == m;
      assert q in out';
    }
  }

  /** The shadow after a successful delivery of a message of chain c. */
  function Moved(sh: Shadow, to: Party, c: nat, newPriv: nat): Shadow {
    var h := After(sh.h, sh.Position(to), c, newPriv);
    var i := PositionAfter(sh.Position(to), c);
    if to.Alice? then Shadow(h, i, sh.bob) else Shadow(h, sh.alice, i)
  }

  /** A message sits on a chain its addressee receives, at most one past its position. */
  lemma Addressed(w: World, sh: Shadow, k: nat)
    requires Inv(w, sh) && k < |w.net|
    ensures k < |sh.h.places| && sh.h.places[k].chain < |sh.h.keys|
    ensures Receives(sh.Position(w.net[k].from.Other()), sh.h.places[k].chain)
    ensures sh.h.places[k].chain <= sh.Position(w.net[k].from.Other()) + 1
  {
    hide PartyOk;
    assert WireOk(sh.h, k, w.net[k]);
  }

  /** A delivery succeeds exactly once, and exactly within the limit, and yields the text that was sent. */
  lemma Delivers(w: World, sh: Shadow, k: nat)
    requires Inv(w, sh) && k < |w.net|
    ensures var to := w.net[k].from.Other();
            var r := Decrypt(w.State(to), w.net[k].packet, w.nextKey);
            var c := sh.h.places[k].chain;
            && (r.Ok? <==> k !in Received(w) && WithinLimit(w.State(to), w.net[k].packet.header))
            && (r.Ok? ==> r.value.1 == w.net[k].text
                          && PartyOk(After(sh.h, sh.Position(to), c, w.nextKey), PositionAfter(sh.Position(to), c),
                                     Received(w) + {k}, r.value.0)
                          && (r.value.0.DHs == w.State(to).DHs <==> c != sh.Position(to) + 1))
  {
    hide PartyOk;
    var to := w.net[k].from.Other();
    assert PartyAt(w, sh, to);
    var place := sh.h.places[k];
    assert WireOk(sh.h, k, w.net[k]);
    DecryptHonest(sh.h, sh.Position(to), Received(w), w.State(to), place.chain, place.n,
                  w.net[k].packet, w.net[k].text, w.nextKey);
  }

  /** What the delivery means for the party that sent the message. */
  lemma SenderUndisturbed(w: World, sh: Shadow, k: nat)
    requires Inv(w, sh) && k < |w.net|
    ensures var from := w.net[k].from;
            var h' := After(sh.h, sh.Position(from.Other()), sh.h.places[k].chain, w.nextKey);
            PartyOk(h', sh.Position(from), Received(w) + {k}, w.State(from))
  {
    hide PartyOk;
    var from := w.net[k].from;
    var at := sh.Position(from);
    var h' := After(sh.h, sh.Position(from.Other()), sh.h.places[k].chain, w.nextKey);
    assert WireOk(sh.h, k, w.net[k]);
    assert PartyAt(w, sh, from);
    TurnedOk(sh.h, w.nextKey);
    DeliveredUndisturbed(sh.h, h', at, Received(w), k);
    PartyUndisturbed(sh.h, h', at, Received(w), Received(w) + {k}, w.State(from));
  }

  lemma DeliverKeeps(w: World, sh: Shadow, k: nat)
    requires Inv(w, sh) && k < |w.net|
    requires Decrypt(w.State(w.net[k].from.Other()), w.net[k].packet, w.nextKey).Ok?
    ensures Inv(Step(w, Deliver(k)), Moved(sh, w.net[k].from.Other(), sh.h.places[k].chain, w.nextKey))
  {
    hide PartyOk, DistinctKeys, PlacesInverse, NetOk, ReceiptsOk, WireOk, Decrypt;
    var to := w.net[k].from.Other();
    Addressed(w, sh, k);
    var w', sh' := Step(w, Deliver(k)), Moved(sh, to, sh.h.places[k].chain, w.nextKey);
    Delivers(w, sh, k);
    SenderUndisturbed(w, sh, k);
    ReceiptAdded(w.net, w.out, k);
    TurnedOk(sh.h, w.nextKey);
    TurnedNetOk(sh.h, w.nextKey, w.net);
    assert PartyAt(w', sh', to) && PartyAt(w', sh', to.Other());
    assert SharedOk(w', sh');
  }

  // ---------------------------------------------------------------- runs

  function Next(w: World, sh: Shadow, a: Action): Shadow
    requires a.Deliver? && a.k < |w.net| ==> a.k < |sh.h.places|
    requires a.Send? ==> sh.Position(a.who) < |sh.h.chains|
  {
    match a
    case Send(who, _, _) =>
      if sh.Position(who) >= 1 then sh.(h := Sent(sh.h, sh.Position(who))) else sh
    case Deliver(k) =>
      if k >= |w.net| then sh else
      var to := w.net[k].from.Other();
      if Decrypt(w.State(to), w.net[k].packet, w.nextKey).Err? then sh
      else Moved(sh, to, sh.h.places[k].chain, w.nextKey)
  }

  lemma StepKeeps(w: World, sh: Shadow, a: Action)
    requires Inv(w, sh)
    ensures a.Deliver? && a.k < |w.net| ==> a.k < |sh.h.places|
    ensures a.Send? ==> sh.Position(a.who) < |sh.h.chains|
    ensures Inv(Step(w, a), Next(w, sh, a))
  {
    hide Decrypt, CacheExact, NothingAhead, LastReceived, ReceiptsOk, DistinctKeys, WireOk, Sent, Moved;
    match a
    case Send(who, text, nonce) =>
      assert PartyAt(w, sh, who);
      if sh.Position(who) >= 1 {
        SendKeeps(w, sh, who, text, nonce);
      }
    case Deliver(k) =>
      if k < |w.net| && Decrypt(w.State(w.net[k].from.Other()), w.net[k].packet, w.nextKey).Ok? {
        DeliverKeeps(w, sh, k);
      }
  }

  ghost predicate Reachable(w: World) {
    exists master: RootKey, ek: nat, spk: nat, nextKey: nat, actions: seq<Action> ::
      StartOk(master, ek, spk, nextKey) && w == Run(Start(master, ek, spk, nextKey), actions)
  }

  lemma {:induction false} RunKeeps(w: World, sh: Shadow, actions: seq<Action>) returns (sh': Shadow)
    requires Inv(w, sh)
    ensures Inv(Run(w, actions), sh')
  {
    if actions == [] {
      sh' := sh;
    } else {
      var before := RunKeeps(w, sh, actions[..|actions| - 1]);
      StepKeeps(Run(w, actions[..|actions| - 1]), before, actions[|actions| - 1]);
      sh' := Next(Run(w, actions[..|actions| - 1]), before, actions[|actions| - 1]);
    }
  }

  lemma ReachableInv(w: World) returns (sh: Shadow)
    requires Reachable(w)
    ensures Inv(w, sh)
  {
    var master: RootKey, ek: nat, spk: nat, nextKey: nat, actions: seq<Action> :|
      StartOk(master, ek, spk, nextKey) && w == Run(Start(master, ek, spk, nextKey), actions);
    StartInv(master, ek, spk, nextKey);
    sh := RunKeeps(Start(master, ek, spk, nextKey), Shadow(History(master, [spk, ek], [[], []], []), 1, 0), actions);
  }

  // ---------------------------------------------------------------- what every run promises

  /** Every message ever sent decrypts exactly once and exactly within the limit, to the text that was sent. */
  lemma DeliversExactlyOnce(w: World, k: nat)
    requires Reachable(w) && k < |w.net|
    ensures var to := w.net[k].from.Other();
            var r := Decrypt(w.State(to), w.net[k].packet, w.nextKey);
            && (r.Ok? <==> k !in Received(w) && WithinLimit(w.State(to), w.net[k].packet.header))
            && (r.Ok? ==> r.value.1 == w.net[k].text)
  {
    var sh := ReachableInv(w);
    Delivers(w, sh, k);
  }

  /** The ideal channel: what each party sent, and what was handed over. */
  datatype Channel = Channel(sent: seq<(Party, Plaintext)>, out: seq<Receipt>)

  function Abstract(w: World): Channel {
    Channel(seq(|w.net|, i requires 0 <= i < |w.net| => (w.net[i].from, w.net[i].text)), w.out)
  }

  /** A channel takes a new message, hands over an old one that it has not handed over, or idles. */
  ghost predicate ChannelStep(c: Channel, c': Channel) {
    || c' == c
    || (exists who, text :: c' == c.(sent := c.sent + [(who, text)]))
    || (exists k: nat :: k < |c.sent| && k !in Indices(c.out)
          && c' == c.(out := c.out + [Receipt(c.sent[k].0.Other(), k, c.sent[k].1)]))
  }

  lemma StepReachable(w: World, a: Action)
    requires Reachable(w)
    ensures Reachable(Step(w, a))
  {
    hide Step;
    var master: RootKey, ek: nat, spk: nat, nextKey: nat, actions: seq<Action> :|
      StartOk(master, ek, spk, nextKey) && w == Run(Start(master, ek, spk, nextKey), actions);
    assert (actions + [a])[..|actions|] == actions;
    assert Step(w, a) == Run(Start(master, ek, spk, nextKey), actions + [a]);
  }

  /** The ratchet over any network refines the ideal channel, step by step. */
  lemma RefinesChannel(w: World, a: Action)
    requires Reachable(w)
    ensures ChannelStep(Abstract(w), Abstract(Step(w, a)))
  {
    hide Reachable, Decrypt, Encrypt, WithinLimit;
    if a.Send? {
      if Encrypt(w.State(a.who), a.text, a.nonce).Ok? {
        assert Abstract(Step(w, a)) == Abstract(w).(sent := Abstract(w).sent + [(a.who, a.text)]);
      }
    } else if a.k < |w.net| {
      DeliversExactlyOnce(w, a.k);
      assert Abstract(w).sent[a.k] == (w.net[a.k].from, w.net[a.k].text);
    }
  }

  /** No two ratchetEncrypt calls of a run share a message key, and (ratchet key, n) names one message. */
  lemma NoKeyReuse(w: World, k: nat, l: nat)
    requires Reachable(w) && k < l < |w.net|
    ensures w.net[k].packet.ct.key != w.net[l].packet.ct.key
    ensures (w.net[k].packet.header.dh, w.net[k].packet.header.n)
          != (w.net[l].packet.header.dh, w.net[l].packet.header.n)
  {
    var sh := ReachableInv(w);
    var h := sh.h;
    assert WireOk(h, k, w.net[k]) && WireOk(h, l, w.net[l]);
    var p, q := h.places[k], h.places[l];
    assert p != q;
    if w.net[k].packet.ct.key == w.net[l].packet.ct.key {
      KeysDistinct(h, p.chain, p.n, q.chain, q.n);
    }
    NamesDistinct(h, p.chain, p.n, q.chain, q.n);
  }
}
