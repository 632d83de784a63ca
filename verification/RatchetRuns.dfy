/**
 What every two-party run promises about keys, the skipped-key cache and order, read off
 the states and the network alone.
 */
module RatchetRuns {
  import opened Wrappers
  import opened Crypto
  import opened Ratchet
  import opened RatchetHistory
  import opened TwoParty

  // ---------------------------------------------------------------- one root chain

  predicate OneAhead(ahead: RatchetState, behind: RatchetState) {
    && ahead.RK == NextRoot(behind.RK, DH(ahead.DHs.priv, behind.DHs.pub))
    && ahead.DHr == Some(behind.DHs.pub)
  }

  /** The two parties are always one KDF_RK step apart on one root chain. */
  lemma OneRootChain(w: World)
    requires Reachable(w)
    ensures OneAhead(w.alice, w.bob) || OneAhead(w.bob, w.alice)
  {
    var sh := ReachableInv(w);
    assert PartyAt(w, sh, Alice) && PartyAt(w, sh, Bob);
  }

  /** Message n under ratchet key dh is on the network. */
  ghost predicate Carried(net: seq<Wire>, dh: Option<PublicKey>, n: nat) {
    exists l :: 0 <= l < |net| && Some(net[l].packet.header.dh) == dh && net[l].packet.header.n == n
  }

  /** What the network carries of chain c is exactly its positions 0..length. */
  lemma ChainCarried(h: History, net: seq<Wire>, c: nat, n: nat)
    requires DistinctKeys(h) && PlacesInverse(h) && NetOk(h, net) && 1 <= c < |h.keys|
    ensures Carried(net, Some(PublicKey(h.keys[c])), n) <==> n < |h.chains[c]|
  {
    if n < |h.chains[c]| {
      var l := h.chains[c][n];
      assert h.places[l] == Place(c, n) && WireOk(h, l, net[l]);
    }
    if Carried(net, Some(PublicKey(h.keys[c])), n) {
      var l :| 0 <= l < |net| && net[l].packet.header.dh == PublicKey(h.keys[c]) && net[l].packet.header.n == n;
      assert WireOk(h, l, net[l]);
      NamesDistinct(h, h.places[l].chain, n, c, n);
    }
  }

  /** The place of an undelivered message whose ratchet key the receiver neither holds nor left behind. */
  lemma NewKeyPlace(w: World, sh: Shadow, k: nat)
    requires Inv(w, sh) && k < |w.net| && k !in Received(w)
    requires var s := w.State(w.net[k].from.Other());
             var header := w.net[k].packet.header;
             s.DHr != Some(header.dh) && SkippedName(header.dh, header.n) !in s.skippedKeys
    ensures k < |sh.h.places| && sh.h.places[k].chain == sh.Position(w.net[k].from.Other()) + 1
    ensures sh.Position(w.net[k].from) == sh.h.places[k].chain
  {
    hide ReceiptsOk, CacheExact, LastReceived, Root, Seed, Advance;
    var to := w.net[k].from.Other();
    var h, i, s := sh.h, sh.Position(to), w.State(to);
    assert PartyAt(w, sh, to);
    Addressed(w, sh, k);
    assert WireOk(h, k, w.net[k]);
    var c, n := h.places[k].chain, h.places[k].n;
    PassedCached(h, i, s.Nr, Received(w), s.skippedKeys, c, n);
  }

  /**
   An undelivered message under a ratchet key the receiver neither holds nor left behind is on
   the sender's current chain, one root step ahead, and its `pn` is exactly the length of the
   receiver's current chain: no chain is missed whole.
   */
  lemma NewKeyIsSuccessor(w: World, k: nat)
    requires Reachable(w) && k < |w.net| && k !in Received(w)
    requires var s := w.State(w.net[k].from.Other());
             var header := w.net[k].packet.header;
             s.DHr != Some(header.dh) && SkippedName(header.dh, header.n) !in s.skippedKeys
    ensures var s, sender, header := w.State(w.net[k].from.Other()), w.State(w.net[k].from), w.net[k].packet.header;
            && header.dh == sender.DHs.pub && header.pn == sender.PN && OneAhead(sender, s)
            && (s.CKr.Some? ==> forall n: nat :: Carried(w.net, s.DHr, n) <==> n < header.pn)
  {
    hide PartyOk, ReceiptsOk, DistinctKeys, PlacesInverse, WireOk;
    var sh := ReachableInv(w);
    NewKeyPlace(w, sh, k);
    NewKeyHeader(w, sh, k);
    NewKeyLength(w, sh, k);
  }

  lemma NewKeyHeader(w: World, sh: Shadow, k: nat)
    requires Inv(w, sh) && k < |w.net| && k < |sh.h.places|
    requires sh.h.places[k].chain == sh.Position(w.net[k].from.Other()) + 1 == sh.Position(w.net[k].from)
    ensures var s, sender, header := w.State(w.net[k].from.Other()), w.State(w.net[k].from), w.net[k].packet.header;
            header.dh == sender.DHs.pub && header.pn == sender.PN && OneAhead(sender, s)
  {
    hide CacheExact, NothingAhead, LastReceived, ReceiptsOk, PlacesInverse;
    assert PartyAt(w, sh, w.net[k].from) && PartyAt(w, sh, w.net[k].from.Other());
    assert WireOk(sh.h, k, w.net[k]);
  }

  lemma NewKeyLength(w: World, sh: Shadow, k: nat)
    requires Inv(w, sh) && k < |w.net| && k < |sh.h.places|
    requires sh.h.places[k].chain == sh.Position(w.net[k].from.Other()) + 1
    ensures var s, header := w.State(w.net[k].from.Other()), w.net[k].packet.header;
            s.CKr.Some? ==> forall n: nat :: Carried(w.net, s.DHr, n) <==> n < header.pn
  {
    hide CacheExact, NothingAhead, LastReceived, ReceiptsOk, Carried;
    var to := w.net[k].from.Other();
    assert PartyAt(w, sh, to);
    assert WireOk(sh.h, k, w.net[k]);
    if w.State(to).CKr.Some? {
      forall n: nat ensures Carried(w.net, w.State(to).DHr, n) <==> n < w.net[k].packet.header.pn {
        ChainCarried(sh.h, w.net, sh.Position(to) - 1, n);
      }
    }
  }

  // ---------------------------------------------------------------- the limit

  /** The gap that a decrypt of an uncached message finds too large, the old chain first. */
  function ExcessGap(s: RatchetState, header: Header): Option<int> {
    if SkippedName(header.dh, header.n) in s.skippedKeys then None
    else if s.DHr == Some(header.dh) then (if header.n - s.Nr > MAX_SKIP then Some(header.n - s.Nr) else None)
    else if s.CKr.Some? && header.pn - s.Nr > MAX_SKIP then Some(header.pn - s.Nr)
    else if header.n > MAX_SKIP then Some(header.n) else None
  }

  /** A decrypt reports too many skipped messages, and how many, exactly if a gap exceeds the limit. */
  lemma LimitErrorIsExact(s: RatchetState, p: Packet, newPriv: nat)
    requires s.CKr.Some? ==> s.DHr.Some?
    ensures ExcessGap(s, p.header).None? <==> WithinLimit(s, p.header)
    ensures var r := Decrypt(s, p, newPriv);
            && (ExcessGap(s, p.header).Some? ==> r == Err(TooManySkipped(ExcessGap(s, p.header).value)))
            && (ExcessGap(s, p.header).None? ==> r.Ok? || !r.error.TooManySkipped?)
  {
  }

  // ---------------------------------------------------------------- the receiving chain

  /** Message k is under the ratchet key that the party receives on. */
  predicate OnCurrentChain(w: World, to: Party, k: nat)
    requires k < |w.net|
  {
    w.net[k].from == to.Other() && Some(w.net[k].packet.header.dh) == w.State(to).DHr
  }

  lemma CurrentPlace(w: World, sh: Shadow, to: Party, k: nat)
    requires Inv(w, sh) && w.State(to).CKr.Some? && k < |w.net| && OnCurrentChain(w, to, k)
    ensures sh.Position(to) >= 1 && sh.Position(to) - 1 < |sh.h.keys|
    ensures var header, base := w.net[k].packet.header, Seed(sh.h.master, sh.h.keys, sh.Position(to) - 1);
            && w.net[k].packet.ct.key == MessageKey(Advance(base, header.n))
            && (k in Received(w) ==> header.n < w.State(to).Nr)
  {
    hide ReceiptsOk, CacheExact, LastReceived, Root, Seed, Advance;
    var h := sh.h;
    assert PartyAt(w, sh, to);
    assert WireOk(h, k, w.net[k]);
    NamesDistinct(h, h.places[k].chain, h.places[k].n, sh.Position(to) - 1, h.places[k].n);
  }

  lemma LastBeforeNr(w: World, sh: Shadow, to: Party) returns (k: nat)
    requires Inv(w, sh) && w.State(to).CKr.Some? && w.State(to).Nr > 0
    ensures k < |w.net| && OnCurrentChain(w, to, k) && k in Received(w)
    ensures w.net[k].packet.header.n == w.State(to).Nr - 1
  {
    hide ReceiptsOk, CacheExact, NothingAhead, Root, Seed, Advance;
    var h, c, n := sh.h, sh.Position(to) - 1, w.State(to).Nr - 1;
    assert PartyAt(w, sh, to);
    k := h.chains[c][n];
    assert h.places[k] == Place(c, n);
    assert WireOk(h, k, w.net[k]);
  }

  /**
   The receiving chain key is its start advanced Nr times, the messages of the chain are sealed under
   its positions, none at Nr or later has been received, and the last one before Nr has.
   */
  lemma ReceivingChain(w: World, to: Party) returns (base: ChainKey)
    requires Reachable(w) && w.State(to).CKr.Some?
    ensures base.ChainSeed? && w.State(to).CKr == Some(Advance(base, w.State(to).Nr))
    ensures forall k: nat :: k < |w.net| && OnCurrentChain(w, to, k) ==>
              w.net[k].packet.ct.key == MessageKey(Advance(base, w.net[k].packet.header.n))
              && (k in Received(w) ==> w.net[k].packet.header.n < w.State(to).Nr)
    ensures w.State(to).Nr > 0 ==>
              exists k: nat :: k < |w.net| && OnCurrentChain(w, to, k) && k in Received(w)
                && w.net[k].packet.header.n == w.State(to).Nr - 1
  {
    hide CacheExact, NothingAhead, LastReceived, ReceiptsOk, NetOk, DistinctKeys, PlacesInverse, Advance;
    var sh := ReachableInv(w);
    assert PartyAt(w, sh, to);
    base := Seed(sh.h.master, sh.h.keys, sh.Position(to) - 1);
    forall k: nat | k < |w.net| && OnCurrentChain(w, to, k)
      ensures w.net[k].packet.ct.key == MessageKey(Advance(base, w.net[k].packet.header.n))
      ensures k in Received(w) ==> w.net[k].packet.header.n < w.State(to).Nr
    {
      CurrentPlace(w, sh, to, k);
    }
    if w.State(to).Nr > 0 {
      var k := LastBeforeNr(w, sh, to);
    }
  }

  // ---------------------------------------------------------------- the cache

  /** The receiver `s` has gone past a header of a peer whose current ratchet key is `current`. */
  predicate GonePast(s: RatchetState, current: PublicKey, header: Header) {
    if s.DHr == Some(header.dh) then header.n < s.Nr else header.dh != current
  }

  /** Going past a header and having passed its place are the same. */
  lemma GonePastIsPassed(w: World, sh: Shadow, k: nat)
    requires Inv(w, sh) && k < |w.net|
    ensures k < |sh.h.places|
    ensures var to := w.net[k].from.Other();
            GonePast(w.State(to), w.State(w.net[k].from).DHs.pub, w.net[k].packet.header)
            <==> Passed(sh.h, sh.Position(to), w.State(to).Nr, sh.h.places[k].chain, sh.h.places[k].n)
  {
    hide CacheExact, NothingAhead, LastReceived, ReceiptsOk, Root, Seed, Advance;
    var to := w.net[k].from.Other();
    var h, i := sh.h, sh.Position(to);
    assert PartyAt(w, sh, to) && PartyAt(w, sh, w.net[k].from);
    Addressed(w, sh, k);
    assert WireOk(h, k, w.net[k]);
    var c, n := h.places[k].chain, h.places[k].n;
    NamesDistinct(h, c, n, sh.Position(w.net[k].from), n);
    if i >= 1 {
      NamesDistinct(h, c, n, i - 1, n);
    }
  }

  /** A message's key is cached at its addressee exactly when it was passed over and not received since. */
  lemma CacheHoldsPassedOver(w: World, k: nat)
    requires Reachable(w) && k < |w.net|
    ensures var s, header := w.State(w.net[k].from.Other()), w.net[k].packet.header;
            var name := SkippedName(header.dh, header.n);
            && (name in s.skippedKeys <==> k !in Received(w) && GonePast(s, w.State(w.net[k].from).DHs.pub, header))
            && (name in s.skippedKeys ==> s.skippedKeys[name] == w.net[k].packet.ct.key)
  {
    hide ReceiptsOk, GonePast;
    var sh := ReachableInv(w);
    var to := w.net[k].from.Other();
    var h, i, s := sh.h, sh.Position(to), w.State(to);
    GonePastIsPassed(w, sh, k);
    assert PartyAt(w, sh, to);
    assert WireOk(h, k, w.net[k]);
    var c, n := h.places[k].chain, h.places[k].n;
    PassedCached(h, i, s.Nr, Received(w), s.skippedKeys, c, n);
    if !Passed(h, i, s.Nr, c, n) {
      NotCached(h, i, s.Nr, Received(w), s.skippedKeys, c, n);
    }
  }

  lemma NameCarried(h: History, net: seq<Wire>, i: nat, nr: nat, name: SkippedName) returns (k: nat)
    requires PlacesInverse(h) && NetOk(h, net) && NameOk(h, i, nr, name)
    ensures k < |net| && name == SkippedName(net[k].packet.header.dh, net[k].packet.header.n)
    ensures net[k].from.Alice? <==> i % 2 == 0
  {
    var c: nat :| Passed(h, i, nr, c, name.n) && name == NameOf(h, c, name.n);
    k := h.chains[c][name.n];
    assert h.places[k] == Place(c, name.n);
    assert WireOk(h, k, net[k]);
  }

  /** Every cached name is the name of a message to that party. */
  lemma CacheHoldsNothingElse(w: World, who: Party, name: SkippedName) returns (k: nat)
    requires Reachable(w) && name in w.State(who).skippedKeys
    ensures k < |w.net| && w.net[k].from == who.Other()
    ensures name == SkippedName(w.net[k].packet.header.dh, w.net[k].packet.header.n)
  {
    hide NameOk, PlaceOk, StateOk;
    var sh := ReachableInv(w);
    assert PartyAt(w, sh, who);
    k := NameCarried(sh.h, w.net, sh.Position(who), w.State(who).Nr, name);
  }

  lemma {:induction false} KeysBetweenSize(dh: PublicKey, ck: ChainKey, from: nat, until: nat)
    requires from <= until
    ensures |KeysBetween(dh, ck, from, until)| == until - from
  {
    if from < until {
      KeysBetweenSize(dh, ck, from, until - 1);
    }
  }

  lemma UnionSize(a: SkippedKeys, b: SkippedKeys)
    ensures |a + b| <= |a| + |b|
    ensures a.Keys !! b.Keys ==> |a + b| == |a| + |b|
  {
    assert (a + b).Keys == a.Keys + b.Keys;
    assert a.Keys + b.Keys == a.Keys + (b.Keys - a.Keys);
    assert |(a + b).Keys| == |a.Keys| + |b.Keys - a.Keys|;
    if a.Keys !! b.Keys {
      assert b.Keys - a.Keys == b.Keys;
    }
  }

  lemma SkipGrowth(s: RatchetState, until: nat)
    requires Skip(s, until).Ok?
    ensures |Skip(s, until).value.skippedKeys| <= |s.skippedKeys| + MAX_SKIP
  {
    if s.Nr < until {
      var added := KeysBetween(s.DHr.value, s.CKr.value, s.Nr, until);
      KeysBetweenSize(s.DHr.value, s.CKr.value, s.Nr, until);
      UnionSize(s.skippedKeys, added);
    }
  }

  lemma OnChainGrowth(s: RatchetState, p: Packet)
    requires DecryptOnChain(s, p).Ok?
    ensures |DecryptOnChain(s, p).value.0.skippedKeys| <= |s.skippedKeys| + MAX_SKIP
  {
    SkipGrowth(s, p.header.n);
  }

  lemma DhStepGrowth(s: RatchetState, header: Header, newPriv: nat)
    requires DhStep(s, header, newPriv).Ok?
    ensures |DhStep(s, header, newPriv).value.skippedKeys| <= |s.skippedKeys| + MAX_SKIP
  {
    if s.DHr.Some? && s.CKr.Some? {
      SkipGrowth(s, header.pn);
    }
  }

  /** One decrypt, in any state and of any packet, caches at most two limits' worth of keys. */
  lemma DecryptGrowth(s: RatchetState, p: Packet, newPriv: nat)
    requires Decrypt(s, p, newPriv).Ok?
    ensures |Decrypt(s, p, newPriv).value.0.skippedKeys| <= |s.skippedKeys| + 2 * MAX_SKIP
  {
    hide DecryptOnChain, DhStep;
    var name := SkippedName(p.header.dh, p.header.n);
    if name in s.skippedKeys {
      assert (s.skippedKeys - {name}).Keys == s.skippedKeys.Keys - {name};
    } else if s.DHr == Some(p.header.dh) {
      OnChainGrowth(s, p);
    } else {
      DhStepGrowth(s, p.header, newPriv);
      OnChainGrowth(DhStep(s, p.header, newPriv).value, p);
    }
  }

  function ReceiptsTo(out: seq<Receipt>, who: Party): nat {
    if out == [] then 0
    else ReceiptsTo(out[..|out| - 1], who) + if out[|out| - 1].to == who then 1 else 0
  }

  lemma StepGrowth(w: World, a: Action, who: Party)
    ensures |Step(w, a).State(who).skippedKeys| + 2 * MAX_SKIP * ReceiptsTo(w.out, who)
            <= |w.State(who).skippedKeys| + 2 * MAX_SKIP * ReceiptsTo(Step(w, a).out, who)
  {
    hide Decrypt;
    if a.Deliver? && a.k < |w.net| {
      var to := w.net[a.k].from.Other();
      var r := Decrypt(w.State(to), w.net[a.k].packet, w.nextKey);
      if r.Ok? {
        DecryptGrowth(w.State(to), w.net[a.k].packet, w.nextKey);
        var out' := w.out + [Receipt(to, a.k, r.value.1)];
        assert out'[..|out'| - 1] == w.out;
      }
    }
  }

  /** The cache of a run grows with the successful decrypts, two limits' worth each. */
  lemma {:induction false} CacheBound(master: RootKey, ek: nat, spk: nat, nextKey: nat, actions: seq<Action>,
                                      who: Party)
    ensures var w := Run(Start(master, ek, spk, nextKey), actions);
            |w.State(who).skippedKeys| <= 2 * MAX_SKIP * ReceiptsTo(w.out, who)
  {
    hide Step;
    if actions != [] {
      CacheBound(master, ek, spk, nextKey, actions[..|actions| - 1], who);
      StepGrowth(Run(Start(master, ek, spk, nextKey), actions[..|actions| - 1]), actions[|actions| - 1], who);
    }
  }

  // ---------------------------------------------------------------- order does not matter

  lemma CounterDetermined(h: History, i: nat, received: set<nat>, m: nat, n: nat)
    requires LastReceived(h, i, m, received) && NothingAhead(h, i, n, received)
    ensures m <= n
  {
    if m > 0 {
      assert Passed(h, i, n, i - 1, m - 1);
    }
  }

  /** The history, the position and the set of received messages determine the state. */
  lemma StateDetermined(h: History, i: nat, received: set<nat>, s: RatchetState, t: RatchetState)
    requires DistinctKeys(h) && PartyOk(h, i, received, s) && PartyOk(h, i, received, t)
    ensures s == t
  {
    CounterDetermined(h, i, received, s.Nr, t.Nr);
    CounterDetermined(h, i, received, t.Nr, s.Nr);
    CacheDetermined(h, i, s.Nr, received, s.skippedKeys, t.skippedKeys);
    CacheDetermined(h, i, s.Nr, received, t.skippedKeys, s.skippedKeys);
    assert s.skippedKeys == t.skippedKeys;
  }

  lemma CacheDetermined(h: History, i: nat, nr: nat, received: set<nat>, a: SkippedKeys, b: SkippedKeys)
    requires CacheExact(h, i, nr, received, a) && CacheExact(h, i, nr, received, b)
    ensures forall name :: name in a ==> name in b && b[name] == a[name]
  {
    forall name | name in a ensures name in b && b[name] == a[name] {
      var c :| Passed(h, i, nr, c, name.n) && name == NameOf(h, c, name.n);
      assert PlaceOk(h, received, a, c, name.n) && PlaceOk(h, received, b, c, name.n);
    }
  }

  function DeliverAll(w: World, ks: seq<nat>): World {
    if ks == [] then w else Step(DeliverAll(w, ks[..|ks| - 1]), Deliver(ks[|ks| - 1]))
  }

  /** The list delivers messages to one party, and every delivery succeeds in its turn. */
  ghost predicate AllOpen(w: World, to: Party, ks: seq<nat>) {
    ks != [] ==>
      var first, k := ks[..|ks| - 1], ks[|ks| - 1];
      && AllOpen(w, to, first)
      && k < |w.net| && w.net[k].from.Other() == to
      && Step(DeliverAll(w, first), Deliver(k)) != DeliverAll(w, first)
  }

  function Members(ks: seq<nat>): set<nat> {
    set k | k in ks
  }

  /** Whether the list makes the party take its next DH step. */
  ghost predicate Turns(sh: Shadow, to: Party, ks: seq<nat>) {
    exists k :: k in ks && k < |sh.h.places| && sh.h.places[k].chain == sh.Position(to) + 1
  }

  ghost function ShadowAfter(sh: Shadow, to: Party, ks: seq<nat>, newPriv: nat): Shadow {
    if Turns(sh, to, ks) then Moved(sh, to, sh.Position(to) + 1, newPriv) else sh
  }

  /** Where a world stands after the deliveries depends on their set only. */
  ghost predicate Delivered(w: World, sh: Shadow, to: Party, ks: seq<nat>, w': World) {
    && Inv(w', ShadowAfter(sh, to, ks, w.nextKey))
    && Received(w') == Received(w) + Members(ks)
    && w'.net == w.net && w'.State(to.Other()) == w.State(to.Other())
    && w'.nextKey == (if Turns(sh, to, ks) then w.nextKey + 1 else w.nextKey)
  }

  lemma OneMoreDelivered(w: World, sh: Shadow, to: Party, ks: seq<nat>, w': World, k: nat)
    requires Inv(w, sh) && Delivered(w, sh, to, ks, w')
    requires k < |w.net| && w.net[k].from.Other() == to && Step(w', Deliver(k)) != w'
    ensures Delivered(w, sh, to, ks + [k], Step(w', Deliver(k)))
  {
    hide PartyOk, DistinctKeys, PlacesInverse, ReceiptsOk, WireOk, Decrypt;
    var sh' := ShadowAfter(sh, to, ks, w.nextKey);
    Addressed(w, sh, k);
    Addressed(w', sh', k);
    Delivers(w', sh', k);
    DeliverKeeps(w', sh', k);
    ReceiptAdded(w'.net, w'.out, k);
    assert forall m :: m in ks + [k] <==> m in ks || m == k;
    assert Moved(sh', to, sh'.h.places[k].chain, w'.nextKey) == ShadowAfter(sh, to, ks + [k], w.nextKey);
  }

  lemma {:induction false} AllDelivered(w: World, sh: Shadow, to: Party, ks: seq<nat>)
    requires Inv(w, sh) && AllOpen(w, to, ks)
    ensures Delivered(w, sh, to, ks, DeliverAll(w, ks))
  {
    hide Step, Inv, Delivered;
    if ks == [] {
      NoneDelivered(w, sh, to);
    } else {
      var first, k := ks[..|ks| - 1], ks[|ks| - 1];
      AllDelivered(w, sh, to, first);
      OneMoreDelivered(w, sh, to, first, DeliverAll(w, first), k);
      assert ks == first + [k];
    }
  }

  lemma NoneDelivered(w: World, sh: Shadow, to: Party)
    requires Inv(w, sh)
    ensures Delivered(w, sh, to, [], w)
  {
    hide Inv;
    assert Members([]) == {};
    assert Received(w) + {} == Received(w);
  }

  /**
   Deliver the same set of messages in any two orders that never exceed the skip limit: the
   receiver ends in the same state, over one chain or two, and so does the rest of the world.
   */
  lemma {:induction false} OrderIndependent(w: World, to: Party, ks: seq<nat>, ls: seq<nat>)
    requires Reachable(w) && AllOpen(w, to, ks) && AllOpen(w, to, ls)
    requires forall k :: k in ks <==> k in ls
    ensures DeliverAll(w, ks).(out := []) == DeliverAll(w, ls).(out := [])
  {
    hide PartyOk, SharedOk, DeliverAll, AllOpen, Moved;
    var sh := ReachableInv(w);
    AllDelivered(w, sh, to, ks);
    AllDelivered(w, sh, to, ls);
    assert Members(ks) == Members(ls);
    SameDelivered(w, sh, to, ks, ls, DeliverAll(w, ks), DeliverAll(w, ls));
  }

  lemma SameDelivered(w: World, sh: Shadow, to: Party, ks: seq<nat>, ls: seq<nat>, v: World, u: World)
    requires Delivered(w, sh, to, ks, v) && Delivered(w, sh, to, ls, u)
    requires forall k :: k in ks <==> k in ls
    ensures v.alice == u.alice && v.bob == u.bob && v.net == u.net && v.nextKey == u.nextKey
  {
    hide PartyOk, DistinctKeys, PlacesInverse, ReceiptsOk, NetOk, Moved, Received;
    assert Members(ks) == Members(ls);
    var sh' := ShadowAfter(sh, to, ks, w.nextKey);
    assert PartyAt(v, sh', to) && PartyAt(u, sh', to);
    StateDetermined(sh'.h, sh'.Position(to), Received(v), v.State(to), u.State(to));
  }

  // ---------------------------------------------------------------- MAX_SKIP is no bound on the cache

  function Burst(count: nat): seq<Action> {
    seq(count, _ => Send(Alice, Message(0, ""), 0))
  }

  lemma {:induction false} BurstNet(master: RootKey, ek: nat, spk: nat, nextKey: nat, count: nat)
    ensures var w, start := Run(Start(master, ek, spk, nextKey), Burst(count)), Start(master, ek, spk, nextKey);
            && w.bob == start.bob && w.out == [] && |w.net| == count
            && w.alice.CKs.Some? && w.alice.DHs == start.alice.DHs && w.alice.Ns == count && w.alice.PN == 0
            && (forall k :: 0 <= k < count ==>
                  w.net[k].from == Alice && w.net[k].packet.header == Header(PublicKey(ek), k, 0))
  {
    if count > 0 {
      assert Burst(count)[..count - 1] == Burst(count - 1);
      BurstNet(master, ek, spk, nextKey, count - 1);
    }
  }

  /** The last message of every block of MAX_SKIP + 1. */
  function BlockEnds(m: nat): seq<nat> {
    if m == 0 then [] else BlockEnds(m - 1) + [m * (MAX_SKIP + 1) - 1]
  }

  /** A receiver that took only the last message of each of the first m blocks. */
  ghost predicate TookBlockEnds(s: RatchetState, ek: nat, m: nat) {
    && |s.skippedKeys| == m * MAX_SKIP && s.Nr == m * (MAX_SKIP + 1)
    && (m > 0 ==> s.DHr == Some(PublicKey(ek)) && s.CKr.Some?)
    && (m == 0 ==> s.DHr.None? && s.CKr.None?)
    && (forall name :: name in s.skippedKeys ==> name.n < s.Nr)
  }

  lemma TakesBlockEnd(s: RatchetState, ek: nat, m: nat, p: Packet)
    requires s.DHr == Some(PublicKey(ek)) && s.CKr.Some?
    requires |s.skippedKeys| == m * MAX_SKIP && s.Nr == m * (MAX_SKIP + 1)
    requires forall name :: name in s.skippedKeys ==> name.n < s.Nr
    requires p.header == Header(PublicKey(ek), (m + 1) * (MAX_SKIP + 1) - 1, 0) && DecryptOnChain(s, p).Ok?
    ensures TookBlockEnds(DecryptOnChain(s, p).value.0, ek, m + 1)
  {
    var added := KeysBetween(PublicKey(ek), s.CKr.value, s.Nr, p.header.n);
    KeysBetweenSize(PublicKey(ek), s.CKr.value, s.Nr, p.header.n);
    UnionSize(s.skippedKeys, added);
    assert DecryptOnChain(s, p).value.0.skippedKeys == s.skippedKeys + added;
  }

  lemma DecryptsBlockEnd(s: RatchetState, ek: nat, m: nat, p: Packet, newPriv: nat)
    requires TookBlockEnds(s, ek, m) && Decrypt(s, p, newPriv).Ok?
    requires p.header == Header(PublicKey(ek), (m + 1) * (MAX_SKIP + 1) - 1, 0)
    ensures TookBlockEnds(Decrypt(s, p, newPriv).value.0, ek, m + 1)
  {
    hide DecryptOnChain;
    assert SkippedName(p.header.dh, p.header.n) !in s.skippedKeys;
    TakesBlockEnd(if m > 0 then s else DhStep(s, p.header, newPriv).value, ek, m, p);
  }

  ghost predicate BlocksWorld(w: World, v: World, ek: nat, m: nat) {
    && Reachable(v) && v.net == w.net && TookBlockEnds(v.bob, ek, m)
    && (forall k :: k in Received(v) ==> k < m * (MAX_SKIP + 1))
  }

  ghost predicate BurstFrom(w: World, ek: nat) {
    forall k :: 0 <= k < |w.net| ==> w.net[k].from == Alice && w.net[k].packet.header == Header(PublicKey(ek), k, 0)
  }

  lemma BlockEndTaken(w: World, v: World, ek: nat, m: nat)
    requires BlocksWorld(w, v, ek, m) && BurstFrom(w, ek) && |w.net| >= (m + 1) * (MAX_SKIP + 1)
    ensures BlocksWorld(w, Step(v, Deliver((m + 1) * (MAX_SKIP + 1) - 1)), ek, m + 1)
  {
    hide Decrypt, Reachable;
    var k := (m + 1) * (MAX_SKIP + 1) - 1;
    assert k !in Received(v) && WithinLimit(v.bob, v.net[k].packet.header);
    DeliversExactlyOnce(v, k);
    DecryptsBlockEnd(v.bob, ek, m, v.net[k].packet, v.nextKey);
    StepReachable(v, Deliver(k));
    forall l | l in Received(Step(v, Deliver(k))) ensures l < (m + 1) * (MAX_SKIP + 1) {
      assert l in Received(v) || l == k;
    }
  }

  lemma {:induction false} BlockEndsDelivered(w: World, ek: nat, m: nat)
    requires BlocksWorld(w, w, ek, 0) && BurstFrom(w, ek) && |w.net| >= m * (MAX_SKIP + 1)
    ensures BlocksWorld(w, DeliverAll(w, BlockEnds(m)), ek, m)
  {
    hide BlocksWorld, BurstFrom, Step;
    if m > 0 {
      BlockEndsDelivered(w, ek, m - 1);
      BlockEndTaken(w, DeliverAll(w, BlockEnds(m - 1)), ek, m - 1);
      assert BlockEnds(m)[..|BlockEnds(m)| - 1] == BlockEnds(m - 1);
    }
  }

  /** The code does not cap the cache at MAX_SKIP: for every m some honest run caches m * MAX_SKIP keys. */
  lemma CacheUncapped(m: nat) returns (w: World)
    ensures Reachable(w) && |w.bob.skippedKeys| == m * MAX_SKIP
  {
    var master, count := Master([]), m * (MAX_SKIP + 1);
    BurstNet(master, 1, 0, 2, count);
    assert StartOk(master, 1, 0, 2);
    var u := Run(Start(master, 1, 0, 2), Burst(count));
    assert Reachable(u);
    BlockEndsDelivered(u, 1, m);
    w := DeliverAll(u, BlockEnds(m));
  }
}
