/**
 By exactly how much a decrypt changes the skipped-key cache, and so exactly when the cache stays
 within MAX_SKIP.
 */
module CacheGrowth {
  import opened Wrappers
  import opened Crypto
  import opened Ratchet
  import opened RatchetHistory
  import opened TwoParty
  import opened RatchetRuns

  /** The keys a decrypt adds, from the state and the header alone; -1 for one that comes from the cache. */
  function NewKeys(s: RatchetState, header: Header): int {
    if SkippedName(header.dh, header.n) in s.skippedKeys then -1
    else if s.DHr == Some(header.dh) then header.n - s.Nr
    else header.n + if s.CKr.Some? then header.pn - s.Nr else 0
  }

  lemma SkipAdds(h: History, i: nat, received: set<nat>, s: RatchetState, until: nat)
    requires DistinctKeys(h) && Midway(h, i, received, s)
    requires i >= 2 && s.Nr <= until <= |h.chains[i - 1]| && until - s.Nr <= MAX_SKIP
    ensures Skip(s, until).Ok? && |Skip(s, until).value.skippedKeys| == |s.skippedKeys| + until - s.Nr
  {
    if s.Nr < until {
      var added := KeysBetween(s.DHr.value, s.CKr.value, s.Nr, until);
      KeysBetweenSize(s.DHr.value, s.CKr.value, s.Nr, until);
      forall name | name in added ensures name !in s.skippedKeys {
        NotCached(h, i, s.Nr, received, s.skippedKeys, i - 1, name.n);
      }
      UnionSize(s.skippedKeys, added);
    }
  }

  /** Opening the message at Nr itself takes the cache as it is. */
  lemma OnChainCache(s: RatchetState, p: Packet)
    requires DecryptOnChain(s, p).Ok?
    ensures Skip(s, p.header.n).Ok? && DecryptOnChain(s, p).value.0.skippedKeys == Skip(s, p.header.n).value.skippedKeys
  {
  }

  lemma StepCache(s: RatchetState, header: Header, newPriv: nat)
    requires DhStep(s, header, newPriv).Ok?
    ensures s.DHr.Some? && s.CKr.Some? ==>
              Skip(s, header.pn).Ok? && DhStep(s, header, newPriv).value.skippedKeys
                == Skip(s, header.pn).value.skippedKeys
    ensures s.CKr.None? ==> DhStep(s, header, newPriv).value.skippedKeys == s.skippedKeys
  {
  }

  lemma CachedAdds(s: RatchetState, p: Packet, newPriv: nat)
    requires SkippedName(p.header.dh, p.header.n) in s.skippedKeys && Decrypt(s, p, newPriv).Ok?
    ensures |Decrypt(s, p, newPriv).value.0.skippedKeys| == |s.skippedKeys| - 1
  {
    var name := SkippedName(p.header.dh, p.header.n);
    assert (s.skippedKeys - {name}).Keys == s.skippedKeys.Keys - {name};
  }

  lemma CurrentAdds(h: History, i: nat, received: set<nat>, s: RatchetState, n: nat, p: Packet, text: Plaintext,
                    newPriv: nat)
    requires DistinctKeys(h) && PlacesInverse(h) && PartyOk(h, i, received, s)
    requires i >= 2 && s.Nr <= n < |h.chains[i - 1]| && Honest(h, i - 1, n, p, text)
    requires Decrypt(s, p, newPriv).Ok?
    ensures |Decrypt(s, p, newPriv).value.0.skippedKeys| == |s.skippedKeys| + NewKeys(s, p.header)
  {
    hide Decrypt, DecryptOnChain, DhStep, Skip, CacheExact, NothingAhead, LastReceived;
    NotCached(h, i, s.Nr, received, s.skippedKeys, i - 1, n);
    DecryptUncached(s, p, newPriv);
    OpenAhead(h, i, received, s, n, p, text);
    OnChainCache(s, p);
    SkipAdds(h, i, received, s, n);
  }

  lemma NextAdds(h: History, i: nat, received: set<nat>, s: RatchetState, n: nat, p: Packet, text: Plaintext,
                 newPriv: nat)
    requires DistinctKeys(h) && PlacesInverse(h) && PartyOk(h, i, received, s)
    requires i + 2 == |h.keys| && newPriv !in h.keys
    requires n < |h.chains[i + 1]| && Honest(h, i + 1, n, p, text)
    requires Decrypt(s, p, newPriv).Ok?
    ensures |Decrypt(s, p, newPriv).value.0.skippedKeys| == |s.skippedKeys| + NewKeys(s, p.header)
  {
    hide Decrypt, DecryptOnChain, DhStep, Skip, CacheExact, NothingAhead, LastReceived, Root, Seed, Advance;
    NotCached(h, i, s.Nr, received, s.skippedKeys, i + 1, n);
    DecryptUncached(s, p, newPriv);
    TurnKeeps(h, i, received, s, p.header, newPriv);
    var h', s1 := Turned(h, newPriv), DhStep(s, p.header, newPriv).value;
    TurnedOk(h, newPriv);
    KeysStable(h, h');
    OpenAhead(h', i + 2, received, s1, n, p, text);
    OnChainCache(s1, p);
    SkipAdds(h', i + 2, received, s1, n);
    StepCache(s, p.header, newPriv);
    if i >= 2 {
      SkipAdds(h, i, received, s, p.header.pn);
    }
  }

  lemma HonestAdds(h: History, i: nat, received: set<nat>, s: RatchetState, c: nat, n: nat,
                   p: Packet, text: Plaintext, newPriv: nat)
    requires DistinctKeys(h) && PlacesInverse(h) && PartyOk(h, i, received, s)
    requires i + 1 <= |h.keys| <= i + 2 && newPriv !in h.keys
    requires c < |h.chains| && n < |h.chains[c]| && Receives(i, c) && Honest(h, c, n, p, text)
    requires Decrypt(s, p, newPriv).Ok?
    ensures |Decrypt(s, p, newPriv).value.0.skippedKeys| == |s.skippedKeys| + NewKeys(s, p.header)
  {
    hide Decrypt, CacheExact, NothingAhead, LastReceived;
    DecryptHonest(h, i, received, s, c, n, p, text, newPriv);
    PassedCached(h, i, s.Nr, received, s.skippedKeys, c, n);
    if Passed(h, i, s.Nr, c, n) {
      CachedAdds(s, p, newPriv);
    } else if c == i - 1 {
      CurrentAdds(h, i, received, s, n, p, text, newPriv);
    } else {
      NextAdds(h, i, received, s, n, p, text, newPriv);
    }
  }

  /**
   In every reachable world a delivery that decrypts changes the cache by exactly NewKeys, so it keeps
   the cache within any bound, MAX_SKIP among them, exactly if the old size and NewKeys fit.
   */
  lemma CacheGrowsExactly(w: World, k: nat)
    requires Reachable(w) && k < |w.net|
    ensures var s, header := w.State(w.net[k].from.Other()), w.net[k].packet.header;
            var r := Decrypt(s, w.net[k].packet, w.nextKey);
            r.Ok? ==> |r.value.0.skippedKeys| == |s.skippedKeys| + NewKeys(s, header)
  {
    hide PartyOk, Decrypt, NewKeys;
    var sh := ReachableInv(w);
    var to := w.net[k].from.Other();
    assert PartyAt(w, sh, to);
    assert WireOk(sh.h, k, w.net[k]);
    var place := sh.h.places[k];
    if Decrypt(w.State(to), w.net[k].packet, w.nextKey).Ok? {
      HonestAdds(sh.h, sh.Position(to), Received(w), w.State(to), place.chain, place.n, w.net[k].packet,
                 w.net[k].text, w.nextKey);
    }
  }

  // ---------------------------------------------------------------- runs that stay within the cap

  predicate Capped(w: World) {
    |w.alice.skippedKeys| <= MAX_SKIP && |w.bob.skippedKeys| <= MAX_SKIP
  }

  /** What can be seen before an action: a delivery that will open has room in its addressee's cache. */
  predicate HasRoom(w: World, a: Action) {
    a.Deliver? && a.k < |w.net| && a.k !in Received(w) ==>
      var s, header := w.State(w.net[a.k].from.Other()), w.net[a.k].packet.header;
      WithinLimit(s, header) ==> |s.skippedKeys| + NewKeys(s, header) <= MAX_SKIP
  }

  predicate AlwaysCapped(w: World, actions: seq<Action>) {
    Capped(Run(w, actions)) && (actions != [] ==> AlwaysCapped(w, actions[..|actions| - 1]))
  }

  predicate AlwaysRoom(w: World, actions: seq<Action>) {
    actions != [] ==>
      AlwaysRoom(w, actions[..|actions| - 1]) && HasRoom(Run(w, actions[..|actions| - 1]), actions[|actions| - 1])
  }

  lemma StepCapped(w: World, a: Action)
    requires Reachable(w) && Capped(w)
    ensures Capped(Step(w, a)) <==> HasRoom(w, a)
  {
    hide Decrypt, NewKeys, WithinLimit, Reachable;
    if a.Deliver? && a.k < |w.net| {
      DeliversExactlyOnce(w, a.k);
      CacheGrowsExactly(w, a.k);
    }
  }

  /** The cache keeps to the documented cap throughout a run exactly if every delivery that opens had room. */
  lemma {:induction false} CapIsExact(master: RootKey, ek: nat, spk: nat, nextKey: nat, actions: seq<Action>)
    requires StartOk(master, ek, spk, nextKey)
    ensures AlwaysCapped(Start(master, ek, spk, nextKey), actions)
            <==> AlwaysRoom(Start(master, ek, spk, nextKey), actions)
  {
    hide Step, Capped, HasRoom;
    var w := Start(master, ek, spk, nextKey);
    if actions == [] {
      StartCapped(master, ek, spk, nextKey);
    } else {
      var front := actions[..|actions| - 1];
      CapIsExact(master, ek, spk, nextKey, front);
      assert Reachable(Run(w, front));
      if AlwaysCapped(w, front) {
        assert Capped(Run(w, front));
        StepCapped(Run(w, front), actions[|actions| - 1]);
      }
    }
  }

  lemma StartCapped(master: RootKey, ek: nat, spk: nat, nextKey: nat)
    ensures Capped(Start(master, ek, spk, nextKey))
  {
  }
}
