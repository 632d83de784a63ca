/**
 The one linear history two ratchet parties share, and what it says about each of them.

 Chain 0 is a placeholder for the receiver's signed prekey; chain c >= 1 is the sending
 chain of ratchet key `keys[c]`, which belongs to the initiator when c is odd and to the
 responder when c is even. A party "at position i" sends on chain i and receives on
 chain i - 1. Messages are named by their index in the network log.
 */
module RatchetHistory {
  import opened Wrappers
  import opened Crypto
  import opened Ratchet

  datatype Place = Place(chain: nat, n: nat)

  datatype History = History(
    master: RootKey,
    keys: seq<nat>,           // ratchet private keys, in the order they took over
    chains: seq<seq<nat>>,    // chains[c][n]: log index of message n of chain c
    places: seq<Place>        // the inverse: where the message with a log index sits
  )

  ghost predicate DistinctKeys(h: History) {
    && h.master.Master?
    && |h.chains| == |h.keys| >= 2
    && h.chains[0] == []
    && (forall i, j :: 0 <= i < j < |h.keys| ==> h.keys[i] != h.keys[j])
  }

  ghost predicate PlacesInverse(h: History) {
    && (forall k :: 0 <= k < |h.places| ==>
          h.places[k].chain < |h.chains| && h.places[k].n < |h.chains[h.places[k].chain]|
          && h.chains[h.places[k].chain][h.places[k].n] == k)
    && (forall c: nat, n: nat :: c < |h.chains| && n < |h.chains[c]| ==>
          h.chains[c][n] < |h.places| && h.places[h.chains[c][n]] == Place(c, n))
  }

  /** The root key after the first i ratchet keys have been mixed in. */
  function Root(master: RootKey, keys: seq<nat>, i: nat): RootKey
    requires i < |keys|
  {
    if i == 0 then master else NextRoot(Root(master, keys, i - 1), DH(keys[i], PublicKey(keys[i - 1])))
  }

  function Seed(master: RootKey, keys: seq<nat>, c: nat): ChainKey
    requires 1 <= c < |keys|
  {
    ChainSeed(Root(master, keys, c - 1), DH(keys[c], PublicKey(keys[c - 1])))
  }

  function KeyAt(h: History, c: nat, n: nat): MessageKey
    requires 1 <= c < |h.keys|
  {
    MessageKey(Advance(Seed(h.master, h.keys, c), n))
  }

  /** Length of the chain that the sender of chain c used before it. */
  function PreviousLength(h: History, c: nat): nat
    requires c < |h.chains|
  {
    if c >= 2 then |h.chains[c - 2]| else 0
  }

  ghost predicate Honest(h: History, c: nat, n: nat, p: Packet, text: Plaintext) {
    && 1 <= c < |h.keys| && c < |h.chains|
    && p.header == Header(PublicKey(h.keys[c]), n, PreviousLength(h, c))
    && p.ct == Sealed(KeyAt(h, c, n), p.nonce, text)
  }

  ghost predicate Receives(i: nat, c: nat) {
    (i - c) % 2 == 1
  }

  /** Position n of chain c is behind a receiver at position i with counter nr. */
  ghost predicate Passed(h: History, i: nat, nr: nat, c: nat, n: nat) {
    && 1 <= c < i && c < |h.chains| && c < |h.keys| && Receives(i, c)
    && n < (if c == i - 1 then nr else |h.chains[c]|)
    && n < |h.chains[c]|
  }

  function NameOf(h: History, c: nat, n: nat): SkippedName
    requires c < |h.keys|
  {
    SkippedName(PublicKey(h.keys[c]), n)
  }

  ghost predicate StateOk(h: History, i: nat, s: RatchetState) {
    && i < |h.keys| && i < |h.chains|
    && s.RK == Root(h.master, h.keys, i)
    && s.DHs == GenerateKeyPair(h.keys[i])
    && s.DHr == (if i == 0 then None else Some(PublicKey(h.keys[i - 1])))
    && s.Ns == |h.chains[i]|
    && s.PN == PreviousLength(h, i)
    && s.CKs == (if i == 0 then None else Some(Advance(Seed(h.master, h.keys, i), s.Ns)))
    && s.CKr == (if i < 2 then None else Some(Advance(Seed(h.master, h.keys, i - 1), s.Nr)))
    && s.Nr <= (if i < 2 then 0 else |h.chains[i - 1]|)
    && s.typingKey == TypingKey(h.master)
  }

  /** A passed position is cached, under its sender's key, exactly while it is not received. */
  ghost predicate PlaceOk(h: History, received: set<nat>, cache: SkippedKeys, c: nat, n: nat)
    requires 1 <= c < |h.chains| && c < |h.keys| && n < |h.chains[c]|
  {
    if h.chains[c][n] in received then NameOf(h, c, n) !in cache
    else NameOf(h, c, n) in cache && cache[NameOf(h, c, n)] == KeyAt(h, c, n)
  }

  ghost predicate NameOk(h: History, i: nat, nr: nat, name: SkippedName) {
    exists c :: Passed(h, i, nr, c, name.n) && name == NameOf(h, c, name.n)
  }

  /** The cache holds the passed positions that are not received, and nothing else. */
  ghost predicate CacheExact(h: History, i: nat, nr: nat, received: set<nat>, cache: SkippedKeys) {
    && (forall c: nat, n: nat :: Passed(h, i, nr, c, n) ==> PlaceOk(h, received, cache, c, n))
    && (forall name :: name in cache ==> NameOk(h, i, nr, name))
  }

  /** Nothing ahead of the receiver has been received. */
  ghost predicate NothingAhead(h: History, i: nat, nr: nat, received: set<nat>) {
    forall c: nat, n: nat :: 1 <= c < |h.chains| && 0 <= n < |h.chains[c]| && Receives(i, c)
      && h.chains[c][n] in received
      ==> Passed(h, i, nr, c, n)
  }

  ghost predicate LastReceived(h: History, i: nat, nr: nat, received: set<nat>) {
    nr > 0 ==> i >= 2 && i <= |h.chains| && nr <= |h.chains[i - 1]| && h.chains[i - 1][nr - 1] in received
  }

  /** A party between the skip and the open of one decrypt. */
  ghost predicate Midway(h: History, i: nat, received: set<nat>, s: RatchetState) {
    StateOk(h, i, s) && CacheExact(h, i, s.Nr, received, s.skippedKeys) && NothingAhead(h, i, s.Nr, received)
  }

  /** A party at position i that has received exactly the messages in `received`. */
  ghost predicate PartyOk(h: History, i: nat, received: set<nat>, s: RatchetState) {
    Midway(h, i, received, s) && LastReceived(h, i, s.Nr, received)
  }

  // ---------------------------------------------------------------- keys

  lemma {:induction false} RootPrefix(master: RootKey, keys: seq<nat>, longer: seq<nat>, i: nat)
    requires i < |keys| && keys <= longer
    ensures Root(master, keys, i) == Root(master, longer, i)
  {
    if i > 0 {
      RootPrefix(master, keys, longer, i - 1);
    }
  }

  lemma {:induction false} RootDepth(master: RootKey, keys: seq<nat>, i: nat)
    requires i < |keys| && master.Master?
    ensures Depth(Root(master, keys, i)) == i
  {
    if i > 0 {
      RootDepth(master, keys, i - 1);
    }
  }

  /** Over all epochs and both parties, different places have different message keys. */
  lemma KeysDistinct(h: History, c: nat, n: nat, d: nat, m: nat)
    requires h.master.Master? && 1 <= c < |h.keys| && 1 <= d < |h.keys|
    requires KeyAt(h, c, n) == KeyAt(h, d, m)
    ensures c == d && n == m
  {
    AdvanceInjective(Seed(h.master, h.keys, c), n, Seed(h.master, h.keys, d), m);
    RootDepth(h.master, h.keys, c - 1);
    RootDepth(h.master, h.keys, d - 1);
  }

  /** A new ratchet key changes no key of the chains before it. */
  lemma KeysStable(h: History, h': History)
    requires h'.master == h.master && h.keys <= h'.keys
    ensures forall i :: 0 <= i < |h.keys| ==> Root(h.master, h.keys, i) == Root(h.master, h'.keys, i)
    ensures forall c :: 1 <= c < |h.keys| ==> Seed(h.master, h.keys, c) == Seed(h.master, h'.keys, c)
    ensures forall c, n: nat :: 1 <= c < |h.keys| ==> KeyAt(h, c, n) == KeyAt(h', c, n)
  {
    forall i | 0 <= i < |h.keys| ensures Root(h.master, h.keys, i) == Root(h.master, h'.keys, i) {
      RootPrefix(h.master, h.keys, h'.keys, i);
    }
  }

  // ---------------------------------------------------------------- the cache

  /** Two names are equal only if they name the same place. */
  lemma NamesDistinct(h: History, c: nat, n: nat, d: nat, m: nat)
    requires DistinctKeys(h) && c < |h.keys| && d < |h.keys|
    ensures NameOf(h, c, n) == NameOf(h, d, m) <==> c == d && n == m
  {
  }

  lemma CacheSkipPlace(h: History, i: nat, nr: nat, until: nat, received: set<nat>, cache: SkippedKeys, ck: ChainKey,
                       c: nat, n: nat)
    requires DistinctKeys(h) && CacheExact(h, i, nr, received, cache) && NothingAhead(h, i, nr, received)
    requires 2 <= i < |h.chains| && nr <= until <= |h.chains[i - 1]|
    requires ck == Advance(Seed(h.master, h.keys, i - 1), nr)
    requires Passed(h, i, until, c, n)
    ensures PlaceOk(h, received, cache + KeysBetween(PublicKey(h.keys[i - 1]), ck, nr, until), c, n)
  {
    var added := KeysBetween(PublicKey(h.keys[i - 1]), ck, nr, until);
    if Passed(h, i, nr, c, n) {
      assert NameOf(h, c, n) !in added;
    } else {
      AdvanceAdd(Seed(h.master, h.keys, i - 1), nr, n - nr);
    }
  }

  lemma CacheSkipName(h: History, i: nat, nr: nat, until: nat, received: set<nat>, cache: SkippedKeys, ck: ChainKey,
                      name: SkippedName)
    requires DistinctKeys(h) && CacheExact(h, i, nr, received, cache)
    requires 2 <= i < |h.chains| && nr <= until <= |h.chains[i - 1]|
    requires name in cache + KeysBetween(PublicKey(h.keys[i - 1]), ck, nr, until)
    ensures NameOk(h, i, until, name)
  {
    if name in cache {
      var c :| Passed(h, i, nr, c, name.n) && name == NameOf(h, c, name.n);
      assert Passed(h, i, until, c, name.n);
    } else {
      assert Passed(h, i, until, i - 1, name.n) && name == NameOf(h, i - 1, name.n);
    }
  }

  /** Caching the keys from nr to until is what passing those positions requires. */
  lemma CacheSkip(h: History, i: nat, nr: nat, until: nat, received: set<nat>, cache: SkippedKeys, ck: ChainKey)
    requires DistinctKeys(h) && CacheExact(h, i, nr, received, cache) && NothingAhead(h, i, nr, received)
    requires 2 <= i < |h.chains| && nr <= until <= |h.chains[i - 1]|
    requires ck == Advance(Seed(h.master, h.keys, i - 1), nr)
    ensures CacheExact(h, i, until, received, cache + KeysBetween(PublicKey(h.keys[i - 1]), ck, nr, until))
  {
    var cache' := cache + KeysBetween(PublicKey(h.keys[i - 1]), ck, nr, until);
    forall c: nat, n: nat | Passed(h, i, until, c, n) ensures PlaceOk(h, received, cache', c, n) {
      CacheSkipPlace(h, i, nr, until, received, cache, ck, c, n);
    }
    forall name | name in cache' ensures NameOk(h, i, until, name) {
      CacheSkipName(h, i, nr, until, received, cache, ck, name);
    }
  }

  /** Opening the message at position nr itself passes it without caching it. */
  lemma CacheConsume(h: History, i: nat, nr: nat, received: set<nat>, cache: SkippedKeys)
    requires DistinctKeys(h) && PlacesInverse(h) && CacheExact(h, i, nr, received, cache)
    requires 2 <= i < |h.chains| && nr < |h.chains[i - 1]|
    ensures CacheExact(h, i, nr + 1, received + {h.chains[i - 1][nr]}, cache)
  {
    var k := h.chains[i - 1][nr];
    forall c: nat, n: nat | Passed(h, i, nr + 1, c, n) ensures PlaceOk(h, received + {k}, cache, c, n) {
      if c == i - 1 && n == nr {
        if NameOf(h, c, n) in cache {
          var d :| Passed(h, i, nr, d, n) && NameOf(h, c, n) == NameOf(h, d, n);
          NamesDistinct(h, c, n, d, n);
        }
      } else {
        assert Passed(h, i, nr, c, n);
        assert h.places[h.chains[c][n]] == Place(c, n);
      }
    }
    forall name | name in cache ensures NameOk(h, i, nr + 1, name) {
      var c :| Passed(h, i, nr, c, name.n) && name == NameOf(h, c, name.n);
      assert Passed(h, i, nr + 1, c, name.n);
    }
  }

  /** Opening a cached message takes its key out. */
  lemma CacheTake(h: History, i: nat, nr: nat, received: set<nat>, cache: SkippedKeys, c: nat, n: nat)
    requires DistinctKeys(h) && PlacesInverse(h) && CacheExact(h, i, nr, received, cache)
    requires Passed(h, i, nr, c, n)
    ensures CacheExact(h, i, nr, received + {h.chains[c][n]}, cache - {NameOf(h, c, n)})
  {
    var k := h.chains[c][n];
    forall d: nat, m: nat | Passed(h, i, nr, d, m)
      ensures PlaceOk(h, received + {k}, cache - {NameOf(h, c, n)}, d, m)
    {
      NamesDistinct(h, c, n, d, m);
      assert h.places[h.chains[d][m]] == Place(d, m);
    }
    forall name | name in cache - {NameOf(h, c, n)} ensures NameOk(h, i, nr, name) {
    }
  }

  // ---------------------------------------------------------------- how the history grows

  ghost predicate Extends(h: History, h': History) {
    && h'.master == h.master
    && h.keys <= h'.keys
    && |h.chains| <= |h'.chains|
    && (forall c :: 0 <= c < |h.chains| ==> h.chains[c] <= h'.chains[c])
  }

  /** For a receiver at position i, the history moved on without touching anything behind it. */
  ghost predicate Undisturbed(h: History, h': History, i: nat, received: set<nat>, received': set<nat>) {
    && Extends(h, h')
    && (forall c: nat :: c < |h.chains| && c + 1 < i && Receives(i, c) ==> h'.chains[c] == h.chains[c])
    && (forall c: nat, n: nat :: c < |h'.chains| && n < |h'.chains[c]| && Receives(i, c) ==>
          (h'.chains[c][n] in received' <==> c < |h.chains| && n < |h.chains[c]| && h.chains[c][n] in received))
  }

  lemma CacheUndisturbed(h: History, h': History, i: nat, nr: nat, received: set<nat>, received': set<nat>,
                         cache: SkippedKeys)
    requires DistinctKeys(h) && DistinctKeys(h') && Undisturbed(h, h', i, received, received')
    requires i < |h.chains| && nr <= (if i < 2 then 0 else |h.chains[i - 1]|)
    requires CacheExact(h, i, nr, received, cache)
    ensures CacheExact(h', i, nr, received', cache)
  {
    KeysStable(h, h');
    forall c: nat, n: nat | Passed(h', i, nr, c, n) ensures PlaceOk(h', received', cache, c, n) {
      assert Passed(h, i, nr, c, n);
    }
    forall name | name in cache ensures NameOk(h', i, nr, name) {
      var c :| Passed(h, i, nr, c, name.n) && name == NameOf(h, c, name.n);
      assert Passed(h', i, nr, c, name.n);
    }
  }

  lemma UndisturbedNothingAhead(h: History, h': History, i: nat, nr: nat, received: set<nat>, received': set<nat>)
    requires DistinctKeys(h) && DistinctKeys(h') && Undisturbed(h, h', i, received, received')
    requires NothingAhead(h, i, nr, received)
    ensures NothingAhead(h', i, nr, received')
  {
    forall c: nat, n: nat | 1 <= c < |h'.chains| && n < |h'.chains[c]| && Receives(i, c) && h'.chains[c][n] in received'
      ensures Passed(h', i, nr, c, n)
    {
      assert Passed(h, i, nr, c, n);
    }
  }

  /** What the other party does leaves a party's account of the history true. */
  lemma PartyUndisturbed(h: History, h': History, i: nat, received: set<nat>, received': set<nat>, s: RatchetState)
    requires DistinctKeys(h) && DistinctKeys(h') && Undisturbed(h, h', i, received, received')
    requires PartyOk(h, i, received, s)
    requires h'.chains[i] == h.chains[i] && (i >= 2 ==> h'.chains[i - 2] == h.chains[i - 2])
    ensures PartyOk(h', i, received', s)
  {
    KeysStable(h, h');
    CacheUndisturbed(h, h', i, s.Nr, received, received', s.skippedKeys);
    UndisturbedNothingAhead(h, h', i, s.Nr, received, received');
  }

  // ---------------------------------------------------------------- steps of one decrypt

  lemma SkipKeeps(h: History, i: nat, received: set<nat>, s: RatchetState, until: nat)
    requires DistinctKeys(h) && Midway(h, i, received, s)
    requires i >= 2 && s.Nr <= until <= |h.chains[i - 1]| && until - s.Nr <= MAX_SKIP
    ensures Skip(s, until).Ok?
    ensures Midway(h, i, received, Skip(s, until).value)
    ensures Skip(s, until).value.Nr == until
  {
    if s.Nr < until {
      CacheSkip(h, i, s.Nr, until, received, s.skippedKeys, s.CKr.value);
      AdvanceAdd(Seed(h.master, h.keys, i - 1), s.Nr, until - s.Nr);
    }
  }

  /** Opening message Nr of the current receiving chain. */
  lemma OpenNext(h: History, i: nat, received: set<nat>, s: RatchetState, p: Packet, text: Plaintext)
    requires DistinctKeys(h) && PlacesInverse(h) && Midway(h, i, received, s)
    requires i >= 2 && s.Nr < |h.chains[i - 1]| && Honest(h, i - 1, s.Nr, p, text)
    ensures DecryptOnChain(s, p).Ok? && DecryptOnChain(s, p).value.1 == text
    ensures PartyOk(h, i, received + {h.chains[i - 1][s.Nr]}, DecryptOnChain(s, p).value.0)
  {
    CacheConsume(h, i, s.Nr, received, s.skippedKeys);
    OpenedNothingAhead(h, i, s.Nr, received);
  }

  lemma SkipThenOpen(s: RatchetState, p: Packet)
    requires s.Nr <= p.header.n && Skip(s, p.header.n).Ok?
    ensures DecryptOnChain(s, p) == DecryptOnChain(Skip(s, p.header.n).value, p)
  {
  }

  /** Opening message n of the current receiving chain, n not behind the receiver. */
  lemma OpenAhead(h: History, i: nat, received: set<nat>, s: RatchetState, n: nat, p: Packet, text: Plaintext)
    requires DistinctKeys(h) && PlacesInverse(h) && Midway(h, i, received, s)
    requires i >= 2 && s.Nr <= n < |h.chains[i - 1]| && Honest(h, i - 1, n, p, text)
    ensures DecryptOnChain(s, p).Ok? <==> n - s.Nr <= MAX_SKIP
    ensures DecryptOnChain(s, p).Ok? ==>
              DecryptOnChain(s, p).value.1 == text
              && PartyOk(h, i, received + {h.chains[i - 1][n]}, DecryptOnChain(s, p).value.0)
  {
    hide Midway, PartyOk, DistinctKeys, PlacesInverse;
    if n - s.Nr <= MAX_SKIP {
      SkipKeeps(h, i, received, s, n);
      SkipThenOpen(s, p);
      OpenNext(h, i, received, Skip(s, n).value, p, text);
    }
  }

  lemma OpenedNothingAhead(h: History, i: nat, nr: nat, received: set<nat>)
    requires PlacesInverse(h) && NothingAhead(h, i, nr, received) && |h.chains| == |h.keys|
    requires 2 <= i < |h.chains| && nr < |h.chains[i - 1]|
    ensures NothingAhead(h, i, nr + 1, received + {h.chains[i - 1][nr]})
  {
    forall c: nat, n: nat | 1 <= c < |h.chains| && n < |h.chains[c]| && Receives(i, c)
                            && h.chains[c][n] in received + {h.chains[i - 1][nr]}
      ensures Passed(h, i, nr + 1, c, n)
    {
      if h.chains[c][n] in received {
        assert Passed(h, i, nr, c, n);
      } else {
        assert h.places[h.chains[c][n]] == Place(c, n);
      }
    }
  }

  /** The history after a new ratchet key takes over. */
  function Turned(h: History, newPriv: nat): History {
    h.(keys := h.keys + [newPriv], chains := h.chains + [[]])
  }

  lemma TurnedOk(h: History, newPriv: nat)
    requires DistinctKeys(h) && PlacesInverse(h) && newPriv !in h.keys
    ensures DistinctKeys(Turned(h, newPriv)) && PlacesInverse(Turned(h, newPriv)) && Extends(h, Turned(h, newPriv))
  {
  }

  lemma CacheTurn(h: History, i: nat, received: set<nat>, cache: SkippedKeys, newPriv: nat)
    requires DistinctKeys(h) && i + 2 == |h.keys|
    requires CacheExact(h, i, if i < 2 then 0 else |h.chains[i - 1]|, received, cache)
    ensures CacheExact(Turned(h, newPriv), i + 2, 0, received, cache)
  {
    var h' := Turned(h, newPriv);
    var nr := if i < 2 then 0 else |h.chains[i - 1]|;
    KeysStable(h, h');
    forall c: nat, n: nat | Passed(h', i + 2, 0, c, n) ensures PlaceOk(h', received, cache, c, n) {
      assert Passed(h, i, nr, c, n);
    }
    forall name | name in cache ensures NameOk(h', i + 2, 0, name) {
      var c :| Passed(h, i, nr, c, name.n) && name == NameOf(h, c, name.n);
      assert Passed(h', i + 2, 0, c, name.n);
    }
  }

  lemma TurnNothingAhead(h: History, i: nat, nr: nat, received: set<nat>, newPriv: nat)
    requires |h.chains| == |h.keys| == i + 2 && NothingAhead(h, i, nr, received)
    ensures NothingAhead(Turned(h, newPriv), i + 2, 0, received)
  {
    var h' := Turned(h, newPriv);
    forall c: nat, m: nat | 1 <= c < |h'.chains| && m < |h'.chains[c]| && Receives(i + 2, c)
                            && h'.chains[c][m] in received
      ensures Passed(h', i + 2, 0, c, m)
    {
      assert Passed(h, i, nr, c, m);
    }
  }

  /** The state that ratchetDecrypt builds around a fresh ratchet key is the one at position i + 2. */
  lemma TurnState(h: History, i: nat, s: RatchetState, newPriv: nat)
    requires DistinctKeys(h) && StateOk(h, i, s) && i + 2 == |h.keys|
    ensures var header := Header(PublicKey(h.keys[i + 1]), 0, s.Nr);
            DhStep(s, header, newPriv).Ok? && StateOk(Turned(h, newPriv), i + 2, DhStep(s, header, newPriv).value)
  {
    KeysStable(h, Turned(h, newPriv));
    DHAgreement(h.keys[i], h.keys[i + 1], 0);
  }

  /** A DH step on an honest header moves the receiver two positions, onto a fresh ratchet key. */
  lemma TurnKeeps(h: History, i: nat, received: set<nat>, s: RatchetState, header: Header, newPriv: nat)
    requires DistinctKeys(h) && Midway(h, i, received, s) && i + 2 == |h.keys|
    requires header.dh == PublicKey(h.keys[i + 1]) && header.pn == PreviousLength(h, i + 1)
    ensures DhStep(s, header, newPriv).Ok? <==> i < 2 || |h.chains[i - 1]| - s.Nr <= MAX_SKIP
    ensures DhStep(s, header, newPriv).Ok? ==>
              DhStep(s, header, newPriv).value.Nr == 0
              && Midway(Turned(h, newPriv), i + 2, received, DhStep(s, header, newPriv).value)
  {
    if i < 2 || |h.chains[i - 1]| - s.Nr <= MAX_SKIP {
      if i >= 2 {
        SkipKeeps(h, i, received, s, |h.chains[i - 1]|);
      }
      var s1 := if i >= 2 then Skip(s, header.pn).value else s;
      TurnState(h, i, s1, newPriv);
      CacheTurn(h, i, received, s1.skippedKeys, newPriv);
      TurnNothingAhead(h, i, s1.Nr, received, newPriv);
    }
  }

  // ---------------------------------------------------------------- one decrypt of an honest message

  lemma DecryptCached(h: History, i: nat, received: set<nat>, s: RatchetState, c: nat, n: nat,
                      p: Packet, text: Plaintext, newPriv: nat)
    requires DistinctKeys(h) && PlacesInverse(h) && PartyOk(h, i, received, s)
    requires Passed(h, i, s.Nr, c, n) && h.chains[c][n] !in received && Honest(h, c, n, p, text)
    ensures Decrypt(s, p, newPriv).Ok? && Decrypt(s, p, newPriv).value.1 == text && WithinLimit(s, p.header)
    ensures Decrypt(s, p, newPriv).value.0.DHs == s.DHs
    ensures PartyOk(h, i, received + {h.chains[c][n]}, Decrypt(s, p, newPriv).value.0)
  {
    assert PlaceOk(h, received, s.skippedKeys, c, n);
    CacheTake(h, i, s.Nr, received, s.skippedKeys, c, n);
    assert NothingAhead(h, i, s.Nr, received + {h.chains[c][n]}) by {
      assert h.places[h.chains[c][n]] == Place(c, n);
      forall d: nat, m: nat | 1 <= d < |h.chains| && m < |h.chains[d]| && Receives(i, d)
                              && h.chains[d][m] in received + {h.chains[c][n]}
        ensures Passed(h, i, s.Nr, d, m)
      {
        assert h.places[h.chains[d][m]] == Place(d, m);
      }
    }
  }

  /** A name that is not passed is not cached. */
  lemma NotCached(h: History, i: nat, nr: nat, received: set<nat>, cache: SkippedKeys, c: nat, n: nat)
    requires DistinctKeys(h) && CacheExact(h, i, nr, received, cache) && c < |h.keys|
    requires !Passed(h, i, nr, c, n)
    ensures NameOf(h, c, n) !in cache
  {
    if NameOf(h, c, n) in cache {
      var d :| Passed(h, i, nr, d, n) && NameOf(h, c, n) == NameOf(h, d, n);
      NamesDistinct(h, c, n, d, n);
    }
  }

  /** A position that is passed and not received is cached, under its sender's key. */
  lemma PassedCached(h: History, i: nat, nr: nat, received: set<nat>, cache: SkippedKeys, c: nat, n: nat)
    requires CacheExact(h, i, nr, received, cache) && c < |h.chains| && n < |h.chains[c]| && c < |h.keys|
    ensures Passed(h, i, nr, c, n) && h.chains[c][n] !in received ==>
              NameOf(h, c, n) in cache && cache[NameOf(h, c, n)] == KeyAt(h, c, n)
    ensures Passed(h, i, nr, c, n) && h.chains[c][n] in received ==> NameOf(h, c, n) !in cache
  {
    if Passed(h, i, nr, c, n) {
      assert PlaceOk(h, received, cache, c, n);
    }
  }

  /** Which part of ratchetDecrypt a header reaches when its key is not cached. */
  lemma DecryptUncached(s: RatchetState, p: Packet, newPriv: nat)
    requires SkippedName(p.header.dh, p.header.n) !in s.skippedKeys
    ensures s.DHr == Some(p.header.dh) ==> Decrypt(s, p, newPriv) == DecryptOnChain(s, p)
    ensures s.DHr != Some(p.header.dh) && DhStep(s, p.header, newPriv).Err? ==> Decrypt(s, p, newPriv).Err?
    ensures s.DHr != Some(p.header.dh) && DhStep(s, p.header, newPriv).Ok? ==>
              Decrypt(s, p, newPriv) == DecryptOnChain(DhStep(s, p.header, newPriv).value, p)
  {
    hide DecryptOnChain, DhStep;
  }

  /** Opening on a chain leaves the key pair alone; a DH step puts the fresh one in place. */
  lemma KeyPairAfter(s: RatchetState, p: Packet, newPriv: nat)
    ensures DecryptOnChain(s, p).Ok? ==> DecryptOnChain(s, p).value.0.DHs == s.DHs
    ensures DhStep(s, p.header, newPriv).Ok? ==> DhStep(s, p.header, newPriv).value.DHs == GenerateKeyPair(newPriv)
  {
  }

  lemma DecryptCurrent(h: History, i: nat, received: set<nat>, s: RatchetState, n: nat,
                       p: Packet, text: Plaintext, newPriv: nat)
    requires DistinctKeys(h) && PlacesInverse(h) && PartyOk(h, i, received, s)
    requires i >= 2 && s.Nr <= n < |h.chains[i - 1]| && Honest(h, i - 1, n, p, text)
    ensures Decrypt(s, p, newPriv).Ok? <==> WithinLimit(s, p.header)
    ensures Decrypt(s, p, newPriv).Ok? ==>
              Decrypt(s, p, newPriv).value.1 == text
              && Decrypt(s, p, newPriv).value.0.DHs == s.DHs
              && PartyOk(h, i, received + {h.chains[i - 1][n]}, Decrypt(s, p, newPriv).value.0)
  {
    hide DecryptOnChain, DhStep, Decrypt, CacheExact, NothingAhead, LastReceived;
    NotCached(h, i, s.Nr, received, s.skippedKeys, i - 1, n);
    DecryptUncached(s, p, newPriv);
    KeyPairAfter(s, p, newPriv);
    OpenAhead(h, i, received, s, n, p, text);
  }

  lemma DecryptNext(h: History, i: nat, received: set<nat>, s: RatchetState, n: nat,
                    p: Packet, text: Plaintext, newPriv: nat)
    requires DistinctKeys(h) && PlacesInverse(h) && PartyOk(h, i, received, s)
    requires i + 2 == |h.keys| && newPriv !in h.keys
    requires n < |h.chains[i + 1]| && Honest(h, i + 1, n, p, text)
    ensures Decrypt(s, p, newPriv).Ok? <==> WithinLimit(s, p.header)
    ensures Decrypt(s, p, newPriv).Ok? ==>
              Decrypt(s, p, newPriv).value.1 == text
              && Decrypt(s, p, newPriv).value.0.DHs != s.DHs
              && PartyOk(Turned(h, newPriv), i + 2, received + {h.chains[i + 1][n]}, Decrypt(s, p, newPriv).value.0)
  {
    hide DecryptOnChain, DhStep, Decrypt, CacheExact, NothingAhead, LastReceived, Root, Seed, Advance;
    NotCached(h, i, s.Nr, received, s.skippedKeys, i + 1, n);
    DecryptUncached(s, p, newPriv);
    KeyPairAfter(s, p, newPriv);
    TurnKeeps(h, i, received, s, p.header, newPriv);
    if DhStep(s, p.header, newPriv).Ok? {
      var h', s1 := Turned(h, newPriv), DhStep(s, p.header, newPriv).value;
      TurnedOk(h, newPriv);
      KeysStable(h, h');
      KeyPairAfter(s1, p, newPriv);
      OpenAhead(h', i + 2, received, s1, n, p, text);
    }
  }

  /** On the current chain, a counter behind Nr that is not cached opens nothing. */
  lemma ReplayOnChain(h: History, i: nat, received: set<nat>, s: RatchetState, n: nat, p: Packet, text: Plaintext)
    requires DistinctKeys(h) && PartyOk(h, i, received, s)
    requires i >= 2 && n < s.Nr && Honest(h, i - 1, n, p, text)
    ensures DecryptOnChain(s, p).Err?
  {
    if MessageKey(s.CKr.value) == p.ct.key {
      KeysDistinct(h, i - 1, n, i - 1, s.Nr);
    }
  }

  /** A DH step on an old ratchet key leads to a chain whose keys no honest message uses. */
  lemma StrayChain(h: History, i: nat, received: set<nat>, s: RatchetState, c: nat, n: nat,
                       p: Packet, text: Plaintext, newPriv: nat)
    requires DistinctKeys(h) && PartyOk(h, i, received, s)
    requires 1 <= c < i && Honest(h, c, n, p, text)
    requires DhStep(s, p.header, newPriv).Ok?
    ensures DecryptOnChain(DhStep(s, p.header, newPriv).value, p).Err?
  {
    var s1 := DhStep(s, p.header, newPriv).value;
    var stray := ChainSeed(Root(h.master, h.keys, i), DH(h.keys[i], p.header.dh));
    assert s1.CKr == Some(stray);
    if Skip(s1, n).Ok? {
      var s2 := Skip(s1, n).value;
      assert s2.CKr == Some(Advance(stray, n));
      if p.ct.key == MessageKey(s2.CKr.value) {
        AdvanceInjective(stray, n, Seed(h.master, h.keys, c), n);
        RootDepth(h.master, h.keys, i);
        RootDepth(h.master, h.keys, c - 1);
      }
    }
  }

  /**
   A replay from an epoch before the current one always takes the DH branch: its key is no longer
   cached and its ratchet key is not the current one. Whatever that branch does, nothing opens.
   */
  lemma ReplayOldEpoch(h: History, i: nat, received: set<nat>, s: RatchetState, c: nat, n: nat,
                       p: Packet, text: Plaintext, newPriv: nat)
    requires DistinctKeys(h) && PartyOk(h, i, received, s)
    requires c < i - 1 && Receives(i, c) && Honest(h, c, n, p, text)
    requires n < |h.chains[c]| && h.chains[c][n] in received
    ensures SkippedName(p.header.dh, p.header.n) !in s.skippedKeys && s.DHr != Some(p.header.dh)
    ensures Decrypt(s, p, newPriv).Err?
  {
    assert Passed(h, i, s.Nr, c, n);
    assert PlaceOk(h, received, s.skippedKeys, c, n);
    hide Decrypt, DhStep, DecryptOnChain, CacheExact, NothingAhead, LastReceived;
    assert h.keys[c] != h.keys[i - 1];
    DecryptUncached(s, p, newPriv);
    if DhStep(s, p.header, newPriv).Ok? {
      StrayChain(h, i, received, s, c, n, p, text, newPriv);
    }
  }

  /** A message that was received is never decrypted again, whatever epoch it is from. */
  lemma DecryptReplay(h: History, i: nat, received: set<nat>, s: RatchetState, c: nat, n: nat,
                      p: Packet, text: Plaintext, newPriv: nat)
    requires DistinctKeys(h) && PartyOk(h, i, received, s)
    requires c < |h.chains| && n < |h.chains[c]| && Receives(i, c) && Honest(h, c, n, p, text)
    requires h.chains[c][n] in received
    ensures Decrypt(s, p, newPriv).Err?
  {
    assert Passed(h, i, s.Nr, c, n);
    if c == i - 1 {
      assert PlaceOk(h, received, s.skippedKeys, c, n);
      hide Decrypt, DecryptOnChain, DhStep;
      DecryptUncached(s, p, newPriv);
      ReplayOnChain(h, i, received, s, n, p, text);
    } else {
      ReplayOldEpoch(h, i, received, s, c, n, p, text, newPriv);
    }
  }

  /** The history and the receiver's position after it opened a message of chain c. */
  function After(h: History, i: nat, c: nat, newPriv: nat): History {
    if c == i + 1 then Turned(h, newPriv) else h
  }

  function PositionAfter(i: nat, c: nat): nat {
    if c == i + 1 then i + 2 else i
  }

  /** One decrypt of any honest message: it succeeds exactly once, and exactly within the limit. */
  lemma DecryptHonest(h: History, i: nat, received: set<nat>, s: RatchetState, c: nat, n: nat,
                      p: Packet, text: Plaintext, newPriv: nat)
    requires DistinctKeys(h) && PlacesInverse(h) && PartyOk(h, i, received, s)
    requires i + 1 <= |h.keys| <= i + 2 && newPriv !in h.keys
    requires c < |h.chains| && n < |h.chains[c]| && Receives(i, c) && Honest(h, c, n, p, text)
    ensures Decrypt(s, p, newPriv).Ok? <==> h.chains[c][n] !in received && WithinLimit(s, p.header)
    ensures Decrypt(s, p, newPriv).Ok? ==>
              Decrypt(s, p, newPriv).value.1 == text
              && (Decrypt(s, p, newPriv).value.0.DHs == s.DHs <==> c != i + 1)
              && PartyOk(After(h, i, c, newPriv), PositionAfter(i, c), received + {h.chains[c][n]},
                         Decrypt(s, p, newPriv).value.0)
  {
    if h.chains[c][n] in received {
      DecryptReplay(h, i, received, s, c, n, p, text, newPriv);
    } else if Passed(h, i, s.Nr, c, n) {
      DecryptCached(h, i, received, s, c, n, p, text, newPriv);
    } else if c == i - 1 {
      DecryptCurrent(h, i, received, s, n, p, text, newPriv);
    } else {
      DecryptNext(h, i, received, s, n, p, text, newPriv);
    }
  }
}
