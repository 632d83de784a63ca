/**
 Ratchet states through the sessions table: what is put for a state, what can be read back as a state,
 and two-party runs in which the parties save and reload at any time.
 */
module SavedSessions {
  import opened Wrappers
  import opened Crypto
  import opened Ratchet
  import opened TwoParty
  import opened Storage
  import opened Encoding

  /** The bytes of the terms that a state holds. */
  datatype Coding = Coding(
    pub: PublicKey -> seq<Byte>,
    priv: nat -> seq<Byte>,
    root: RootKey -> seq<Byte>,
    chain: ChainKey -> seq<Byte>,
    message: MessageKey -> seq<Byte>,
    typing: TypingKey -> seq<Byte>
  )

  /** Different keys have different bytes, and a message key has some. */
  ghost predicate Faithful(code: Coding) {
    && (forall a, b :: code.pub(a) == code.pub(b) ==> a == b)
    && (forall a, b :: code.priv(a) == code.priv(b) ==> a == b)
    && (forall a, b :: code.root(a) == code.root(b) ==> a == b)
    && (forall a, b :: code.chain(a) == code.chain(b) ==> a == b)
    && (forall a, b :: code.message(a) == code.message(b) ==> a == b)
    && (forall a, b :: code.typing(a) == code.typing(b) ==> a == b)
    && (forall a :: code.message(a) != [])
  }

  /** The entries of a Map in some order, each once. */
  predicate Lists(cache: SkippedKeys, order: seq<SkippedName>) {
    && (forall i, j :: 0 <= i < j < |order| ==> order[i] != order[j])
    && (forall name :: name in cache ==> name in order)
    && (forall i :: 0 <= i < |order| ==> order[i] in cache)
  }

  function ChainOrNull(code: Coding, ck: Option<ChainKey>): Option<seq<Byte>> {
    if ck.None? then None else Some(code.chain(ck.value))
  }

  function Entries(code: Coding, cache: SkippedKeys, order: seq<SkippedName>): seq<Entry<seq<Byte>>>
    requires Lists(cache, order)
  {
    seq(|order|, i requires 0 <= i < |order| =>
          Entry(SkippedNameText(code.pub(order[i].dh), order[i].n), code.message(cache[order[i]])))
  }

  /** The state as the client holds it in memory. */
  function Encode(code: Coding, s: RatchetState, order: seq<SkippedName>): Session
    requires Lists(s.skippedKeys, order)
  {
    Session(code.root(s.RK), ChainOrNull(code, s.CKs), ChainOrNull(code, s.CKr), code.pub(s.DHs.pub),
            code.priv(s.DHs.priv), if s.DHr.None? then None else Some(code.pub(s.DHr.value)), s.Ns, s.Nr, s.PN,
            Entries(code, s.skippedKeys, order), code.typing(s.typingKey))
  }

  lemma EntryNames(code: Coding, cache: SkippedKeys, order: seq<SkippedName>, i: nat, cache': SkippedKeys,
                   order': seq<SkippedName>, j: nat)
    requires Faithful(code) && Lists(cache, order) && Lists(cache', order') && i < |order| && j < |order'|
    requires Entries(code, cache, order)[i].key == Entries(code, cache', order')[j].key
    ensures order[i] == order'[j]
  {
    hide SkippedNameText;
    SkippedNamesDistinct(code.pub(order[i].dh), order[i].n, code.pub(order'[j].dh), order'[j].n);
  }

  /** The texts under which a state's skipped keys are kept are all different. */
  lemma EncodedNamesDistinct(code: Coding, s: RatchetState, order: seq<SkippedName>)
    requires Faithful(code) && Lists(s.skippedKeys, order)
    ensures DistinctNames(Encode(code, s, order).skippedKeys)
  {
    hide SkippedNameText;
    var entries := Entries(code, s.skippedKeys, order);
    forall i, j | 0 <= i < j < |entries| ensures entries[i].key != entries[j].key {
      if entries[i].key == entries[j].key {
        EntryNames(code, s.skippedKeys, order, i, s.skippedKeys, order, j);
      }
    }
  }

  lemma EntriesInjective(code: Coding, cache: SkippedKeys, order: seq<SkippedName>, cache': SkippedKeys,
                         order': seq<SkippedName>)
    requires Faithful(code) && Lists(cache, order) && Lists(cache', order')
    requires Entries(code, cache, order) == Entries(code, cache', order')
    ensures cache == cache'
  {
    hide SkippedNameText;
    var entries := Entries(code, cache, order);
    assert |order| == |entries| == |order'|;
    forall i | 0 <= i < |order| ensures order[i] == order'[i] && cache[order[i]] == cache'[order[i]] {
      EntryNames(code, cache, order, i, cache', order', i);
      assert entries[i].value == Entries(code, cache', order')[i].value;
    }
    assert order == order';
  }

  /** A session in memory determines the state it holds. */
  lemma EncodeInjective(code: Coding, s: RatchetState, order: seq<SkippedName>, s': RatchetState,
                        order': seq<SkippedName>)
    requires Faithful(code) && Lists(s.skippedKeys, order) && Lists(s'.skippedKeys, order')
    requires Encode(code, s, order) == Encode(code, s', order')
    ensures s == s'
  {
    EntriesInjective(code, s.skippedKeys, order, s'.skippedKeys, order');
  }

  ghost predicate Reads(code: Coding, session: Session, s: RatchetState) {
    exists order :: Lists(s.skippedKeys, order) && Encode(code, s, order) == session
  }

  /**
   What comes back for a saved state, in any of its shapes, reads as the saved state and no other if
   no skipped key came back as a plain object, and as no state at all otherwise.
   */
  lemma RestoreReadsTheState(code: Coding, key: string, s: RatchetState, order: seq<SkippedName>, got: Record,
                             s': RatchetState)
    requires Faithful(code) && Lists(s.skippedKeys, order) && ComesBackAs(Serialize(key, Encode(code, s, order)), got)
    ensures Reads(code, Deserialize(got), s') <==> s' == s && ValuesIntact(Encode(code, s, order), got)
  {
    var session := Encode(code, s, order);
    EncodedNamesDistinct(code, s, order);
    RestoreIsExact(key, session, got);
    if Reads(code, Deserialize(got), s') {
      var order' :| Lists(s'.skippedKeys, order') && Encode(code, s', order') == Deserialize(got);
      NoneLost(code, key, s, order, got, s', order');
      EncodeInjective(code, s, order, s', order');
    }
  }

  lemma NoneLost(code: Coding, key: string, s: RatchetState, order: seq<SkippedName>, got: Record,
                 s': RatchetState, order': seq<SkippedName>)
    requires Faithful(code) && Lists(s.skippedKeys, order) && ComesBackAs(Serialize(key, Encode(code, s, order)), got)
    requires Lists(s'.skippedKeys, order') && Encode(code, s', order') == Deserialize(got)
    ensures ValuesIntact(Encode(code, s, order), got)
  {
    var session, pairs := Encode(code, s, order), got.skippedKeys.value;
    EncodedNamesDistinct(code, s, order);
    assert forall i :: 0 <= i < |pairs| ==> pairs[i].key == session.skippedKeys[i].key;
    NewMapIsPointwise(pairs);
    forall i | 0 <= i < |pairs| ensures !pairs[i].value.Indexed? {
      assert Entries(code, s'.skippedKeys, order')[i].value == NewUint8Array(pairs[i].value);
    }
  }

  // ---------------------------------------------------------------- runs with saves and reloads

  /** `got` is what the table gives back for a save of the party's session. */
  datatype Event = Act(action: Action) | Reload(who: Party, key: string, got: Record)

  ghost function Reloaded(code: Coding, w: World, who: Party, got: Record): World {
    if exists s :: Reads(code, Deserialize(got), s) then
      var s :| Reads(code, Deserialize(got), s);
      w.With(who, s)
    else w
  }

  ghost function StepStored(code: Coding, w: World, e: Event): World {
    match e
    case Act(a) => Step(w, a)
    case Reload(who, _, got) => Reloaded(code, w, who, got)
  }

  ghost function RunStored(code: Coding, w: World, events: seq<Event>): World {
    if events == [] then w else StepStored(code, RunStored(code, w, events[..|events| - 1]), events[|events| - 1])
  }

  /** The record was saved for the session the party holds, and no skipped key came back as a plain object. */
  ghost predicate OwnRecord(code: Coding, w: World, e: Event) {
    e.Reload? ==>
      exists order :: Lists(w.State(e.who).skippedKeys, order)
        && ComesBackAs(Serialize(e.key, Encode(code, w.State(e.who), order)), e.got)
        && ValuesIntact(Encode(code, w.State(e.who), order), e.got)
  }

  ghost predicate OwnRecords(code: Coding, w: World, events: seq<Event>) {
    events != [] ==>
      OwnRecords(code, w, events[..|events| - 1])
        && OwnRecord(code, RunStored(code, w, events[..|events| - 1]), events[|events| - 1])
  }

  function Actions(events: seq<Event>): seq<Action> {
    if events == [] then []
    else Actions(events[..|events| - 1]) + if events[|events| - 1].Act? then [events[|events| - 1].action] else []
  }

  lemma ReloadIsIdentity(code: Coding, w: World, e: Event)
    requires Faithful(code) && e.Reload? && OwnRecord(code, w, e)
    ensures Reloaded(code, w, e.who, e.got) == w
  {
    hide ComesBackAs, Serialize, Deserialize, ValuesIntact, Encode, Faithful;
    var s := w.State(e.who);
    var order :| Lists(s.skippedKeys, order) && ComesBackAs(Serialize(e.key, Encode(code, s, order)), e.got)
                 && ValuesIntact(Encode(code, s, order), e.got);
    forall s' ensures Reads(code, Deserialize(e.got), s') <==> s' == s {
      RestoreReadsTheState(code, e.key, s, order, e.got, s');
    }
  }

  /**
   Saves and reloads of either party, at any points of a two-party run, leave every later encrypt and
   decrypt, and so the whole world, as if they had not been there.
   */
  lemma {:induction false} ReloadsChangeNothing(code: Coding, w: World, events: seq<Event>)
    requires Faithful(code) && OwnRecords(code, w, events)
    ensures RunStored(code, w, events) == Run(w, Actions(events))
  {
    hide Step, Faithful, Reloaded, OwnRecord;
    if events != [] {
      var front, e := events[..|events| - 1], events[|events| - 1];
      ReloadsChangeNothing(code, w, front);
      if e.Act? {
        assert Actions(events)[..|Actions(front)|] == Actions(front);
      } else {
        ReloadIsIdentity(code, RunStored(code, w, front), e);
        assert Actions(events) == Actions(front);
      }
    }
  }

  /** So what is proved of every reachable world holds of runs with saves and reloads. */
  lemma StoredReachable(code: Coding, master: RootKey, ek: nat, spk: nat, nextKey: nat, events: seq<Event>)
    requires Faithful(code) && StartOk(master, ek, spk, nextKey)
          && OwnRecords(code, Start(master, ek, spk, nextKey), events)
    ensures Reachable(RunStored(code, Start(master, ek, spk, nextKey), events))
  {
    ReloadsChangeNothing(code, Start(master, ek, spk, nextKey), events);
  }

  // ---------------------------------------------------------------- such codings exist

  /** Every text below ends where its own bytes say, so that what follows it can be told apart. */
  function Unary(n: nat): seq<Byte> {
    if n == 0 then [0] else [1] + Unary(n - 1)
  }

  function SecretBytes(s: SharedSecret): seq<Byte> {
    Unary(s.lo) + Unary(s.hi)
  }

  function SecretsBytes(l: seq<SharedSecret>): seq<Byte> {
    if l == [] then [0] else [1] + SecretBytes(l[0]) + SecretsBytes(l[1..])
  }

  function RootBytes(r: RootKey): seq<Byte> {
    match r
    case Master(inputs) => [0] + SecretsBytes(inputs)
    case NextRoot(root, input) => [1] + SecretBytes(input) + RootBytes(root)
  }

  function ChainBytes(c: ChainKey): seq<Byte> {
    match c
    case ChainSeed(root, input) => [0] + SecretBytes(input) + RootBytes(root)
    case NextChain(chain) => [1] + ChainBytes(chain)
  }

  function PlainCoding(): Coding {
    Coding((k: PublicKey) => Unary(k.priv), (n: nat) => Unary(n), (r: RootKey) => RootBytes(r),
           (c: ChainKey) => ChainBytes(c), (k: MessageKey) => ChainBytes(k.chain),
           (k: TypingKey) => RootBytes(k.master))
  }

  /** Equal texts with tails start with the same byte and go on equally. */
  lemma SameHead(a: seq<Byte>, x: seq<Byte>, b: seq<Byte>, y: seq<Byte>)
    requires a != [] && b != [] && a + x == b + y
    ensures a[0] == b[0] && a[1..] + x == b[1..] + y
  {
    assert (a + x)[0] == a[0] && (b + y)[0] == b[0];
    assert (a + x)[1..] == a[1..] + x && (b + y)[1..] == b[1..] + y;
  }

  lemma Tail(head: Byte, a: seq<Byte>, b: seq<Byte>, x: seq<Byte>)
    ensures ([head] + a + b)[1..] + x == a + (b + x)
  {
  }

  lemma {:induction false} UnarySplits(m: nat, x: seq<Byte>, n: nat, y: seq<Byte>)
    requires Unary(m) + x == Unary(n) + y
    ensures m == n && x == y
  {
    SameHead(Unary(m), x, Unary(n), y);
    if m > 0 && n > 0 {
      assert Unary(m)[1..] == Unary(m - 1) && Unary(n)[1..] == Unary(n - 1);
      UnarySplits(m - 1, x, n - 1, y);
    } else if m == 0 && n == 0 {
      assert [] + x == x && [] + y == y;
    }
  }

  lemma SecretSplits(s: SharedSecret, x: seq<Byte>, t: SharedSecret, y: seq<Byte>)
    requires SecretBytes(s) + x == SecretBytes(t) + y
    ensures s == t && x == y
  {
    hide Unary;
    assert SecretBytes(s) + x == Unary(s.lo) + (Unary(s.hi) + x);
    assert SecretBytes(t) + y == Unary(t.lo) + (Unary(t.hi) + y);
    UnarySplits(s.lo, Unary(s.hi) + x, t.lo, Unary(t.hi) + y);
    UnarySplits(s.hi, x, t.hi, y);
  }

  lemma {:induction false} SecretsSplit(l: seq<SharedSecret>, x: seq<Byte>, k: seq<SharedSecret>, y: seq<Byte>)
    requires SecretsBytes(l) + x == SecretsBytes(k) + y
    ensures l == k && x == y
  {
    hide SecretBytes;
    SameHead(SecretsBytes(l), x, SecretsBytes(k), y);
    if l != [] && k != [] {
      Tail(1, SecretBytes(l[0]), SecretsBytes(l[1..]), x);
      Tail(1, SecretBytes(k[0]), SecretsBytes(k[1..]), y);
      SecretSplits(l[0], SecretsBytes(l[1..]) + x, k[0], SecretsBytes(k[1..]) + y);
      SecretsSplit(l[1..], x, k[1..], y);
      assert l == [l[0]] + l[1..] && k == [k[0]] + k[1..];
    } else if l == [] && k == [] {
      assert [] + x == x && [] + y == y;
    }
  }

  lemma {:induction false} RootSplits(r: RootKey, x: seq<Byte>, q: RootKey, y: seq<Byte>)
    requires RootBytes(r) + x == RootBytes(q) + y
    ensures r == q && x == y
  {
    hide SecretBytes, SecretsBytes;
    SameHead(RootBytes(r), x, RootBytes(q), y);
    if r.Master? && q.Master? {
      assert RootBytes(r)[1..] == SecretsBytes(r.inputs) && RootBytes(q)[1..] == SecretsBytes(q.inputs);
      SecretsSplit(r.inputs, x, q.inputs, y);
    } else if r.NextRoot? && q.NextRoot? {
      Tail(1, SecretBytes(r.input), RootBytes(r.root), x);
      Tail(1, SecretBytes(q.input), RootBytes(q.root), y);
      SecretSplits(r.input, RootBytes(r.root) + x, q.input, RootBytes(q.root) + y);
      RootSplits(r.root, x, q.root, y);
    }
  }

  lemma {:induction false} ChainSplits(c: ChainKey, x: seq<Byte>, d: ChainKey, y: seq<Byte>)
    requires ChainBytes(c) + x == ChainBytes(d) + y
    ensures c == d && x == y
  {
    hide SecretBytes, RootBytes;
    SameHead(ChainBytes(c), x, ChainBytes(d), y);
    if c.ChainSeed? && d.ChainSeed? {
      Tail(0, SecretBytes(c.input), RootBytes(c.root), x);
      Tail(0, SecretBytes(d.input), RootBytes(d.root), y);
      SecretSplits(c.input, RootBytes(c.root) + x, d.input, RootBytes(d.root) + y);
      RootSplits(c.root, x, d.root, y);
    } else if c.NextChain? && d.NextChain? {
      assert ChainBytes(c)[1..] == ChainBytes(c.chain) && ChainBytes(d)[1..] == ChainBytes(d.chain);
      ChainSplits(c.chain, x, d.chain, y);
    }
  }

  /** The terms can be written as bytes so that different terms have different bytes. */
  lemma PlainCodingFaithful()
    ensures Faithful(PlainCoding())
  {
    hide Unary, RootBytes, ChainBytes;
    forall m: nat, n: nat | Unary(m) == Unary(n) ensures m == n {
      UnarySplits(m, [], n, []);
    }
    forall r, q | RootBytes(r) == RootBytes(q) ensures r == q {
      RootSplits(r, [], q, []);
    }
    forall c, d | ChainBytes(c) == ChainBytes(d) ensures c == d {
      ChainSplits(c, [], d, []);
    }
    forall c ensures ChainBytes(c) != [] {
      ChainNonEmpty(c);
    }
  }

  lemma ChainNonEmpty(c: ChainKey)
    ensures ChainBytes(c) != []
  {
  }
}
