/**
 The Double Ratchet of ratchet.ts. States are values that every call copies, as in the
 source. The bytes of a ratchet key and its base64 text are one `PublicKey` here, and a
 skipped-key name `dh:n` is the pair (dh, n); module Encoding proves the texts faithful.
 A thrown exception is an `Err`, and then the caller still holds its old state.
 */
module Ratchet {
  import opened Wrappers
  import opened Crypto

  const MAX_SKIP := 1000

  datatype Error = TooManySkipped(gap: int) | MissingKey | AuthenticationFailed | NoSession

  datatype Result<+T> = Ok(value: T) | Err(error: Error) {
    predicate IsFailure() {
      Err?
    }

    function PropagateFailure<U>(): Result<U>
      requires Err?
    {
      Err(error)
    }

    function Extract(): T
      requires Ok?
    {
      value
    }
  }

  /** The map key `dh:n` of skippedKeys. */
  datatype SkippedName = SkippedName(dh: PublicKey, n: nat)

  type SkippedKeys = map<SkippedName, MessageKey>

  datatype RatchetState = RatchetState(
    RK: RootKey,
    CKs: Option<ChainKey>,
    CKr: Option<ChainKey>,
    DHs: KeyPair,
    DHr: Option<PublicKey>,
    Ns: nat,
    Nr: nat,
    PN: nat,
    skippedKeys: SkippedKeys,
    typingKey: TypingKey
  )

  datatype Header = Header(dh: PublicKey, n: nat, pn: nat)

  datatype Packet = Packet(header: Header, ct: Ciphertext, nonce: nat)

  function InitSender(master: RootKey, ek: KeyPair, bobSpk: PublicKey): RatchetState {
    var dhOut := DH(ek.priv, bobSpk);
    RatchetState(NextRoot(master, dhOut), Some(ChainSeed(master, dhOut)), None, ek, Some(bobSpk),
                 0, 0, 0, map[], TypingKey(master))
  }

  function InitReceiver(master: RootKey, spk: KeyPair): RatchetState {
    RatchetState(master, None, None, spk, None, 0, 0, 0, map[], TypingKey(master))
  }

  function Encrypt(s: RatchetState, text: Plaintext, nonce: nat): Result<(RatchetState, Packet)> {
    if s.CKs.None? then Err(MissingKey) else
    var ck := s.CKs.value;
    Ok((s.(CKs := Some(NextChain(ck)), Ns := s.Ns + 1),
        Packet(Header(s.DHs.pub, s.Ns, s.PN), Sealed(MessageKey(ck), nonce, text), nonce)))
  }

  /** The message keys of positions from..until on the chain whose key at position `from` is `ck`. */
  function KeysBetween(dh: PublicKey, ck: ChainKey, from: nat, until: nat): (m: SkippedKeys)
    requires from <= until
    ensures forall k :: k in m <==> k.dh == dh && from <= k.n < until
    ensures forall k :: k in m ==> m[k] == MessageKey(Advance(ck, k.n - from))
    decreases until
  {
    if until == from then map[]
    else KeysBetween(dh, ck, from, until - 1)[SkippedName(dh, until - 1) := MessageKey(Advance(ck, until - 1 - from))]
  }

  /** What skipMessageKeys returns, in closed form; the loop is `SkipMessageKeys` below. */
  function Skip(s: RatchetState, until: nat): Result<RatchetState> {
    if until - s.Nr > MAX_SKIP then Err(TooManySkipped(until - s.Nr))
    else if s.DHr.None? then Err(MissingKey)
    else if until <= s.Nr then Ok(s)
    else if s.CKr.None? then Err(MissingKey)
    else
      var ck := s.CKr.value;
      Ok(s.(CKr := Some(Advance(ck, until - s.Nr)), Nr := until,
            skippedKeys := s.skippedKeys + KeysBetween(s.DHr.value, ck, s.Nr, until)))
  }

  /** What the loop variables hold once every position before n is skipped. */
  ghost predicate SkippedTo(s: RatchetState, n: nat, CKr: Option<ChainKey>, newSkipped: SkippedKeys)
    requires s.DHr.Some?
  {
    && s.Nr <= n && (n > s.Nr ==> s.CKr.Some?)
    && (if s.CKr.None? then CKr.None? && newSkipped == s.skippedKeys
        else CKr == Some(Advance(s.CKr.value, n - s.Nr))
             && newSkipped == s.skippedKeys + KeysBetween(s.DHr.value, s.CKr.value, s.Nr, n))
  }

  lemma SkippedOneMore(s: RatchetState, n: nat, ck: ChainKey, newSkipped: SkippedKeys)
    requires s.DHr.Some? && SkippedTo(s, n, Some(ck), newSkipped)
    ensures SkippedTo(s, n + 1, Some(NextChain(ck)), newSkipped[SkippedName(s.DHr.value, n) := MessageKey(ck)])
  {
    var known := KeysBetween(s.DHr.value, s.CKr.value, s.Nr, n);
    var name := SkippedName(s.DHr.value, n);
    assert s.skippedKeys + known[name := MessageKey(ck)] == (s.skippedKeys + known)[name := MessageKey(ck)];
  }

  lemma SkippedAll(s: RatchetState, until: nat, n: nat, CKr: Option<ChainKey>, newSkipped: SkippedKeys)
    requires s.DHr.Some? && until - s.Nr <= MAX_SKIP && SkippedTo(s, n, CKr, newSkipped)
    requires n == if until <= s.Nr then s.Nr else until
    ensures Skip(s, until) == Ok(s.(CKr := CKr, Nr := n, skippedKeys := newSkipped))
  {
    if n == s.Nr && s.CKr.Some? {
      assert s.skippedKeys + map[] == s.skippedKeys;
    }
  }

  /** The loop of skipMessageKeys computes the closed form. */
  method SkipMessageKeys(s: RatchetState, until: nat) returns (r: Result<RatchetState>)
    ensures r == Skip(s, until)
  {
    if until - s.Nr > MAX_SKIP {
      return Err(TooManySkipped(until - s.Nr));
    }
    if s.DHr.None? {
      return Err(MissingKey);
    }
    var dhKey := s.DHr.value;
    var newSkipped, CKr, Nr := s.skippedKeys, s.CKr, s.Nr;
    while Nr < until
      invariant Nr <= if until <= s.Nr then s.Nr else until
      invariant SkippedTo(s, Nr, CKr, newSkipped)
    {
      if CKr.None? {
        return Err(MissingKey);
      }
      SkippedOneMore(s, Nr, CKr.value, newSkipped);
      newSkipped := newSkipped[SkippedName(dhKey, Nr) := MessageKey(CKr.value)];
      CKr := Some(NextChain(CKr.value));
      Nr := Nr + 1;
    }
    SkippedAll(s, until, Nr, CKr, newSkipped);
    r := Ok(s.(CKr := CKr, Nr := Nr, skippedKeys := newSkipped));
  }

  /** The part of ratchetDecrypt that runs when the header carries a new ratchet key. */
  function DhStep(s: RatchetState, header: Header, newPriv: nat): Result<RatchetState> {
    var s1 :- if s.DHr.Some? && s.CKr.Some? then Skip(s, header.pn) else Ok(s);
    var dhOut1 := DH(s1.DHs.priv, header.dh);
    var rk1 := NextRoot(s1.RK, dhOut1);
    var newPair := GenerateKeyPair(newPriv);
    var dhOut2 := DH(newPair.priv, header.dh);
    Ok(s1.(PN := s1.Ns, Ns := 0, Nr := 0,
           CKr := Some(ChainSeed(s1.RK, dhOut1)), DHr := Some(header.dh),
           RK := NextRoot(rk1, dhOut2), CKs := Some(ChainSeed(rk1, dhOut2)), DHs := newPair))
  }

  /** The rest of ratchetDecrypt: skip ahead on the current receiving chain and open. */
  function DecryptOnChain(s: RatchetState, p: Packet): Result<(RatchetState, Plaintext)> {
    var s1 :- Skip(s, p.header.n);
    if s1.CKr.None? then Err(MissingKey) else
    var ck := s1.CKr.value;
    match Open(MessageKey(ck), p.nonce, p.ct)
    case None => Err(AuthenticationFailed)
    case Some(text) => Ok((s1.(CKr := Some(NextChain(ck)), Nr := s1.Nr + 1), text))
  }

  /** ratchetDecrypt; `newPriv` is the private key it draws if the ratchet key is new. */
  function Decrypt(s: RatchetState, p: Packet, newPriv: nat): Result<(RatchetState, Plaintext)> {
    var name := SkippedName(p.header.dh, p.header.n);
    if name in s.skippedKeys then
      match Open(s.skippedKeys[name], p.nonce, p.ct)
      case None => Err(AuthenticationFailed)
      case Some(text) => Ok((s.(skippedKeys := s.skippedKeys - {name}), text))
    else
      var s1 :- if s.DHr == Some(p.header.dh) then Ok(s) else DhStep(s, p.header, newPriv);
      DecryptOnChain(s1, p)
  }

  /** What a caller of ratchetDecrypt can check beforehand: no gap exceeds the limit. */
  predicate WithinLimit(s: RatchetState, header: Header) {
    || SkippedName(header.dh, header.n) in s.skippedKeys
    || (s.DHr == Some(header.dh) && header.n - s.Nr <= MAX_SKIP)
    || (s.DHr != Some(header.dh) && header.n <= MAX_SKIP && (s.CKr.Some? ==> header.pn - s.Nr <= MAX_SKIP))
  }
}
