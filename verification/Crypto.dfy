/**
 Symbolic cryptography. Private keys are numbers, a Diffie-Hellman output is the
 unordered pair of the two private keys, and every key-derivation output is a free
 term, so that equal outputs mean equal inputs. Nothing here is assumed: the
 algebra the protocol relies on is proved from the terms.
 */
module Crypto {
  import opened Wrappers

  /** The public half of the private key with number `priv`. */
  datatype PublicKey = PublicKey(priv: nat)

  datatype KeyPair = KeyPair(priv: nat, pub: PublicKey)

  datatype SharedSecret = Shared(lo: nat, hi: nat)

  /** 32-byte roots: the X3DH master secret, or the first half of a KDF_RK output. */
  datatype RootKey = Master(inputs: seq<SharedSecret>) | NextRoot(root: RootKey, input: SharedSecret)

  /** Chain keys: the second half of a KDF_RK output, or the first half of a KDF_CK output. */
  datatype ChainKey = ChainSeed(root: RootKey, input: SharedSecret) | NextChain(chain: ChainKey)

  /** The second half of a KDF_CK output. */
  datatype MessageKey = MessageKey(chain: ChainKey)

  datatype TypingKey = TypingKey(master: RootKey)

  /** The two JSON objects the client seals: a message, or a copy for the sender's other devices. */
  datatype Plaintext = Message(senderId: nat, text: string) | SyncCopy(to: nat, text: string)

  /** An authenticated ciphertext: it opens under the same key and nonce only. */
  datatype Ciphertext = Sealed(key: MessageKey, nonce: nat, text: Plaintext)

  function GenerateKeyPair(priv: nat): KeyPair {
    KeyPair(priv, PublicKey(priv))
  }

  function DH(priv: nat, pub: PublicKey): SharedSecret {
    if priv <= pub.priv then Shared(priv, pub.priv) else Shared(pub.priv, priv)
  }

  function Open(key: MessageKey, nonce: nat, ct: Ciphertext): Option<Plaintext> {
    if ct.key == key && ct.nonce == nonce then Some(ct.text) else None
  }

  /** Two parties that swap public keys get the same secret, and nobody else does. */
  lemma DHAgreement(a: nat, b: nat, c: nat)
    ensures DH(a, PublicKey(b)) == DH(b, PublicKey(a))
    ensures DH(a, PublicKey(b)) == DH(c, PublicKey(b)) <==> a == c
  {
  }

  /** `n` applications of KDF_CK to a chain key. */
  function Advance(chain: ChainKey, n: nat): ChainKey {
    if n == 0 then chain else NextChain(Advance(chain, n - 1))
  }

  lemma {:induction false} AdvanceAdd(chain: ChainKey, m: nat, n: nat)
    ensures Advance(Advance(chain, m), n) == Advance(chain, m + n)
  {
    if n > 0 {
      AdvanceAdd(chain, m, n - 1);
    }
  }

  /** Positions on chains that start from KDF_RK outputs are all different. */
  lemma {:induction false} AdvanceInjective(c: ChainKey, m: nat, d: ChainKey, n: nat)
    requires c.ChainSeed? && d.ChainSeed?
    requires Advance(c, m) == Advance(d, n)
    ensures c == d && m == n
  {
    if m > 0 && n > 0 {
      AdvanceInjective(c, m - 1, d, n - 1);
    }
  }

  /** How many KDF_RK steps a root is away from its X3DH master secret. */
  function Depth(root: RootKey): nat {
    match root
    case Master(_) => 0
    case NextRoot(r, _) => 1 + Depth(r)
  }
}
