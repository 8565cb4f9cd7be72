/** Symbolic cryptography.  Bytes that the protocol treats as opaque are terms; every
    primitive is an injective constructor, and opening or decapsulating inspects terms. */
module Terms {
  import opened Wrappers

  type Byte = n: nat | n < 256
  type Bytes = seq<Byte>

  datatype Term =
    | Label(text: string)
    | Tag(value: nat)                                  // small constants and 32-bit indices
    | Empty
    | Data(bytes: Bytes)
    | ZeroKey                                          // 32 (or 16) zero bytes
    | Secret(id: nat)                                  // preshared keys, limiter secrets
    | Pub(secret: nat)                                 // X25519 public key of a private key
    | Shared(lo: nat, hi: nat)                         // X25519 result, private keys in order
    | SharedOdd(secret: nat, point: Term)              // X25519 with bytes that are no known key
    | Hash(left: Term, right: Term)
    | Hmac(key: Term, data: Term)
    | Pair(first: Term, second: Term)
    | Seal(key: Term, nonce: nat, plain: Term, aad: Term)
    | XSeal(key: Term, xnonce: Term, plain: Term, aad: Term)
    | Mac(key: Term, body: Term)
    | Wire(fields: seq<Term>)                          // fixed-width fields laid end to end
    | KemPub(dk: nat)
    | KemCt(dk: nat, coins: nat)
    | KemSecret(dk: nat, coins: nat)
    | KemReject(dk: nat, ct: Term)                     // implicit rejection, FIPS 203 section 6.3
    | Noise(id: nat)                                   // bytes without structure

  function Dh(secret: nat, point: Term): Term {
    match point
    case Pub(other) => if secret <= other then Shared(secret, other) else Shared(other, secret)
    case _ => SharedOdd(secret, point)
  }

  lemma {:induction false} DhCommutes(a: nat, b: nat)
    ensures Dh(a, Pub(b)) == Dh(b, Pub(a))
  {
  }

  function Open(key: Term, nonce: nat, box: Term, aad: Term): Option<Term> {
    if box.Seal? && box.key == key && box.nonce == nonce && box.aad == aad
    then Some(box.plain) else None
  }

  function XOpen(key: Term, xnonce: Term, box: Term, aad: Term): Option<Term> {
    if box.XSeal? && box.key == key && box.xnonce == xnonce && box.aad == aad
    then Some(box.plain) else None
  }

  /** Decapsulation never fails: a ciphertext made for another key, or changed on the way,
      yields a secret that only the key holder could compute and nobody else holds. */
  function Decap(dk: nat, ct: Term): Term {
    if ct.KemCt? && ct.dk == dk then KemSecret(dk, ct.coins) else KemReject(dk, ct)
  }

  /** Decapsulation is injective in the ciphertext, so a changed ciphertext changes the secret. */
  lemma {:induction false} DecapInjective(dk: nat, ct: Term, ct': Term)
    ensures Decap(dk, ct) == Decap(dk, ct') <==> ct == ct'
  {
  }
}
