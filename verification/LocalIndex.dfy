/** Local session indices: 24 bits name the peer, the low 8 bits count sessions cyclically
    (boringtun/src/noise/handshake.rs, `inc_index`). */
module LocalIndex {
  const N_SESSIONS: nat := 8

  /** `inc_index`: the low byte wraps, the peer bits stay. */
  function Inc(index: nat): nat {
    index - index % 256 + (index % 256 + 1) % 256
  }

  /** The index the tunnel with base `peer * 256` issues as its n-th one. */
  function Nth(peer: nat, n: nat): nat {
    256 * peer + n % 256
  }

  /** Despite the 8-bit wrap, issuing stays in step with counting: the n-th index lies in ring
      slot n mod 8, and shifting any issued index right by 8 gives the peer back. */
  lemma {:induction false} NthIssued(peer: nat, n: nat)
    ensures Inc(Nth(peer, n)) == Nth(peer, n + 1)
    ensures Nth(peer, n) % N_SESSIONS == n % N_SESSIONS
    ensures Nth(peer, n) / 256 == peer
  {
    var q, r := n / 256, n % 256;
    assert Nth(peer, n) == 256 * peer + r;
    LowByte(peer, r);
    assert n == 256 * q + r;
    LowByte(q, r);
    assert (n + 1) % 256 == (r + 1) % 256;
  }

  lemma {:induction false} LowByte(q: nat, r: nat)
    requires r < 256
    ensures (256 * q + r) / 256 == q && (256 * q + r) % 256 == r
    ensures (256 * q + r) % N_SESSIONS == r % N_SESSIONS
  {
    var k, m := r / 8, r % 8;
    assert r == 8 * k + m;
    InSlot(32 * q + k, m);
  }

  lemma {:induction false} InSlot(k: nat, m: nat)
    requires m < 8
    ensures (8 * k + m) % 8 == m
  {
  }
}
