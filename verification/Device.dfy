/** The three peer tables of boringtun/src/device/mod.rs and the dispatch of packets to peers. */
module Device {
  import opened Wrappers
  import opened AllowedIps
  import opened IndexLfsr
  import opened LfsrPeriod
  import TunnelHistory

  type PublicKey = nat

  class Peer {
    const publicKey: PublicKey
    const index: nat                       // its tunnel starts at index * 256
    const allowedIps: Table<()>

    constructor (publicKey: PublicKey, index: nat, ips: seq<AllowedIp>)
      requires forall i | 0 <= i < |ips| :: ips[i].Valid()
      ensures this.publicKey == publicKey && this.index == index
      ensures allowedIps == InsertAll(map[], ips, ())
    {
      this.publicKey, this.index := publicKey, index;
      var table: Table<()> := map[];
      for i := 0 to |ips|
        invariant table == InsertAll(map[], ips[..i], ())
      {
        assert ips[..i + 1][..i] == ips[..i];
        table := Insert(table, ips[i], ());
      }
      assert ips[..|ips|] == ips;
      allowedIps := table;
    }

    predicate IsAllowedIp(a: Address) { Find(allowedIps, a).Some? }
  }

  /** Is p one of the peers? */
  predicate Has(peers: map<PublicKey, Peer>, p: Peer) {
    p.publicKey in peers && peers[p.publicKey] == p
  }

  /** The tables by key and by index hold the same peers, each under its own key and index. */
  predicate SamePeers(peers: map<PublicKey, Peer>, byIdx: map<nat, Peer>) {
    && (forall k | k in peers :: peers[k].publicKey == k)
    && (forall k | k in peers :: peers[k].index in byIdx && byIdx[peers[k].index] == peers[k])
    && (forall i | i in byIdx :: byIdx[i].index == i && i < 0x100_0000 && Has(peers, byIdx[i]))
  }

  /** Every route leads to a peer that allows the network. */
  predicate RoutesAllowed(peers: map<PublicKey, Peer>, byIp: Table<Peer>) {
    forall net | net in byIp :: Has(peers, byIp[net]) && net in byIp[net].allowedIps
  }

  lemma {:induction false} AddKeepsPeers(peers: map<PublicKey, Peer>, byIdx: map<nat, Peer>, p: Peer)
    requires SamePeers(peers, byIdx)
    requires p.publicKey !in peers && p.index !in byIdx && p.index < 0x100_0000
    ensures SamePeers(peers[p.publicKey := p], byIdx[p.index := p])
  {
  }

  lemma {:induction false} AddKeepsRoutes(peers: map<PublicKey, Peer>, byIp: Table<Peer>, p: Peer, ips: seq<AllowedIp>)
    requires RoutesAllowed(peers, byIp) && p.publicKey !in peers
    requires forall i | 0 <= i < |ips| :: ips[i].Valid()
    requires p.allowedIps == InsertAll(map[], ips, ())
    ensures RoutesAllowed(peers[p.publicKey := p], InsertAll(byIp, ips, p))
  {
    var after := InsertAll(byIp, ips, p);
    forall net | net in after
      ensures Has(peers[p.publicKey := p], after[net]) && net in after[net].allowedIps
    {
      InsertAllOwns(byIp, ips, p, net);
      InsertAllOwns(map[], ips, (), net);
    }
  }

  lemma {:induction false} RemoveKeepsPeers(peers: map<PublicKey, Peer>, byIdx: map<nat, Peer>, p: Peer)
    requires SamePeers(peers, byIdx) && Has(peers, p)
    ensures SamePeers(peers - {p.publicKey}, byIdx - {p.index})
  {
  }

  lemma {:induction false} RemoveKeepsRoutes(peers: map<PublicKey, Peer>, byIp: Table<Peer>, p: Peer)
    requires RoutesAllowed(peers, byIp) && Has(peers, p)
    ensures RoutesAllowed(peers - {p.publicKey}, Without(byIp, p))
  {
  }

  class Device {
    var peers: map<PublicKey, Peer>
    var peersByIdx: map<nat, Peer>
    var peersByIp: Table<Peer>
    const indices: IndexLfsr

    ghost predicate Valid()
      reads this, indices
    {
      && indices.Valid() && SamePeers(peers, peersByIdx) && RoutesAllowed(peers, peersByIp)
      && forall i | i in peersByIdx :: i in indices.issued
    }

    constructor (seed: bv32, mask: bv32)
      requires Proper(seed) && Proper(mask)
      ensures Valid() && fresh(indices) && peers == map[] && peersByIdx == map[] && peersByIp == map[]
    {
      peers, peersByIdx, peersByIp := map[], map[], map[];
      indices := new IndexLfsr(seed, mask);
    }

    /** Adding or removing a peer.  Changing one that exists, and adding one when 2^24 - 2 have been added
        in all, are panics in the source. */
    method UpdatePeer(publicKey: PublicKey, remove: bool, ips: seq<AllowedIp>)
      requires Valid() && forall i | 0 <= i < |ips| :: ips[i].Valid()
      requires !remove ==> publicKey !in peers && |indices.issued| < 0xff_fffe
      modifies this, indices
      ensures Valid()
      ensures if remove then Removed(publicKey) && indices.issued == old(indices.issued) else Added(publicKey, ips)
    {
      if remove {
        RemovePeer(publicKey);
      } else {
        AddPeer(publicKey, ips);
      }
    }

    /** What adding a peer leaves: it is in all tables, under an index never issued before, it owns
        the routes of its networks, and the rest is untouched. */
    twostate predicate Added(publicKey: PublicKey, ips: seq<AllowedIp>)
      requires forall i | 0 <= i < |ips| :: ips[i].Valid()
      reads this, indices
    {
      && publicKey in peers
      && var p := peers[publicKey];
         && p.index !in old(indices.issued) && indices.issued == old(indices.issued) + [p.index]
         && p.allowedIps == InsertAll(map[], ips, ())
         && peers == old(peers)[publicKey := p]
         && peersByIdx == old(peersByIdx)[p.index := p]
         && peersByIp == InsertAll(old(peersByIp), ips, p)
    }

    method AddPeer(publicKey: PublicKey, ips: seq<AllowedIp>)
      requires Valid() && forall i | 0 <= i < |ips| :: ips[i].Valid()
      requires publicKey !in peers && |indices.issued| < 0xff_fffe
      modifies this, indices
      ensures Valid() && Added(publicKey, ips)
    {
      ExhaustedIff(indices);
      var nextIndex := indices.Next();
      var p := new Peer(publicKey, nextIndex, ips);
      AddKeepsPeers(peers, peersByIdx, p);
      AddKeepsRoutes(peers, peersByIp, p, ips);
      peers := peers[publicKey := p];
      peersByIdx := peersByIdx[nextIndex := p];
      AddRoutes(ips, p);
    }

    method AddRoutes(ips: seq<AllowedIp>, p: Peer)
      requires forall i | 0 <= i < |ips| :: ips[i].Valid()
      modifies this`peersByIp
      ensures peersByIp == InsertAll(old(peersByIp), ips, p)
    {
      var i := 0;
      while i < |ips|
        invariant i <= |ips| && peersByIp == InsertAll(old(peersByIp), ips[..i], p)
      {
        assert ips[..i + 1][..i] == ips[..i];
        peersByIp := Insert(peersByIp, ips[i], p);
        i := i + 1;
      }
      assert ips[..|ips|] == ips;
    }

    /** What removing a key leaves: the peer is gone from all tables, the rest is untouched. */
    twostate predicate Removed(publicKey: PublicKey)
      reads this
    {
      if publicKey !in old(peers)
      then peers == old(peers) && peersByIdx == old(peersByIdx) && peersByIp == old(peersByIp)
      else
        var p := old(peers)[publicKey];
        && peers == old(peers) - {publicKey}
        && peersByIdx == old(peersByIdx) - {p.index}
        && peersByIp == Without(old(peersByIp), p)
    }

    /** Removing a peer leaves every other peer its addresses, and routes none to the one removed. */
    twostate lemma {:induction false} RemovalKeepsRoutes(publicKey: PublicKey, a: Address)
      requires publicKey in old(peers) && Removed(publicKey)
      ensures
        var p, found := old(peers)[publicKey], Find(old(peersByIp), a);
        && (found.Some? && found.value != p ==> Find(peersByIp, a) == found)
        && Find(peersByIp, a) != Some(p)
    {
      FindAfterRemoval(old(peersByIp), old(peers)[publicKey], a, |a.bits|);
    }

    method RemovePeer(publicKey: PublicKey)
      requires Valid()
      modifies this
      ensures Valid() && Removed(publicKey)
    {
      if publicKey in peers {
        var p := peers[publicKey];
        RemoveKeepsPeers(peers, peersByIdx, p);
        RemoveKeepsRoutes(peers, peersByIp, p);
        peers := peers - {publicKey};
        peersByIdx := peersByIdx - {p.index};
        peersByIp := Without(peersByIp, p);
      }
    }

    method ClearPeers()
      requires Valid()
      modifies this
      ensures Valid() && peers == map[] && peersByIdx == map[] && peersByIp == map[]
    {
      peers, peersByIdx, peersByIp := map[], map[], map[];
    }

    /** The peer a response, a cookie reply or a data packet is for. */
    method PeerForReceiver(receiverIdx: nat) returns (p: Option<Peer>)
      requires Valid()
      ensures p.Some? <==> exists k | k in peers :: peers[k].index == receiverIdx / 256
      ensures p.Some? ==> Has(peers, p.value) && p.value.index == receiverIdx / 256
    {
      var key := receiverIdx / 256;
      p := if key in peersByIdx then Some(peersByIdx[key]) else None;
    }

    /** No two peers share an index. */
    lemma {:induction false} IndicesDiffer(p: Peer, q: Peer)
      requires Valid() && Has(peers, p) && Has(peers, q) && p.index == q.index
      ensures p == q
    {
    }

    /** A route to p for an address means that p accepts the address as a source. */
    lemma {:induction false} RoutedIsAllowed(a: Address)
      requires Valid() && Find(peersByIp, a).Some?
      ensures Has(peers, Find(peersByIp, a).value) && Find(peersByIp, a).value.IsAllowedIp(a)
    {
      var p := Find(peersByIp, a).value;
      var k := FindsLongest(peersByIp, a, |a.bits|);
      var j := FindsLongest(p.allowedIps, a, |a.bits|);
    }

    /** Whatever its tunnel has been through, an index that it puts into a handshake message
        leads back to this peer. */
    lemma {:induction false} EmittedIndexFindsPeer(
      p: Peer, hybrid: bool, keepalive: nat, calls: seq<TunnelHistory.Call>, c: TunnelHistory.Call, out: nat)
      requires Valid() && Has(peers, p)
      requires TunnelHistory.PutsOut(hybrid, p.index, keepalive, calls, c, out)
      ensures out / 256 in peersByIdx && peersByIdx[out / 256] == p
    {
      TunnelHistory.EmittedNamesPeer(hybrid, p.index, keepalive, calls, c, out);
      NamedIndexFindsPeer(peers, peersByIdx, p, out / 256);
    }
  }

  lemma {:induction false} NamedIndexFindsPeer(peers: map<PublicKey, Peer>, byIdx: map<nat, Peer>, p: Peer, key: nat)
    requires SamePeers(peers, byIdx) && Has(peers, p) && key == p.index % 0x100_0000
    ensures key in byIdx && byIdx[key] == p
  {
    assert peers[p.publicKey].index in byIdx;
    SmallModulus(p.index);
  }

  lemma {:induction false} SmallModulus(index: nat)
    ensures index < 0x100_0000 ==> index % 0x100_0000 == index
  {
  }
}
