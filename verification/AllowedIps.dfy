/** Routing tables from networks to owners (boringtun/src/device/allowed_ips.rs): insertion
    truncates, lookup takes the longest match. */
module AllowedIps {
  import opened Wrappers

  /** An IPv4 or IPv6 address as its bits, most significant first. */
  datatype Address = Address(v6: bool, bits: seq<bool>) {
    predicate Valid() { |bits| == if v6 then 128 else 32 }
  }

  datatype AllowedIp = AllowedIp(addr: Address, cidr: nat) {
    predicate Valid() { addr.Valid() && cidr <= |addr.bits| }
  }

  datatype Network = Network(v6: bool, prefix: seq<bool>)

  type Table<T> = map<Network, T>

  /** The network of the first n bits of an address. */
  function Truncate(a: Address, n: nat): Network
    requires n <= |a.bits|
  {
    Network(a.v6, a.bits[..n])
  }

  /** Two addresses share an n-bit network exactly if family and first n bits agree. */
  lemma {:induction false} SameNetworkIff(a: Address, b: Address, n: nat)
    requires n <= |a.bits| && n <= |b.bits|
    ensures Truncate(a, n) == Truncate(b, n) <==> a.v6 == b.v6 && forall i | 0 <= i < n :: a.bits[i] == b.bits[i]
  {
    if a.v6 == b.v6 && forall i | 0 <= i < n :: a.bits[i] == b.bits[i] {
      assert a.bits[..n] == b.bits[..n];
    } else if Truncate(a, n) == Truncate(b, n) {
      forall i | 0 <= i < n
        ensures a.bits[i] == b.bits[i]
      {
        assert a.bits[..n][i] == b.bits[..n][i];
      }
    }
  }

  function Insert<T>(table: Table<T>, ip: AllowedIp, data: T): Table<T>
    requires ip.Valid()
  {
    table[Truncate(ip.addr, ip.cidr) := data]
  }

  function InsertAll<T>(table: Table<T>, ips: seq<AllowedIp>, data: T): Table<T>
    requires forall i | 0 <= i < |ips| :: ips[i].Valid()
  {
    if ips == [] then table else Insert(InsertAll(table, ips[..|ips| - 1], data), ips[|ips| - 1], data)
  }

  /** The entry of the longest network with at most n bits that holds the address. */
  function FindUpTo<T>(table: Table<T>, a: Address, n: nat): Option<T>
    requires n <= |a.bits|
  {
    if Truncate(a, n) in table then Some(table[Truncate(a, n)])
    else if n == 0 then None
    else FindUpTo(table, a, n - 1)
  }

  function Find<T>(table: Table<T>, a: Address): Option<T> { FindUpTo(table, a, |a.bits|) }

  /** Lookup finds the entry with the most bits, and finds none only if there is none. */
  lemma {:induction false} FindsLongest<T>(table: Table<T>, a: Address, n: nat) returns (k: nat)
    requires n <= |a.bits|
    ensures k <= n
    ensures FindUpTo(table, a, n).Some? ==>
              && Truncate(a, k) in table && FindUpTo(table, a, n).value == table[Truncate(a, k)]
              && forall j | k < j <= n :: Truncate(a, j) !in table
    ensures FindUpTo(table, a, n).None? ==> forall j | 0 <= j <= n :: Truncate(a, j) !in table
  {
    k := n;
    if Truncate(a, n) in table || n == 0 {
    } else {
      k := FindsLongest(table, a, n - 1);
    }
  }

  /** Keep the entries whose owner is not `data`. */
  function Without<T(==)>(table: Table<T>, data: T): Table<T> {
    map net | net in table && table[net] != data :: table[net]
  }

  /** Removing an owner removes its entries and keeps every entry of the others. */
  lemma {:induction false} RemovalKeepsOthers<T>(table: Table<T>, data: T, net: Network)
    ensures net in Without(table, data) <==> net in table && table[net] != data
    ensures net in Without(table, data) ==> Without(table, data)[net] == table[net]
  {
  }

  /** So a lookup that found another owner finds it still, and no lookup finds the one removed. */
  lemma {:induction false} FindAfterRemoval<T>(table: Table<T>, data: T, a: Address, n: nat)
    requires n <= |a.bits|
    ensures
      var found, left := FindUpTo(table, a, n), FindUpTo(Without(table, data), a, n);
      && (found.Some? && found.value != data ==> left == found)
      && (found.None? ==> left.None?)
      && (left.Some? ==> left.value != data)
  {
    RemovalKeepsOthers(table, data, Truncate(a, n));
    if n == 0 {
    } else {
      FindAfterRemoval(table, data, a, n - 1);
    }
  }

  /** Exactly the truncated networks of the list get the new owner; the rest keep theirs. */
  lemma {:induction false} InsertAllOwns<T>(table: Table<T>, ips: seq<AllowedIp>, data: T, net: Network)
    requires forall i | 0 <= i < |ips| :: ips[i].Valid()
    ensures
      var after := InsertAll(table, ips, data);
      if exists i | 0 <= i < |ips| :: net == Truncate(ips[i].addr, ips[i].cidr)
      then net in after && after[net] == data
      else (net in after <==> net in table) && (net in table ==> after[net] == table[net])
  {
    if ips == [] {
    } else {
      var before, last := ips[..|ips| - 1], ips[|ips| - 1];
      InsertAllOwns(table, before, data, net);
      assert forall i | 0 <= i < |before| :: before[i] == ips[i];
      assert InsertAll(table, ips, data) == InsertAll(table, before, data)[Truncate(last.addr, last.cidr) := data];
    }
  }
}
