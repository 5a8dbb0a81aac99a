/**
 * The network data a display cycle works with, and its DNS step: from the
 * connections of this cycle and the resolver's name cache, the remote
 * addresses still to be resolved.
 */
module Network {

  datatype Protocol = Tcp | Udp

  /** An IPv4 or IPv6 address. */
  datatype IpAddr = V4(v4: bv32) | V6(v6: bv128)

  /** A remote endpoint. */
  datatype Socket = Socket(ip: IpAddr, port: nat)

  /** A local endpoint with its transport protocol. */
  datatype LocalSocket = LocalSocket(ip: IpAddr, port: nat, protocol: Protocol)

  /** A flow: the local socket and the remote socket it talks to. */
  datatype Connection = Connection(local: LocalSocket, remote: Socket)

  /** The resolver's name cache (`IpTable`): address to host name. */
  type IpTable = map<IpAddr, string>

  /** How many of `conns` have `ip` as their remote address. */
  function Occurrences(conns: seq<Connection>, ip: IpAddr): nat
  {
    if |conns| == 0 then 0
    else (if conns[0].remote.ip == ip then 1 else 0) + Occurrences(conns[1..], ip)
  }

  /**
   * The remote addresses of `conns` that are not keys of `cache`, in
   * connection order, one entry per connection (duplicates kept).
   */
  function Unresolved(conns: seq<Connection>, cache: IpTable): (r: seq<IpAddr>)
    ensures |r| <= |conns|
    ensures forall ip :: ip in r ==> ip !in cache
  {
    if |conns| == 0 then []
    else
      var rest := Unresolved(conns[1..], cache);
      if conns[0].remote.ip in cache then rest else [conns[0].remote.ip] + rest
  }

  /** Each uncached address is submitted once per connection to it; cached ones never. */
  lemma {:induction false} UnresolvedCounts(conns: seq<Connection>, cache: IpTable, ip: IpAddr)
    ensures multiset(Unresolved(conns, cache))[ip] == if ip in cache then 0 else Occurrences(conns, ip)
    decreases |conns|
  {
    if |conns| > 0 {
      UnresolvedCounts(conns[1..], cache, ip);
    }
  }

  /** The filter keeps order: it distributes over concatenation of connection lists. */
  lemma {:induction false} UnresolvedAppend(a: seq<Connection>, b: seq<Connection>, cache: IpTable)
    ensures Unresolved(a + b, cache) == Unresolved(a, cache) + Unresolved(b, cache)
    decreases |a|
  {
    if |a| == 0 {
      assert a + b == b;
    } else {
      assert (a + b)[0] == a[0];
      assert (a + b)[1..] == a[1..] + b;
      UnresolvedAppend(a[1..], b, cache);
    }
  }

  /** Every connection's remote address is either named by the cache or submitted for resolution. */
  lemma {:induction false} EveryRemoteCovered(conns: seq<Connection>, cache: IpTable, i: nat)
    requires i < |conns|
    ensures conns[i].remote.ip in cache || conns[i].remote.ip in Unresolved(conns, cache)
    decreases i
  {
    if i > 0 {
      EveryRemoteCovered(conns[1..], cache, i - 1);
    }
  }

  /** The collecting pass of the display loop: `iter().filter(..).map(..).collect()`. */
  method CollectUnresolved(conns: seq<Connection>, cache: IpTable) returns (ips: seq<IpAddr>)
    ensures ips == Unresolved(conns, cache)
  {
    ips := [];
    var i := 0;
    while i < |conns|
      invariant i <= |conns|
      invariant ips == Unresolved(conns[..i], cache)
    {
      var c := conns[i];
      UnresolvedAppend(conns[..i], [c], cache);
      assert conns[..i + 1] == conns[..i] + [c];
      if c.remote.ip !in cache {
        ips := ips + [c.remote.ip];
      }
      i := i + 1;
    }
    assert conns[..i] == conns;
  }
}
