/** A deployment target as the host inventory describes it: an IP address, an
    SSH port that defaults to 22 and a login user that defaults to the local
    user, and the two strings the target is known by (its address and its
    socket address). */
module Hosts {
  import opened Base

  type Port = n: int | 0 <= n < 0x1_0000

  /** An IP address. Version 4 addresses are rendered here as dotted
      decimals; the textual form of a version 6 address (with its zero-run
      compression) is taken as given. */
  datatype IpAddr =
    | V4(a: byte, b: byte, c: byte, d: byte)
    | V6(text: string)

  datatype Host = Host(addr: IpAddr, port: Port, user: string)

  /** One inventory record as decoded: `port` and `user` may be absent. */
  datatype Entry = Entry(host: IpAddr, port: Option<Port>, user: Option<string>)

  const DefaultPort: Port := 22

  /** Fills in the inventory defaults; `localUser` is the name of the user
      running the tool. */
  function Resolve(e: Entry, localUser: string): (h: Host)
    ensures h.addr == e.host
    ensures e.port.None? ==> h.port == 22
    ensures e.port.Some? ==> h.port == e.port.value
    ensures e.user.None? ==> h.user == localUser
    ensures e.user.Some? ==> h.user == e.user.value
  {
    Host(e.host,
         match e.port case Some(p) => p case None => DefaultPort,
         match e.user case Some(u) => u case None => localUser)
  }

  /** `IpAddr`'s `Display`. */
  function AddrString(a: IpAddr): string
  {
    match a
    case V4(a0, a1, a2, a3) =>
      NatToString(a0) + "." + NatToString(a1) + "." + NatToString(a2) + "." + NatToString(a3)
    case V6(text) => text
  }

  /** `Host::socket_addr` rendered with `SocketAddr`'s `Display`: the address
      and the port joined by a colon, a version 6 address in brackets. */
  function Endpoint(h: Host): (s: string)
    ensures h.addr.V4? ==> s == AddrString(h.addr) + ":" + NatToString(h.port)
    ensures h.addr.V6? ==> s == "[" + AddrString(h.addr) + "]:" + NatToString(h.port)
  {
    match h.addr
    case V4(_, _, _, _) => AddrString(h.addr) + ":" + NatToString(h.port)
    case V6(text) => "[" + text + "]:" + NatToString(h.port)
  }

  /** The aliases the known-hosts check is given, in order. */
  function Aliases(h: Host): (r: seq<string>)
    ensures |r| == 2 && r[0] == AddrString(h.addr) && r[1] == Endpoint(h)
  {
    [AddrString(h.addr), Endpoint(h)]
  }

  /** The two aliases of a host are never the same string, so a known-hosts
      line for either form is looked up separately. */
  lemma AliasesDistinct(h: Host)
    ensures Aliases(h)[0] != Aliases(h)[1]
  {
    assert |Endpoint(h)| > |AddrString(h.addr)|;
  }

  /** The port is part of the endpoint: two hosts at one address but on
      different ports have different endpoint aliases. */
  lemma EndpointDeterminesPort(h: Host, k: Host)
    requires h.addr == k.addr && Endpoint(h) == Endpoint(k)
    ensures h.port == k.port
  {
    var pre := if h.addr.V4? then AddrString(h.addr) + ":" else "[" + AddrString(h.addr) + "]:";
    assert Endpoint(h) == pre + NatToString(h.port);
    assert Endpoint(k) == pre + NatToString(k.port);
    assert NatToString(h.port) == Endpoint(h)[|pre|..];
    assert NatToString(k.port) == Endpoint(k)[|pre|..];
    NatToStringInjective(h.port, k.port);
  }

  /** An inventory record without a port is reached on port 22 and checked
      under "address:22". */
  lemma DefaultEndpoint(e: Entry, localUser: string)
    requires e.port.None? && e.host.V4?
    ensures Endpoint(Resolve(e, localUser)) == AddrString(e.host) + ":22"
  {
    assert NatToString(22) == NatToString(2) + [DigitChar(2)];
  }
}
