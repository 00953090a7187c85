/**
 The classes of addresses, as the ranges they are (crates/mosschat-net/src/punch.rs:602-682,
 crates/mosschat-net/src/discovery.rs:747-764): RFC 1122, 1918 and 3927 for IPv4, RFC 4291
 and 4193 for IPv6.
 */
module AddressRanges {
  import opened Common
  import opened Addresses

  function Number32(ip: Ip): nat
    requires ip.V4?
  {
    ((ip.a as int * 256 + ip.b as int) * 256 + ip.c as int) * 256 + ip.d as int
  }

  lemma Octets(ip: Ip) returns (low: nat)
    requires ip.V4?
    ensures low < 0x1_0000 && Number32(ip) == ip.a as int * 0x100_0000 + ip.b as int * 0x1_0000 + low
  {
    low := ip.c as int * 256 + ip.d as int;
  }

  /** 10/8, 172.16/12, 192.168/16, and 169.254/16. */
  predicate InPrivateRange(n: nat) {
    || 0x0A00_0000 <= n <= 0x0AFF_FFFF || 0xAC10_0000 <= n <= 0xAC1F_FFFF
    || 0xC0A8_0000 <= n <= 0xC0A8_FFFF || 0xA9FE_0000 <= n <= 0xA9FE_FFFF
  }

  /** An IPv4 source is local exactly in the private and the link-local ranges. */
  lemma LocalV4(ip: Ip)
    requires ip.V4?
    ensures IsLocalSource(ip, false) <==> InPrivateRange(Number32(ip))
    ensures IsLocalSource(ip, true) <==> InPrivateRange(Number32(ip)) || 0x7F00_0000 <= Number32(ip) <= 0x7FFF_FFFF
  {
    var low := Octets(ip);
  }

  /** An IPv6 source is local exactly in `fe80::/10` and `fc00::/7`. */
  lemma LocalV6(ip: Ip)
    requires ip.V6?
    ensures IsLocalSource(ip, false) <==> 0xfe80 <= ip.g0 <= 0xfebf || 0xfc00 <= ip.g0 <= 0xfdff
  {
    assert IsLinkLocal(ip) <==> 0xfe80 <= ip.g0 <= 0xfebf;
    assert IsUniqueLocal(ip) <==> 0xfc00 <= ip.g0 <= 0xfdff;
  }

  /** An IPv4 candidate may be probed on a port from 2, unless it is nobody, a group or everybody. */
  lemma ProbeableV4(ip: Ip, port: Word)
    requires ip.V4?
    ensures var n := Number32(ip);
            IsProbeable(SocketAddr(ip, port)) <==> port >= 2 && n != 0 && !(0xE000_0000 <= n <= 0xEFFF_FFFF) && n != 0xFFFF_FFFF
  {
    var low := Octets(ip);
  }

  lemma ProbeableV6(ip: Ip, port: Word)
    requires ip.V6?
    ensures IsProbeable(SocketAddr(ip, port)) <==> port >= 2 && ip != V6(0, 0, 0, 0, 0, 0, 0, 0) && ip.g0 < 0xff00
  {
  }

  /** Everything of IPv4 that is not set aside is routable. */
  lemma RoutableV4(ip: Ip, port: Word)
    requires ip.V4?
    ensures var n := Number32(ip);
            IsGloballyRoutable(SocketAddr(ip, port)) <==>
              && !InPrivateRange(n) && !(0x7F00_0000 <= n <= 0x7FFF_FFFF) && !(0xE000_0000 <= n <= 0xEFFF_FFFF)
              && n != 0 && n != 0xFFFF_FFFF
  {
    var low := Octets(ip);
  }

  lemma RoutableV6(ip: Ip, port: Word)
    requires ip.V6?
    ensures IsGloballyRoutable(SocketAddr(ip, port)) <==>
              && ip != V6(0, 0, 0, 0, 0, 0, 0, 0) && ip != V6(0, 0, 0, 0, 0, 0, 0, 1)
              && (ip.g0 < 0xfc00 || 0xfe00 <= ip.g0 <= 0xfe7f || 0xfec0 <= ip.g0 <= 0xfeff)
  {
    assert IsLinkLocal(ip) <==> 0xfe80 <= ip.g0 <= 0xfebf;
    assert IsUniqueLocal(ip) <==> 0xfc00 <= ip.g0 <= 0xfdff;
    assert IsMulticast(ip) <==> 0xff00 <= ip.g0;
  }

  /**
   A source an announce may be vouched for from is one that is not routable across the
   internet, and is neither this machine, nor nobody, nor a group, nor everybody.
   */
  lemma LocalMeans(ip: Ip, port: Word)
    ensures IsLocalSource(ip, false) <==>
              && !IsGloballyRoutable(SocketAddr(ip, port))
              && !IsLoopback(ip) && !IsUnspecified(ip) && !IsMulticast(ip) && !IsBroadcast(ip)
  {
  }
}
