/**
 Socket addresses, and the classifications the doorbell and the porch socket
 decide on (crates/mosschat-net/src/punch.rs:602-682,
 crates/mosschat-net/src/sock.rs:65-83).
 */
module Addresses {
  import opened Common

  datatype Ip =
    | V4(a: Byte, b: Byte, c: Byte, d: Byte)
    | V6(g0: Word, g1: Word, g2: Word, g3: Word, g4: Word, g5: Word, g6: Word, g7: Word)

  datatype SocketAddr = SocketAddr(ip: Ip, port: Word)

  /** Where a candidate address came from. */
  datatype CandidateSource = Local | GateReflected | PeerReported | Discovery

  /** `::ffff:a.b.c.d`, the form a dual-stack socket reports an IPv4 peer in. */
  predicate IsMapped(addr: SocketAddr) {
    addr.ip.V6? && addr.ip.g0 == addr.ip.g1 == addr.ip.g2 == addr.ip.g3 == addr.ip.g4 == 0 && addr.ip.g5 == 0xffff
  }

  /** One address, one spelling. */
  function Unmap(addr: SocketAddr): (r: SocketAddr)
    ensures !IsMapped(r) && r.port == addr.port
    ensures !IsMapped(addr) ==> r == addr
    ensures IsMapped(addr) ==> r.ip.V4? && Mapped(r) == addr
  {
    if IsMapped(addr) then
      SocketAddr(V4(addr.ip.g6 / 256, addr.ip.g6 % 256, addr.ip.g7 / 256, addr.ip.g7 % 256), addr.port)
    else addr
  }

  /** The mapped spelling of a plain IPv4 address. */
  function Mapped(addr: SocketAddr): (r: SocketAddr)
    requires addr.ip.V4?
  {
    SocketAddr(V6(0, 0, 0, 0, 0, 0xffff, addr.ip.a * 256 + addr.ip.b, addr.ip.c * 256 + addr.ip.d), addr.port)
  }

  /** Mapping undoes unmapping the other way round too, so the two spellings are in bijection. */
  lemma UnmapMapped(addr: SocketAddr)
    requires addr.ip.V4?
    ensures IsMapped(Mapped(addr)) && Unmap(Mapped(addr)) == addr
  {
    assert (addr.ip.a * 256 + addr.ip.b) / 256 == addr.ip.a && (addr.ip.a * 256 + addr.ip.b) % 256 == addr.ip.b;
    assert (addr.ip.c * 256 + addr.ip.d) / 256 == addr.ip.c && (addr.ip.c * 256 + addr.ip.d) % 256 == addr.ip.d;
  }

  predicate IsLoopback(ip: Ip) {
    if ip.V4? then ip.a == 127 else ip == V6(0, 0, 0, 0, 0, 0, 0, 1)
  }

  predicate IsUnspecified(ip: Ip) {
    if ip.V4? then ip == V4(0, 0, 0, 0) else ip == V6(0, 0, 0, 0, 0, 0, 0, 0)
  }

  predicate IsMulticast(ip: Ip) {
    if ip.V4? then 224 <= ip.a <= 239 else ip.g0 / 256 == 0xff
  }

  predicate IsBroadcast(ip: Ip) {
    ip == V4(255, 255, 255, 255)
  }

  predicate IsPrivateV4(ip: Ip)
    requires ip.V4?
  {
    ip.a == 10 || (ip.a == 172 && 16 <= ip.b <= 31) || (ip.a == 192 && ip.b == 168)
  }

  /** `169.254.0.0/16`, or `fe80::/10` (the mask 0xffc0 keeps the top ten bits). */
  predicate IsLinkLocal(ip: Ip) {
    if ip.V4? then ip.a == 169 && ip.b == 254 else ip.g0 / 64 == 0xfe80 / 64
  }

  /** `fc00::/7`. */
  predicate IsUniqueLocal(ip: Ip)
    requires ip.V6?
  {
    ip.g0 / 512 == 0xfc00 / 512
  }

  predicate IsProbeable(addr: SocketAddr) {
    addr.port != 0 && addr.port != 1
    && !IsUnspecified(addr.ip) && !IsMulticast(addr.ip) && !IsBroadcast(addr.ip)
  }

  predicate IsGloballyRoutable(addr: SocketAddr) {
    !IsLoopback(addr.ip) && !IsUnspecified(addr.ip) && !IsMulticast(addr.ip) && !IsLinkLocal(addr.ip)
    && (if addr.ip.V4? then !IsPrivateV4(addr.ip) && !IsBroadcast(addr.ip) else !IsUniqueLocal(addr.ip))
  }

  /** Where an announce may be vouched for from: never loopback, never a global address. */
  predicate IsLocalSource(ip: Ip, allowLoopback: bool) {
    if IsLoopback(ip) then allowLoopback
    else if ip.V4? then IsPrivateV4(ip) || IsLinkLocal(ip)
    else IsLinkLocal(ip) || IsUniqueLocal(ip)
  }
}
