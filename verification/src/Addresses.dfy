/** IP addresses and prefixes as (family, number, prefix length) values. */
module Addresses {

  datatype Family = V4 | V6 {
    function Width(): nat { if V4? then 32 else 128 }
  }

  datatype Ip = Ip(family: Family, addr: nat)

  datatype Prefix = Prefix(family: Family, addr: nat, bits: nat)

  function Pow2(n: nat): (r: nat)
    ensures r > 0
  {
    if n == 0 then 1 else 2 * Pow2(n - 1)
  }

  predicate ValidIp(ip: Ip) {
    ip.addr < Pow2(ip.family.Width())
  }

  predicate ValidPrefix(p: Prefix) {
    p.bits <= p.family.Width() && p.addr < Pow2(p.family.Width())
  }

  /** Prefix containment as in section 3.1 of RFC 4632: equal leading bits. */
  predicate Contains(p: Prefix, ip: Ip) {
    && p.family == ip.family
    && p.bits <= p.family.Width()
    && var host := Pow2(p.family.Width() - p.bits);
       p.addr / host == ip.addr / host
  }

  predicate AnyContains(ps: seq<Prefix>, ip: Ip) {
    exists i :: 0 <= i < |ps| && Contains(ps[i], ip)
  }

  /** client/smart/smart.go:221-233, the LAN bypass. */
  const LOCAL_CIDRS: seq<Prefix> := [
    Prefix(V4, 0x0A00_0000, 8),
    Prefix(V4, 0xAC10_0000, 12),
    Prefix(V4, 0xC0A8_0000, 16),
    Prefix(V4, 0xA9FE_0000, 16),
    Prefix(V4, 0x7F00_0000, 8),
    Prefix(V4, 0xE000_0000, 4),
    Prefix(V4, 0xFFFF_FFFF, 32),
    Prefix(V6, 1, 128),
    Prefix(V6, 0xFC00_0000_0000_0000_0000_0000_0000_0000, 7),
    Prefix(V6, 0xFE80_0000_0000_0000_0000_0000_0000_0000, 10),
    Prefix(V6, 0xFF00_0000_0000_0000_0000_0000_0000_0000, 8)
  ]
}
