/**
 * Classification of IP addresses into the categories the SSRF gate blocks:
 * private, loopback, link-local, reserved, multicast and unspecified. The
 * address blocks are those of Python 3.12's `ipaddress` module, which takes
 * its "private" lists from the IANA special-purpose address registries
 * (RFC 6890): for IPv4 the RFC 1918 networks (section 3 of RFC 1918) among
 * others; for IPv6 the unspecified and loopback addresses (sections 2.5.2
 * and 2.5.3 of RFC 4291), the IPv4-mapped block (section 2.5.5.2),
 * link-local unicast (section 2.5.6) and multicast (section 2.7).
 * Addresses are numbers: 32 bits for IPv4, 128 bits for IPv6.
 */
module IpClass {
  import opened Wrappers

  type V4Bits = n: nat | n < 0x1_0000_0000
  type V6Bits = n: nat | n < 0x1_0000_0000_0000_0000_0000_0000_0000_0000

  /** A parsed address, as `ipaddress.ip_address` returns it (any scope id dropped). */
  datatype IpAddress = V4(v4: V4Bits) | V6(v6: V6Bits)

  /** The addresses `base .. base + size - 1`: one CIDR network. */
  datatype Block = Block(base: nat, size: nat)

  predicate InBlock(n: nat, b: Block) {
    b.base <= n < b.base + b.size
  }

  predicate InAny(n: nat, blocks: seq<Block>) {
    exists i :: 0 <= i < |blocks| && InBlock(n, blocks[i])
  }

  // ---- IPv4 ----

  const V4Private: seq<Block> := [
    Block(0x0000_0000, 0x100_0000),    // 0.0.0.0/8
    Block(0x0a00_0000, 0x100_0000),    // 10.0.0.0/8
    Block(0x7f00_0000, 0x100_0000),    // 127.0.0.0/8
    Block(0xa9fe_0000, 0x1_0000),      // 169.254.0.0/16
    Block(0xac10_0000, 0x10_0000),     // 172.16.0.0/12
    Block(0xc000_0000, 0x100),         // 192.0.0.0/24
    Block(0xc000_00aa, 0x2),           // 192.0.0.170/31
    Block(0xc000_0200, 0x100),         // 192.0.2.0/24
    Block(0xc0a8_0000, 0x1_0000),      // 192.168.0.0/16
    Block(0xc612_0000, 0x2_0000),      // 198.18.0.0/15
    Block(0xc633_6400, 0x100),         // 198.51.100.0/24
    Block(0xcb00_7100, 0x100),         // 203.0.113.0/24
    Block(0xf000_0000, 0x1000_0000),   // 240.0.0.0/4
    Block(0xffff_ffff, 0x1)            // 255.255.255.255/32
  ]

  /** Globally reachable addresses inside 192.0.0.0/24. */
  const V4PrivateExceptions: seq<Block> := [
    Block(0xc000_0009, 0x1),           // 192.0.0.9/32
    Block(0xc000_000a, 0x1)            // 192.0.0.10/32
  ]

  const V4LinkLocal := Block(0xa9fe_0000, 0x1_0000)      // 169.254.0.0/16
  const V4Loopback := Block(0x7f00_0000, 0x100_0000)     // 127.0.0.0/8
  const V4Multicast := Block(0xe000_0000, 0x1000_0000)   // 224.0.0.0/4
  const V4Reserved := Block(0xf000_0000, 0x1000_0000)    // 240.0.0.0/4

  predicate V4IsPrivate(n: V4Bits) {
    InAny(n, V4Private) && !InAny(n, V4PrivateExceptions)
  }

  // ---- IPv6 ----

  const V6Private: seq<Block> := [
    Block(0x0000_0000_0000_0000_0000_0000_0000_0001, 0x1),                                       // ::1/128
    Block(0x0000_0000_0000_0000_0000_0000_0000_0000, 0x1),                                       // ::/128
    Block(0x0000_0000_0000_0000_0000_ffff_0000_0000, 0x1_0000_0000),                             // ::ffff:0:0/96
    Block(0x0064_ff9b_0001_0000_0000_0000_0000_0000, 0x1_0000_0000_0000_0000_0000),              // 64:ff9b:1::/48
    Block(0x0100_0000_0000_0000_0000_0000_0000_0000, 0x1_0000_0000_0000_0000),                   // 100::/64
    Block(0x2001_0000_0000_0000_0000_0000_0000_0000, 0x200_0000_0000_0000_0000_0000_0000),       // 2001::/23
    Block(0x2001_0db8_0000_0000_0000_0000_0000_0000, 0x1_0000_0000_0000_0000_0000_0000),         // 2001:db8::/32
    Block(0x2002_0000_0000_0000_0000_0000_0000_0000, 0x1_0000_0000_0000_0000_0000_0000_0000),    // 2002::/16
    Block(0xfc00_0000_0000_0000_0000_0000_0000_0000, 0x200_0000_0000_0000_0000_0000_0000_0000),  // fc00::/7
    Block(0xfe80_0000_0000_0000_0000_0000_0000_0000, 0x40_0000_0000_0000_0000_0000_0000_0000)    // fe80::/10
  ]

  /** Globally reachable addresses inside 2001::/23. */
  const V6PrivateExceptions: seq<Block> := [
    Block(0x2001_0001_0000_0000_0000_0000_0000_0001, 0x1),                                       // 2001:1::1/128
    Block(0x2001_0001_0000_0000_0000_0000_0000_0002, 0x1),                                       // 2001:1::2/128
    Block(0x2001_0003_0000_0000_0000_0000_0000_0000, 0x1_0000_0000_0000_0000_0000_0000),         // 2001:3::/32
    Block(0x2001_0004_0112_0000_0000_0000_0000_0000, 0x1_0000_0000_0000_0000_0000),              // 2001:4:112::/48
    Block(0x2001_0020_0000_0000_0000_0000_0000_0000, 0x10_0000_0000_0000_0000_0000_0000),        // 2001:20::/28
    Block(0x2001_0030_0000_0000_0000_0000_0000_0000, 0x10_0000_0000_0000_0000_0000_0000)         // 2001:30::/28
  ]

  const V6Reserved: seq<Block> := [
    Block(0x0000_0000_0000_0000_0000_0000_0000_0000, 0x100_0000_0000_0000_0000_0000_0000_0000),  // ::/8
    Block(0x0100_0000_0000_0000_0000_0000_0000_0000, 0x100_0000_0000_0000_0000_0000_0000_0000),  // 100::/8
    Block(0x0200_0000_0000_0000_0000_0000_0000_0000, 0x200_0000_0000_0000_0000_0000_0000_0000),  // 200::/7
    Block(0x0400_0000_0000_0000_0000_0000_0000_0000, 0x400_0000_0000_0000_0000_0000_0000_0000),  // 400::/6
    Block(0x0800_0000_0000_0000_0000_0000_0000_0000, 0x800_0000_0000_0000_0000_0000_0000_0000),  // 800::/5
    Block(0x1000_0000_0000_0000_0000_0000_0000_0000, 0x1000_0000_0000_0000_0000_0000_0000_0000), // 1000::/4
    Block(0x4000_0000_0000_0000_0000_0000_0000_0000, 0x2000_0000_0000_0000_0000_0000_0000_0000), // 4000::/3
    Block(0x6000_0000_0000_0000_0000_0000_0000_0000, 0x2000_0000_0000_0000_0000_0000_0000_0000), // 6000::/3
    Block(0x8000_0000_0000_0000_0000_0000_0000_0000, 0x2000_0000_0000_0000_0000_0000_0000_0000), // 8000::/3
    Block(0xa000_0000_0000_0000_0000_0000_0000_0000, 0x2000_0000_0000_0000_0000_0000_0000_0000), // a000::/3
    Block(0xc000_0000_0000_0000_0000_0000_0000_0000, 0x2000_0000_0000_0000_0000_0000_0000_0000), // c000::/3
    Block(0xe000_0000_0000_0000_0000_0000_0000_0000, 0x1000_0000_0000_0000_0000_0000_0000_0000), // e000::/4
    Block(0xf000_0000_0000_0000_0000_0000_0000_0000, 0x800_0000_0000_0000_0000_0000_0000_0000),  // f000::/5
    Block(0xf800_0000_0000_0000_0000_0000_0000_0000, 0x400_0000_0000_0000_0000_0000_0000_0000),  // f800::/6
    Block(0xfe00_0000_0000_0000_0000_0000_0000_0000, 0x80_0000_0000_0000_0000_0000_0000_0000)    // fe00::/9
  ]

  const V6LinkLocal := Block(0xfe80_0000_0000_0000_0000_0000_0000_0000, 0x40_0000_0000_0000_0000_0000_0000_0000)   // fe80::/10
  const V6Multicast := Block(0xff00_0000_0000_0000_0000_0000_0000_0000, 0x100_0000_0000_0000_0000_0000_0000_0000)  // ff00::/8
  const V4MappedPrefix := Block(0xffff_0000_0000, 0x1_0000_0000)                                                 // ::ffff:0:0/96

  /** `ipv4_mapped`: the IPv4 address embedded in `::ffff:a.b.c.d`, if this is one. */
  function V4Mapped(n: V6Bits): (r: Option<V4Bits>)
    ensures r.Some? <==> InBlock(n, V4MappedPrefix)
    ensures r.Some? ==> n == 0xffff_0000_0000 + r.value
  {
    if InBlock(n, V4MappedPrefix) then Some(n - 0xffff_0000_0000) else None
  }

  // ---- the six categories (`is_private`, `is_loopback`, ...) ----

  predicate IsPrivate(ip: IpAddress) {
    match ip
    case V4(n) => V4IsPrivate(n)
    case V6(n) =>
      match V4Mapped(n)
      case Some(m) => V4IsPrivate(m)
      case None => InAny(n, V6Private) && !InAny(n, V6PrivateExceptions)
  }

  predicate IsLoopback(ip: IpAddress) {
    match ip
    case V4(n) => InBlock(n, V4Loopback)
    case V6(n) => n == 1
  }

  predicate IsLinkLocal(ip: IpAddress) {
    match ip
    case V4(n) => InBlock(n, V4LinkLocal)
    case V6(n) => InBlock(n, V6LinkLocal)
  }

  predicate IsReserved(ip: IpAddress) {
    match ip
    case V4(n) => InBlock(n, V4Reserved)
    case V6(n) => InAny(n, V6Reserved)
  }

  predicate IsMulticast(ip: IpAddress) {
    match ip
    case V4(n) => InBlock(n, V4Multicast)
    case V6(n) => InBlock(n, V6Multicast)
  }

  predicate IsUnspecified(ip: IpAddress) {
    match ip
    case V4(n) => n == 0
    case V6(n) => n == 0
  }

  /** The condition under which the gate refuses an address. */
  predicate IsBlocked(ip: IpAddress) {
    IsPrivate(ip) || IsLoopback(ip) || IsLinkLocal(ip) || IsReserved(ip) || IsMulticast(ip) || IsUnspecified(ip)
  }

  // ---- properties ----

  /** `127.0.0.1` and every other 127/8 address is refused. */
  lemma V4LoopbackBlocked(n: V4Bits)
    requires 0x7f00_0000 <= n <= 0x7fff_ffff
    ensures IsBlocked(V4(n)) && IsLoopback(V4(n))
  {
  }

  /** The RFC 1918 networks 10/8, 172.16/12 and 192.168/16 are refused. */
  lemma Rfc1918Blocked(n: V4Bits)
    requires || 0x0a00_0000 <= n <= 0x0aff_ffff
             || 0xac10_0000 <= n <= 0xac1f_ffff
             || 0xc0a8_0000 <= n <= 0xc0a8_ffff
    ensures IsPrivate(V4(n)) && IsBlocked(V4(n))
  {
    if n < 0xac10_0000 {
      assert InBlock(n, V4Private[1]);
    } else if n < 0xc0a8_0000 {
      assert InBlock(n, V4Private[4]);
    } else {
      assert InBlock(n, V4Private[8]);
    }
  }

  /** `::1` is refused as loopback; `::` as unspecified. */
  lemma V6LoopbackAndUnspecifiedBlocked()
    ensures IsLoopback(V6(1)) && IsBlocked(V6(1))
    ensures IsUnspecified(V6(0)) && IsBlocked(V6(0))
  {
  }

  /** Every `fe80::/10` address, `fe80::1` among them, is refused as link-local. */
  lemma V6LinkLocalBlocked(n: V6Bits)
    requires InBlock(n, V6LinkLocal)
    ensures IsLinkLocal(V6(n)) && IsBlocked(V6(n))
  {
  }

  /**
   * Every IPv4-mapped IPv6 address `::ffff:a.b.c.d` is refused whatever
   * `a.b.c.d` is, because `::ffff:0:0/96` lies inside the reserved `::/8`.
   */
  lemma V4MappedAlwaysBlocked(n: V6Bits)
    requires V4Mapped(n).Some?
    ensures IsReserved(V6(n)) && IsBlocked(V6(n))
  {
    assert InBlock(n, V6Reserved[0]);
  }

  /** The private status of an IPv4-mapped address is that of the embedded IPv4 address. */
  lemma V4MappedPrivacy(m: V4Bits)
    ensures IsPrivate(V6(0xffff_0000_0000 + m)) == IsPrivate(V4(m))
  {
  }

  /** `93.184.216.34` (a public address) is accepted. */
  lemma PublicV4Accepted()
    ensures !IsBlocked(V4(0x5db8_d822))
  {
    var n := 0x5db8_d822;
    forall i | 0 <= i < |V4Private|
      ensures !InBlock(n, V4Private[i])
    {
    }
  }

  /**
   * The shared address space `100.64.0.0/10` (RFC 6598) is not private in
   * Python's classification, so the gate lets `100.64.0.1` through.
   */
  lemma SharedAddressSpaceAccepted()
    ensures !IsBlocked(V4(0x6440_0001))
  {
    var n := 0x6440_0001;
    forall i | 0 <= i < |V4Private|
      ensures !InBlock(n, V4Private[i])
    {
    }
  }

  /** `192.0.0.9` lies in 192.0.0.0/24 but is one of the globally reachable exceptions. */
  lemma PrivateExceptionAccepted()
    ensures !IsBlocked(V4(0xc000_0009))
  {
    assert InBlock(0xc000_0009, V4PrivateExceptions[0]);
  }
}
