// IP networks on bits: Go's net.ParseCIDR and IPNet.Contains, and what they
// mean as address prefixes.
module Cidr {
  import opened Options

  type Bits = seq<bool>

  const V4_BITS := 32
  const V6_BITS := 128
  const MAPPED_BITS := 96

  function Repeat(n: nat, bit: bool): (r: Bits)
    ensures |r| == n && forall i :: 0 <= i < n ==> r[i] == bit
  {
    seq(n, i => bit)
  }

  // ::ffff:0:0/96, under which IPv6 writes the IPv4 addresses.
  const MAPPED_PREFIX: Bits := Repeat(80, false) + Repeat(16, true)

  function To4(ip: Bits): Option<Bits> {
    if |ip| == V4_BITS then Some(ip)
    else if |ip| == V6_BITS && ip[..MAPPED_BITS] == MAPPED_PREFIX then Some(ip[MAPPED_BITS..])
    else None
  }

  // The IPv4 form: 32 bits as they are, or 80 zeros, 16 ones and the 32 bits.
  lemma To4IsExplicit(ip: Bits)
    ensures To4(ip).Some? <==>
              || |ip| == 32
              || (|ip| == 128 && (forall i :: 0 <= i < 80 ==> !ip[i]) && (forall i :: 80 <= i < 96 ==> ip[i]))
    ensures To4(ip).Some? ==> To4(ip).value == ip[|ip| - 32..]
  {
    if |ip| == 128 {
      assert forall i :: 0 <= i < 96 ==> ip[..96][i] == ip[i];
      assert forall i :: 0 <= i < 96 ==> MAPPED_PREFIX[i] == (i >= 80);
    }
  }

  function Mask(ones: nat, width: nat): (m: Bits)
    ensures |m| == width
  {
    seq(width, i => i < ones)
  }

  function And(a: Bits, m: Bits): (r: Bits)
    requires |a| == |m|
    ensures |r| == |a|
  {
    seq(|a|, i requires 0 <= i < |a| => a[i] && m[i])
  }

  // The length of the run of ones a mask starts with, as IPMask.Size reports it.
  function MaskOnes(m: Bits): nat {
    if m == [] || !m[0] then 0 else 1 + MaskOnes(m[1..])
  }

  // "addr/ones" after its text has been parsed.
  datatype Prefix = Prefix(addr: Bits, ones: nat) {
    predicate Valid() {
      |addr| in {V4_BITS, V6_BITS} && ones <= |addr|
    }
  }

  datatype IPNet = IPNet(ip: Bits, mask: Bits)

  function ParseCidr(p: Prefix): (n: IPNet)
    requires p.Valid()
  {
    IPNet(And(p.addr, Mask(p.ones, |p.addr|)), Mask(p.ones, |p.addr|))
  }

  // The network number and mask IPNet.Contains works with: an IPv4-mapped
  // network is narrowed to its last 32 bits first.
  function NumberAndMask(n: IPNet): Option<(Bits, Bits)> {
    match To4(n.ip)
    case Some(ip) =>
      if |n.mask| == V4_BITS then Some((ip, n.mask))
      else if |n.mask| == V6_BITS then Some((ip, n.mask[MAPPED_BITS..]))
      else None
    case None =>
      if |n.ip| == V6_BITS && |n.mask| == V6_BITS then Some((n.ip, n.mask)) else None
  }

  // An address as Contains compares it.
  function Narrow(ip: Bits): Bits {
    if To4(ip).Some? then To4(ip).value else ip
  }

  predicate MaskedEqual(number: Bits, mask: Bits, x: Bits)
    requires |number| == |mask| == |x|
  {
    And(number, mask) == And(x, mask)
  }

  predicate Contains(n: IPNet, ip: Bits) {
    match NumberAndMask(n)
    case None => false
    case Some((number, mask)) =>
      |Narrow(ip)| == |number| == |mask| && MaskedEqual(number, mask, Narrow(ip))
  }

  // ---- networks as prefixes ------------------------------------------------

  // The addresses of one family that start with prefix.
  datatype Block = Block(v4: bool, prefix: Bits)

  predicate Mapped(p: Prefix) {
    |p.addr| == V6_BITS && MAPPED_BITS <= p.ones <= V6_BITS && p.addr[..MAPPED_BITS] == MAPPED_PREFIX
  }

  function BlockOf(p: Prefix): Block
    requires p.Valid()
  {
    if Mapped(p) then Block(true, p.addr[MAPPED_BITS..p.ones])
    else Block(|p.addr| == V4_BITS, p.addr[..p.ones])
  }

  predicate InBlock(b: Block, ip: Bits) {
    match To4(ip)
    case Some(v4) => b.v4 && b.prefix <= v4
    case None => !b.v4 && |ip| == V6_BITS && b.prefix <= ip
  }

  lemma {:induction false} MaskOnesOfMask(ones: nat, width: nat)
    requires ones <= width
    ensures MaskOnes(Mask(ones, width)) == ones
  {
    if ones == 0 {
    } else {
      MaskOnesOfMask(ones - 1, width - 1);
      assert Mask(ones, width)[1..] == Mask(ones - 1, width - 1);
    }
  }

  // Comparing under a mask of leading ones is comparing a prefix.
  lemma MaskedEqualIsPrefix(a: Bits, x: Bits, ones: nat)
    requires |a| == |x| && ones <= |a|
    ensures MaskedEqual(And(a, Mask(ones, |a|)), Mask(ones, |a|), x) <==> a[..ones] <= x
  {
    var m := Mask(ones, |a|);
    if MaskedEqual(And(a, m), m, x) {
      forall i | 0 <= i < ones ensures a[i] == x[i] {
        assert And(And(a, m), m)[i] == And(x, m)[i];
      }
    }
    if a[..ones] <= x {
      assert forall i :: 0 <= i < ones ==> a[i] == a[..ones][i] == x[i];
      assert And(And(a, m), m) == And(x, m);
    }
  }

  // A masked 128-bit number is IPv4-mapped only when the whole mapped prefix is kept.
  lemma MaskedMapped(p: Prefix)
    requires p.Valid() && |p.addr| == V6_BITS
    ensures To4(ParseCidr(p).ip).Some? <==> Mapped(p)
  {
    var ip := ParseCidr(p).ip;
    if ip[..MAPPED_BITS] == MAPPED_PREFIX {
      assert ip[95] == ip[..MAPPED_BITS][95] == MAPPED_PREFIX[95] == true;
      assert p.ones >= MAPPED_BITS;
    }
    if p.ones >= MAPPED_BITS {
      assert ip[..MAPPED_BITS] == p.addr[..MAPPED_BITS];
    }
  }

  // Go's byte-wise test is membership in the prefix block, for addresses of
  // any length and networks of either family, IPv4-mapped ones included.
  lemma ContainsIsPrefixMatch(p: Prefix, ip: Bits)
    requires p.Valid()
    ensures Contains(ParseCidr(p), ip) <==> InBlock(BlockOf(p), ip)
  {
    var n := ParseCidr(p);
    var x := Narrow(ip);
    if |p.addr| == V4_BITS {
      if |x| == V4_BITS { MaskedEqualIsPrefix(p.addr, x, p.ones); }
    } else {
      MaskedMapped(p);
      if Mapped(p) {
        var a, k := p.addr[MAPPED_BITS..], p.ones - MAPPED_BITS;
        assert n.mask[MAPPED_BITS..] == Mask(k, V4_BITS);
        assert n.ip[MAPPED_BITS..] == And(a, Mask(k, V4_BITS));
        assert a[..k] == p.addr[MAPPED_BITS..p.ones];
        if |x| == V4_BITS { MaskedEqualIsPrefix(a, x, k); }
      } else if |x| == V6_BITS {
        MaskedEqualIsPrefix(p.addr, x, p.ones);
      }
    }
  }

  // ---- nesting ----------------------------------------------------------

  predicate Inside(inner: Block, outer: Block) {
    inner.v4 == outer.v4 && outer.prefix <= inner.prefix
  }

  predicate WellFormed(b: Block) {
    if b.v4 then |b.prefix| <= V4_BITS
    else |b.prefix| <= V6_BITS && (|b.prefix| >= MAPPED_BITS ==> b.prefix[..MAPPED_BITS] != MAPPED_PREFIX)
  }

  lemma BlockOfIsWellFormed(p: Prefix)
    requires p.Valid()
    ensures WellFormed(BlockOf(p))
    ensures |BlockOf(p).prefix| == if Mapped(p) then p.ones - MAPPED_BITS else p.ones
  {}

  // Blocks that share an address are nested, the longer inside the shorter;
  // blocks of equal length that share an address are equal.
  lemma SharedAddressNests(a: Block, b: Block, ip: Bits)
    requires InBlock(a, ip) && InBlock(b, ip) && |a.prefix| >= |b.prefix|
    ensures Inside(a, b)
    ensures |a.prefix| == |b.prefix| ==> a == b
  {}

  function Padded(b: Block): Bits
    requires WellFormed(b)
  {
    b.prefix + Repeat((if b.v4 then V4_BITS else V6_BITS) - |b.prefix|, false)
  }

  lemma PaddedIsInside(b: Block)
    requires WellFormed(b)
    ensures InBlock(b, Padded(b))
  {
    if !b.v4 {
      var ip := Padded(b);
      if |b.prefix| < MAPPED_BITS {
        assert ip[..MAPPED_BITS][95] == false && MAPPED_PREFIX[95] == true;
      } else {
        assert ip[..MAPPED_BITS] == b.prefix[..MAPPED_BITS];
      }
    }
  }

  // Nesting of blocks is inclusion of their address sets.
  lemma InsideIsInclusion(inner: Block, outer: Block)
    requires WellFormed(inner) && WellFormed(outer)
    requires |outer.prefix| <= |inner.prefix|
    ensures Inside(inner, outer) <==> forall ip :: InBlock(inner, ip) ==> InBlock(outer, ip)
  {
    if forall ip :: InBlock(inner, ip) ==> InBlock(outer, ip) {
      PaddedIsInside(inner);
      SharedAddressNests(inner, outer, Padded(inner));
    }
  }

  // A network is fixed by its width, its length and the bits it keeps.
  lemma SamePrefixSameNetwork(p: Prefix, q: Prefix)
    requires p.Valid() && q.Valid()
    requires |p.addr| == |q.addr| && p.addr[..p.ones] == q.addr[..q.ones]
    ensures ParseCidr(p) == ParseCidr(q)
  {}
}
