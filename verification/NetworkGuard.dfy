/**
 Which network addresses are private or reserved: a list of CIDR blocks per address family, and the
 IPv4 list for an IPv4 address that is written inside an IPv6 text.
 */
module NetworkGuard {
  import opened AddressText
  import opened Numerals
  import opened Options
  import opened Text

  // ---------------------------------------------------------------- blocks

  /** What `isIPv4` and `isIPv6` say about a text. */
  datatype Family = IPv4 | IPv6 | NoAddress

  datatype Address = Address(text: string, family: Family)

  /** A block in the notation base/prefix. */
  datatype Cidr = Cidr(base: Address, prefix: nat)

  function Bits(f: Family): nat { if f == IPv4 then 32 else 128 }

  function NumberOf(a: Address): nat { if a.family == IPv4 then Ipv4ToNumber(a.text) else Ipv6Number(a.text) }

  /** `x >> bits` */
  function ShiftRight(x: nat, bits: nat): nat { x / Pow(2, bits) }

  predicate InCidr(ip: Address, c: Cidr) {
    && ip.family == c.base.family
    && c.prefix <= Bits(ip.family)
    && var shift := Bits(ip.family) - c.prefix;
       ShiftRight(NumberOf(ip), shift) == ShiftRight(NumberOf(c.base), shift)
  }

  /** The largest multiple of the block size that is not above the number. */
  function Aligned(b: nat, bits: nat): nat { b - b % Pow(2, bits) }

  lemma QuotientIs(x: nat, p: nat, q: nat)
    requires p > 0
    ensures x / p == q <==> q * p <= x < q * p + p
  {
    DivMod(x, p);
    DivisionIsUnique(x, p, x / p, x % p, q);
  }

  lemma DivisionIsUnique(x: nat, p: nat, r: nat, rest: nat, q: nat)
    requires x == r * p + rest && rest < p
    ensures r == q <==> q * p <= x < q * p + p
  {
    if q < r {
      MulOrder(p, q + 1, r);
    } else if r < q {
      MulOrder(p, r + 1, q);
    }
  }

  /** Equal after the shift means: in the same aligned block. */
  lemma ShiftIsBlock(x: nat, b: nat, bits: nat)
    ensures ShiftRight(x, bits) == ShiftRight(b, bits) <==> Aligned(b, bits) <= x < Aligned(b, bits) + Pow(2, bits)
  {
    var p := Pow(2, bits);
    QuotientIs(x, p, b / p);
    DivMod(b, p);
  }

  lemma InCidrIffInBlock(ip: Address, c: Cidr)
    requires ip.family == c.base.family && c.prefix <= Bits(ip.family)
    ensures var shift := Bits(ip.family) - c.prefix;
            var low := Aligned(NumberOf(c.base), shift);
            InCidr(ip, c) <==> low <= NumberOf(ip) < low + Pow(2, shift)
  {
    hide Pow, NumberOf, ShiftRight, Aligned;
    ShiftIsBlock(NumberOf(ip), NumberOf(c.base), Bits(ip.family) - c.prefix);
  }

  // ---------------------------------------------------------------- the reserved blocks

  function V4Block(a: nat, b: nat, c: nat, d: nat, prefix: nat): Cidr {
    Cidr(Address(DottedText([a, b, c, d]), IPv4), prefix)
  }

  function V6Block(t: V6Text, prefix: nat): Cidr { Cidr(Address(t.Print(), IPv6), prefix) }

  function V4Reserved(): seq<Cidr> {
    [
      V4Block(0, 0, 0, 0, 8),
      V4Block(10, 0, 0, 0, 8),
      V4Block(100, 64, 0, 0, 10),
      V4Block(127, 0, 0, 0, 8),
      V4Block(169, 254, 0, 0, 16),
      V4Block(172, 16, 0, 0, 12),
      V4Block(192, 0, 0, 0, 24),
      V4Block(192, 0, 2, 0, 24),
      V4Block(192, 168, 0, 0, 16),
      V4Block(198, 18, 0, 0, 15),
      V4Block(198, 51, 100, 0, 24),
      V4Block(203, 0, 113, 0, 24),
      V4Block(224, 0, 0, 0, 4),
      V4Block(240, 0, 0, 0, 4),
      V4Block(255, 255, 255, 255, 32)
    ]
  }

  const LOOPBACK := V6Text([], true, ["1"], None)
  const UNSPECIFIED := V6Text([], true, [], None)
  const UNIQUE_LOCAL := V6Text(["fc00"], true, [], None)
  const LINK_LOCAL := V6Text(["fe80"], true, [], None)
  const MULTICAST := V6Text(["ff00"], true, [], None)

  function V6Reserved(): seq<Cidr> {
    [
      V6Block(LOOPBACK, 128),
      V6Block(UNSPECIFIED, 128),
      V6Block(UNIQUE_LOCAL, 7),
      V6Block(LINK_LOCAL, 10),
      V6Block(MULTICAST, 8)
    ]
  }

  predicate InAny(ip: Address, blocks: seq<Cidr>) {
    exists i | 0 <= i < |blocks| :: InCidr(ip, blocks[i])
  }

  /** The IPv4 text in an address written `::ffff:a.b.c.d`, in either case. */
  function MappedQuad(text: string): Option<string> {
    if |text| >= 7 && Lower(text[..7]) == "::ffff:" && IsDotted(text[7..]) then Some(text[7..]) else None
  }

  /** What no rule can classify is treated as reserved. */
  predicate IsPrivateOrReserved(a: Address) {
    match a.family
    case IPv4 => InAny(a, V4Reserved())
    case IPv6 =>
      var quad := MappedQuad(a.text);
      if quad.Some? then InAny(Address(quad.value, IPv4), V4Reserved()) else InAny(a, V6Reserved())
    case NoAddress => true
  }

  // ---------------------------------------------------------------- IPv4: a union of intervals

  predicate ReservedV4(v: nat) {
    || v < 0x0100_0000
    || 0x0A00_0000 <= v < 0x0B00_0000
    || 0x6440_0000 <= v < 0x6480_0000
    || 0x7F00_0000 <= v < 0x8000_0000
    || 0xA9FE_0000 <= v < 0xA9FF_0000
    || 0xAC10_0000 <= v < 0xAC20_0000
    || 0xC000_0000 <= v < 0xC000_0100
    || 0xC000_0200 <= v < 0xC000_0300
    || 0xC0A8_0000 <= v < 0xC0A9_0000
    || 0xC612_0000 <= v < 0xC614_0000
    || 0xC633_6400 <= v < 0xC633_6500
    || 0xCB00_7100 <= v < 0xCB00_7200
    || 0xE000_0000 <= v
  }

  lemma PowersOfTwo()
    ensures Pow(2, 0) == 1 && Pow(2, 6) == 0x40 && Pow(2, 8) == 0x100 && Pow(2, 9) == 0x200
    ensures Pow(2, 16) == 0x1_0000 && Pow(2, 17) == 0x2_0000 && Pow(2, 20) == 0x10_0000
    ensures Pow(2, 22) == 0x40_0000 && Pow(2, 24) == 0x100_0000 && Pow(2, 28) == 0x1000_0000
  {
    assert Pow(2, 4) == 16 && Pow(2, 6) == 64 && Pow(2, 8) == 256;
    PowAdd(2, 8, 8);
    PowAdd(2, 16, 4);
    PowAdd(2, 16, 6);
    PowAdd(2, 16, 8);
    PowAdd(2, 24, 4);
  }

  lemma {:induction false} PowAdd(base: nat, m: nat, n: nat)
    ensures Pow(base, m + n) == Pow(base, m) * Pow(base, n)
  {
    if m > 0 {
      PowAdd(base, m - 1, n);
      assert Pow(base, m + n) == base * Pow(base, m - 1 + n);
      MulAssociates(base, Pow(base, m - 1), Pow(base, n));
    }
  }

  lemma MulAssociates(x: nat, y: nat, z: nat)
    ensures x * (y * z) == (x * y) * z
  {}

  lemma V4Numbers(v: nat, a: nat, b: nat, c: nat, d: nat, prefix: nat)
    requires v < 0x1_0000_0000
    ensures NumberOf(Address(DottedQuad(v), IPv4)) == v
    ensures NumberOf(V4Block(a, b, c, d, prefix).base) == a * 0x100_0000 + b * 0x1_0000 + c * 256 + d
  {
    QuadValue([a, b, c, d]);
    DecodesDottedQuad(v);
    hide DottedText, Ipv4ToNumber, DottedQuad;
  }

  lemma BlockIs(ip: Address, c: Cidr, low: nat, size: nat)
    requires ip.family == c.base.family == IPv4 && c.prefix <= 32
    requires Pow(2, 32 - c.prefix) == size && NumberOf(c.base) == low && low % size == 0
    ensures InCidr(ip, c) <==> low <= NumberOf(ip) < low + size
  {
    hide NumberOf, InCidr, Pow;
    InCidrIffInBlock(ip, c);
  }

  /** One block of the IPv4 list is one interval. */
  lemma V4Interval(v: nat, a: nat, b: nat, c: nat, d: nat, prefix: nat, low: nat, size: nat)
    requires v < 0x1_0000_0000 && prefix <= 32 && Pow(2, 32 - prefix) == size
    requires a * 0x100_0000 + b * 0x1_0000 + c * 256 + d == low && low % size == 0
    ensures InCidr(Address(DottedQuad(v), IPv4), V4Block(a, b, c, d, prefix)) <==> low <= v < low + size
  {
    hide NumberOf, InCidr, Pow, DottedQuad, DottedText;
    V4Numbers(v, a, b, c, d, prefix);
    BlockIs(Address(DottedQuad(v), IPv4), V4Block(a, b, c, d, prefix), low, size);
  }

  lemma LowerIntervals(v: nat)
    requires v < 0x1_0000_0000
    ensures var ip := Address(DottedQuad(v), IPv4);
            && (InCidr(ip, V4Block(0, 0, 0, 0, 8)) <==> v < 0x0100_0000)
            && (InCidr(ip, V4Block(10, 0, 0, 0, 8)) <==> 0x0A00_0000 <= v < 0x0B00_0000)
            && (InCidr(ip, V4Block(100, 64, 0, 0, 10)) <==> 0x6440_0000 <= v < 0x6480_0000)
            && (InCidr(ip, V4Block(127, 0, 0, 0, 8)) <==> 0x7F00_0000 <= v < 0x8000_0000)
            && (InCidr(ip, V4Block(169, 254, 0, 0, 16)) <==> 0xA9FE_0000 <= v < 0xA9FF_0000)
  {
    PowersOfTwo();
    hide Pow, DottedQuad, InCidr, V4Block;
    V4Interval(v, 0, 0, 0, 0, 8, 0x0000_0000, 0x100_0000);
    V4Interval(v, 10, 0, 0, 0, 8, 0x0A00_0000, 0x100_0000);
    V4Interval(v, 100, 64, 0, 0, 10, 0x6440_0000, 0x40_0000);
    V4Interval(v, 127, 0, 0, 0, 8, 0x7F00_0000, 0x100_0000);
    V4Interval(v, 169, 254, 0, 0, 16, 0xA9FE_0000, 0x1_0000);
  }

  lemma MiddleIntervals(v: nat)
    requires v < 0x1_0000_0000
    ensures var ip := Address(DottedQuad(v), IPv4);
            && (InCidr(ip, V4Block(172, 16, 0, 0, 12)) <==> 0xAC10_0000 <= v < 0xAC20_0000)
            && (InCidr(ip, V4Block(192, 0, 0, 0, 24)) <==> 0xC000_0000 <= v < 0xC000_0100)
            && (InCidr(ip, V4Block(192, 0, 2, 0, 24)) <==> 0xC000_0200 <= v < 0xC000_0300)
            && (InCidr(ip, V4Block(192, 168, 0, 0, 16)) <==> 0xC0A8_0000 <= v < 0xC0A9_0000)
            && (InCidr(ip, V4Block(198, 18, 0, 0, 15)) <==> 0xC612_0000 <= v < 0xC614_0000)
  {
    PowersOfTwo();
    hide Pow, DottedQuad, InCidr, V4Block;
    V4Interval(v, 172, 16, 0, 0, 12, 0xAC10_0000, 0x10_0000);
    V4Interval(v, 192, 0, 0, 0, 24, 0xC000_0000, 0x100);
    V4Interval(v, 192, 0, 2, 0, 24, 0xC000_0200, 0x100);
    V4Interval(v, 192, 168, 0, 0, 16, 0xC0A8_0000, 0x1_0000);
    V4Interval(v, 198, 18, 0, 0, 15, 0xC612_0000, 0x2_0000);
  }

  lemma UpperIntervals(v: nat)
    requires v < 0x1_0000_0000
    ensures var ip := Address(DottedQuad(v), IPv4);
            && (InCidr(ip, V4Block(198, 51, 100, 0, 24)) <==> 0xC633_6400 <= v < 0xC633_6500)
            && (InCidr(ip, V4Block(203, 0, 113, 0, 24)) <==> 0xCB00_7100 <= v < 0xCB00_7200)
            && (InCidr(ip, V4Block(224, 0, 0, 0, 4)) <==> 0xE000_0000 <= v < 0xF000_0000)
            && (InCidr(ip, V4Block(240, 0, 0, 0, 4)) <==> 0xF000_0000 <= v)
            && (InCidr(ip, V4Block(255, 255, 255, 255, 32)) <==> v == 0xFFFF_FFFF)
  {
    PowersOfTwo();
    hide Pow, DottedQuad, InCidr, V4Block;
    V4Interval(v, 198, 51, 100, 0, 24, 0xC633_6400, 0x100);
    V4Interval(v, 203, 0, 113, 0, 24, 0xCB00_7100, 0x100);
    V4Interval(v, 224, 0, 0, 0, 4, 0xE000_0000, 0x1000_0000);
    V4Interval(v, 240, 0, 0, 0, 4, 0xF000_0000, 0x1000_0000);
    V4Interval(v, 255, 255, 255, 255, 32, 0xFFFF_FFFF, 1);
  }

  /** The blocks of a list, one at a time. */
  lemma InAnySplits(ip: Address, front: seq<Cidr>, back: seq<Cidr>)
    ensures InAny(ip, front + back) <==> InAny(ip, front) || InAny(ip, back)
  {
    var all := front + back;
    if i :| 0 <= i < |all| && InCidr(ip, all[i]) {
      assert i >= |front| ==> InCidr(ip, back[i - |front|]);
    }
    if i :| 0 <= i < |front| && InCidr(ip, front[i]) { assert InCidr(ip, all[i]); }
    if i :| 0 <= i < |back| && InCidr(ip, back[i]) { assert InCidr(ip, all[|front| + i]); }
  }

  lemma InAnyOfFive(ip: Address, c0: Cidr, c1: Cidr, c2: Cidr, c3: Cidr, c4: Cidr)
    ensures InAny(ip, [c0, c1, c2, c3, c4])
       <==> InCidr(ip, c0) || InCidr(ip, c1) || InCidr(ip, c2) || InCidr(ip, c3) || InCidr(ip, c4)
  {
    var s := [c0, c1, c2, c3, c4];
    hide InCidr;
    assert s[0] == c0 && s[1] == c1 && s[2] == c2 && s[3] == c3 && s[4] == c4;
  }

  lemma Fifteen(c: seq<Cidr>)
    requires |c| == 15
    ensures c == c[0..5] + (c[5..10] + c[10..15])
    ensures c[0..5] == [c[0], c[1], c[2], c[3], c[4]]
    ensures c[5..10] == [c[5], c[6], c[7], c[8], c[9]]
    ensures c[10..15] == [c[10], c[11], c[12], c[13], c[14]]
  {}

  lemma V4Thirds(ip: Address)
    ensures InAny(ip, V4Reserved()) <==>
            || InAny(ip, [V4Block(0, 0, 0, 0, 8), V4Block(10, 0, 0, 0, 8), V4Block(100, 64, 0, 0, 10),
                          V4Block(127, 0, 0, 0, 8), V4Block(169, 254, 0, 0, 16)])
            || InAny(ip, [V4Block(172, 16, 0, 0, 12), V4Block(192, 0, 0, 0, 24), V4Block(192, 0, 2, 0, 24),
                          V4Block(192, 168, 0, 0, 16), V4Block(198, 18, 0, 0, 15)])
            || InAny(ip, [V4Block(198, 51, 100, 0, 24), V4Block(203, 0, 113, 0, 24), V4Block(224, 0, 0, 0, 4),
                          V4Block(240, 0, 0, 0, 4), V4Block(255, 255, 255, 255, 32)])
  {
    hide InAny, V4Block;
    var all := V4Reserved();
    Fifteen(all);
    InAnySplits(ip, all[0..5], all[5..10] + all[10..15]);
    InAnySplits(ip, all[5..10], all[10..15]);
  }

  lemma InV4Reserved(v: nat)
    requires v < 0x1_0000_0000
    ensures InAny(Address(DottedQuad(v), IPv4), V4Reserved()) <==> ReservedV4(v)
  {
    var ip := Address(DottedQuad(v), IPv4);
    hide DottedQuad, InCidr, InAny, V4Block, V4Reserved;
    V4Thirds(ip);
    InAnyOfFive(ip, V4Block(0, 0, 0, 0, 8), V4Block(10, 0, 0, 0, 8), V4Block(100, 64, 0, 0, 10),
                V4Block(127, 0, 0, 0, 8), V4Block(169, 254, 0, 0, 16));
    InAnyOfFive(ip, V4Block(172, 16, 0, 0, 12), V4Block(192, 0, 0, 0, 24), V4Block(192, 0, 2, 0, 24),
                V4Block(192, 168, 0, 0, 16), V4Block(198, 18, 0, 0, 15));
    InAnyOfFive(ip, V4Block(198, 51, 100, 0, 24), V4Block(203, 0, 113, 0, 24), V4Block(224, 0, 0, 0, 4),
                V4Block(240, 0, 0, 0, 4), V4Block(255, 255, 255, 255, 32));
    LowerIntervals(v);
    MiddleIntervals(v);
    UpperIntervals(v);
  }

  lemma Ipv4IsAUnionOfIntervals(v: nat)
    requires v < 0x1_0000_0000
    ensures IsPrivateOrReserved(Address(DottedQuad(v), IPv4)) <==> ReservedV4(v)
  {
    InV4Reserved(v);
  }

  // ---------------------------------------------------------------- IPv6: by the first group, and two single addresses

  predicate AllZero(g: seq<nat>) { forall i | 0 <= i < |g| :: g[i] == 0 }

  predicate ReservedGroups(g: seq<nat>)
    requires |g| == 8
  {
    || (AllZero(g[..7]) && g[7] <= 1)
    || 0xFC00 <= g[0] < 0xFE00
    || 0xFE80 <= g[0] < 0xFEC0
    || 0xFF00 <= g[0]
  }

  lemma {:induction false} PowOfGroups(n: nat)
    ensures Pow(65536, n) == Pow(2, 16 * n)
  {
    if n > 0 {
      PowOfGroups(n - 1);
      PowersOfTwo();
      PowAdd(2, 16, 16 * (n - 1));
      assert Pow(65536, n) == 65536 * Pow(65536, n - 1);
    }
  }

  lemma {:induction false} PositionalZero(g: seq<nat>)
    ensures Positional(65536, g) == 0 <==> AllZero(g)
  {
    if g != [] {
      PositionalZero(g[1..]);
      assert AllZero(g) <==> g[0] == 0 && AllZero(g[1..]);
      Vanishes(g[0], Pow(65536, |g| - 1));
    }
  }

  lemma Vanishes(x: nat, p: nat)
    requires p > 0
    ensures x * p == 0 <==> x == 0
  {
    if x > 0 { MulOrder(p, 1, x); }
  }

  lemma SmallValue(g: seq<nat>, k: nat)
    requires |g| == 8 && k <= 1 && forall i | 0 <= i < 8 :: g[i] < 65536
    ensures Positional(65536, g) == k <==> AllZero(g[..7]) && g[7] == k
  {
    PositionalAppend(65536, g[..7], g[7]);
    PositionalZero(g[..7]);
    assert g == g[..7] + [g[7]];
  }

  /** Shifting out the lower seven groups, and some bits of the first. */
  lemma ShiftLeavesFirst(first: nat, low: nat, q: nat, m: nat)
    requires low < q && m > 0
    ensures q * m > 0 && (first * q + low) / (q * m) == first / m
  {
    DivMod(first, m);
    Sandwich(first, low, q, m, first / m, first % m);
    QuotientIs(first * q + low, q * m, first / m);
  }

  lemma Sandwich(first: nat, low: nat, q: nat, m: nat, d: nat, rest: nat)
    requires low < q && rest < m && first == d * m + rest
    ensures q * m > 0 && d * (q * m) <= first * q + low < d * (q * m) + q * m
  {
    MulOrder(q, 1, m);
    assert first * q == (d * m) * q + rest * q;
    assert d * (q * m) == (d * m) * q;
    MulOrder(q, rest + 1, m);
    assert q * (rest + 1) == rest * q + q;
  }

  lemma FirstAndRest(g: seq<nat>) returns (low: nat)
    requires |g| == 8 && forall i | 0 <= i < 8 :: g[i] < 65536
    ensures low < Pow(65536, 7) && Positional(65536, g) == g[0] * Pow(65536, 7) + low
  {
    low := Positional(65536, g[1..]);
    FoldIsPositional(65536, g[1..]);
    FoldBound(65536, g[1..]);
  }

  lemma ShiftedGroups(g: seq<nat>, bits: nat)
    requires |g| == 8 && bits <= 16 && forall i | 0 <= i < 8 :: g[i] < 65536
    ensures ShiftRight(Positional(65536, g), 112 + bits) == g[0] / Pow(2, bits)
  {
    hide Positional, Pow;
    var low := FirstAndRest(g);
    PowOfGroups(7);
    PowAdd(2, 112, bits);
    var q, m := Pow(65536, 7), Pow(2, bits);
    assert Pow(2, 112 + bits) == q * m;
    ShiftLeavesFirst(g[0], low, q, m);
  }

  lemma ShiftedNumber(t: V6Text, bits: nat)
    requires t.Valid() && bits <= 16
    ensures ShiftRight(Ipv6Number(t.Print()), 112 + bits) == t.Groups()[0] / Pow(2, bits)
  {
    DecodesIpv6(t);
    GroupsBound(t);
    hide Ipv6Number, V6Text.Groups, V6Text.Print, V6Text.Valid, Fold, Positional, Pow, ShiftRight;
    ShiftedGroups(t.Groups(), bits);
  }

  function V6Address(t: V6Text): Address { Address(t.Print(), IPv6) }

  lemma InV6Block(t: V6Text, base: V6Text, prefix: nat)
    requires prefix <= 128
    ensures InCidr(V6Address(t), V6Block(base, prefix))
       <==> ShiftRight(Ipv6Number(t.Print()), 128 - prefix) == ShiftRight(Ipv6Number(base.Print()), 128 - prefix)
  {
    hide Ipv6Number, V6Text.Print, ShiftRight;
  }

  lemma FirstGroupBlock(t: V6Text, base: V6Text, prefix: nat)
    requires t.Valid() && base.Valid() && prefix <= 16
    ensures InCidr(V6Address(t), V6Block(base, prefix))
       <==> t.Groups()[0] / Pow(2, 16 - prefix) == base.Groups()[0] / Pow(2, 16 - prefix)
  {
    hide Ipv6Number, V6Text.Groups, V6Text.Print, ShiftRight, Pow, InCidr, V6Block, V6Address;
    ShiftedNumber(t, 16 - prefix);
    ShiftedNumber(base, 16 - prefix);
    InV6Block(t, base, prefix);
    assert 112 + (16 - prefix) == 128 - prefix;
  }

  lemma SingleAddress(t: V6Text, base: V6Text, k: nat)
    requires t.Valid() && base.Valid() && k <= 1 && AllZero(base.Groups()[..7]) && base.Groups()[7] == k
    ensures InCidr(V6Address(t), V6Block(base, 128)) <==> AllZero(t.Groups()[..7]) && t.Groups()[7] == k
  {
    DecodesIpv6(t);
    DecodesIpv6(base);
    GroupsBound(t);
    GroupsBound(base);
    SmallValue(t.Groups(), k);
    SmallValue(base.Groups(), k);
    assert Pow(2, 0) == 1;
    InV6Block(t, base, 128);
    hide Ipv6Number, V6Text.Groups, V6Text.Print, V6Text.Valid, Positional, Pow, InCidr, V6Block, V6Address;
  }

  lemma ReadFour(a: char, b: char, c: char, d: char)
    ensures Read([a, b, c, d], 16)
         == DigitValue(a) * 4096 + DigitValue(b) * 256 + DigitValue(c) * 16 + DigitValue(d)
  {
    assert Read([], 16) == 0;
    ReadLast([], a, 16);
    ReadLast([a], b, 16);
    ReadLast([a, b], c, 16);
    ReadLast([a, b, c], d, 16);
    assert [] + [a] == [a] && [a] + [b] == [a, b] && [a, b] + [c] == [a, b, c] && [a, b, c] + [d] == [a, b, c, d];
  }

  lemma RangeBases()
    ensures UNIQUE_LOCAL.Valid() && UNIQUE_LOCAL.Groups()[0] == 0xFC00
    ensures LINK_LOCAL.Valid() && LINK_LOCAL.Groups()[0] == 0xFE80
    ensures MULTICAST.Valid() && MULTICAST.Groups()[0] == 0xFF00
  {
    ReadFour('f', 'c', '0', '0');
    ReadFour('f', 'e', '8', '0');
    ReadFour('f', 'f', '0', '0');
  }

  lemma SingleBases()
    ensures LOOPBACK.Valid() && AllZero(LOOPBACK.Groups()[..7]) && LOOPBACK.Groups()[7] == 1
    ensures UNSPECIFIED.Valid() && AllZero(UNSPECIFIED.Groups()[..7]) && UNSPECIFIED.Groups()[7] == 0
  {
    ReadLoopback();
    hide Read;
  }

  lemma Ranges(x: nat)
    requires x < 65536
    ensures x / 0x200 == 0xFC00 / 0x200 <==> 0xFC00 <= x < 0xFE00
    ensures x / 0x40 == 0xFE80 / 0x40 <==> 0xFE80 <= x < 0xFEC0
    ensures x / 0x100 == 0xFF00 / 0x100 <==> 0xFF00 <= x
  {}

  lemma UniqueLocalBlock(t: V6Text)
    requires t.Valid()
    ensures InCidr(V6Address(t), V6Block(UNIQUE_LOCAL, 7)) <==> 0xFC00 <= t.Groups()[0] < 0xFE00
  {
    hide *;
    GroupsBound(t);
    RangeBases();
    PowersOfTwo();
    FirstGroupBlock(t, UNIQUE_LOCAL, 7);
    Ranges(t.Groups()[0]);
  }

  lemma LinkLocalBlock(t: V6Text)
    requires t.Valid()
    ensures InCidr(V6Address(t), V6Block(LINK_LOCAL, 10)) <==> 0xFE80 <= t.Groups()[0] < 0xFEC0
  {
    hide *;
    GroupsBound(t);
    RangeBases();
    PowersOfTwo();
    FirstGroupBlock(t, LINK_LOCAL, 10);
    Ranges(t.Groups()[0]);
  }

  lemma MulticastBlock(t: V6Text)
    requires t.Valid()
    ensures InCidr(V6Address(t), V6Block(MULTICAST, 8)) <==> 0xFF00 <= t.Groups()[0]
  {
    hide *;
    GroupsBound(t);
    RangeBases();
    PowersOfTwo();
    FirstGroupBlock(t, MULTICAST, 8);
    Ranges(t.Groups()[0]);
  }

  lemma SingleBlocks(t: V6Text)
    requires t.Valid()
    ensures InCidr(V6Address(t), V6Block(LOOPBACK, 128)) <==> AllZero(t.Groups()[..7]) && t.Groups()[7] == 1
    ensures InCidr(V6Address(t), V6Block(UNSPECIFIED, 128)) <==> AllZero(t.Groups()[..7]) && t.Groups()[7] == 0
  {
    SingleBases();
    hide V6Text.Groups, V6Text.Print, InCidr, V6Block, V6Address;
    SingleAddress(t, LOOPBACK, 1);
    SingleAddress(t, UNSPECIFIED, 0);
  }

  lemma InV6Reserved(t: V6Text)
    requires t.Valid()
    ensures InAny(V6Address(t), V6Reserved()) <==> ReservedGroups(t.Groups())
  {
    hide V6Text.Groups, V6Text.Print, V6Text.Valid, InCidr, InAny, V6Block, V6Address;
    SingleBlocks(t);
    UniqueLocalBlock(t);
    LinkLocalBlock(t);
    MulticastBlock(t);
    InAnyOfFive(V6Address(t), V6Block(LOOPBACK, 128), V6Block(UNSPECIFIED, 128), V6Block(UNIQUE_LOCAL, 7),
                V6Block(LINK_LOCAL, 10), V6Block(MULTICAST, 8));
  }

  // ---------------------------------------------------------------- an IPv4 address inside an IPv6 text

  /** The texts `::ffff:a.b.c.d`. */
  predicate IsMapped(t: V6Text) {
    t.head == [] && t.elided && |t.tail| == 1 && Lower(t.tail[0]) == "ffff" && t.dotted.Some?
  }

  lemma MappedText(t: V6Text)
    requires t.Valid() && IsMapped(t)
    ensures MappedQuad(t.Print()) == Some(DottedText(t.dotted.value))
  {
    PrintEndsWithQuad(t);
    OctetsAreDotted(t.dotted.value);
    var quad := DottedText(t.dotted.value);
    assert Front(t) == "" + "::" + (t.tail[0] + ":");
    var front := Front(t);
    assert |front| == 7;
    assert Lower(front) == "::ffff:" by {
      forall i | 2 <= i < 6 ensures Lower(front)[i] == 'f' {
        assert front[i] == t.tail[0][i - 2];
        assert Lower(t.tail[0])[i - 2] == 'f';
      }
    }
    hide DottedText, Front;
    assert (front + quad)[..7] == front && (front + quad)[7..] == quad;
  }

  lemma FrontIsMapped(t: V6Text)
    requires t.Valid() && t.dotted.Some? && |Front(t)| == 7 && Lower(Front(t)) == "::ffff:"
    ensures IsMapped(t)
  {
    var front := Front(t);
    assert LowerChar(front[0]) == Lower(front)[0] == ':';
    assert front[0] == ':';
    JoinedGroups(t.head);
    assert t.elided && t.head == [];
    var tail := Join(t.tail, ':');
    assert t.tail != [];
    assert front == "" + "::" + (tail + ":");
    assert |tail| == 4 && Lower(tail) == "ffff" by {
      forall i | 0 <= i < 4 ensures Lower(tail)[i] == 'f' {
        assert tail[i] == front[i + 2];
        assert Lower(front)[i + 2] == 'f';
      }
    }
    forall i | 0 <= i < 4 ensures tail[i] != ':' {
      assert LowerChar(tail[i]) == Lower(tail)[i] == 'f';
    }
    SplitWord(tail, ':');
    GroupsHaveNo(t.tail, ':');
    SplitOfJoin(t.tail, ':');
  }

  lemma OnlyMappedText(t: V6Text)
    requires t.Valid() && MappedQuad(t.Print()).Some?
    ensures IsMapped(t)
  {
    var text := t.Print();
    var prefix, quad := text[..7], text[7..];
    assert text == prefix + quad;
    assert LowerChar(prefix[6]) == Lower(prefix)[6] == ':';
    DottedStartsThere(prefix, quad);
    if t.dotted.None? {
      NoDotInText(t);
      NoDotNoStart(text);
      assert false;
    }
    PrintEndsWithQuad(t);
    OctetsAreDotted(t.dotted.value);
    var front := Front(t);
    assert front != "" ==> front[|front| - 1] == ':';
    DottedStartsThere(front, DottedText(t.dotted.value));
    assert front == prefix;
    FrontIsMapped(t);
  }

  /**
   The answer for every IPv6 text: by the embedded IPv4 address when the text is written `::ffff:a.b.c.d`,
   and by the eight groups otherwise.
   */
  lemma Ipv6Answer(t: V6Text)
    requires t.Valid()
    ensures IsPrivateOrReserved(V6Address(t)) <==>
              if IsMapped(t) then
                var o := t.dotted.value;
                ReservedV4(o[0] * 0x100_0000 + o[1] * 0x1_0000 + o[2] * 256 + o[3])
              else ReservedGroups(t.Groups())
  {
    if IsMapped(t) {
      MappedAnswer(t);
    } else {
      if MappedQuad(t.Print()).Some? { OnlyMappedText(t); }
      InV6Reserved(t);
      hide V6Text.Print, V6Text.Groups, InAny, MappedQuad, V6Reserved, V4Reserved, ReservedGroups, IsMapped;
    }
  }

  lemma MappedAnswer(t: V6Text)
    requires t.Valid() && IsMapped(t)
    ensures var o := t.dotted.value;
            IsPrivateOrReserved(V6Address(t)) <==>
              ReservedV4(o[0] * 0x100_0000 + o[1] * 0x1_0000 + o[2] * 256 + o[3])
  {
    var o := t.dotted.value;
    MappedText(t);
    QuadValue(o);
    PrintsDecoded(o);
    var v := Ipv4ToNumber(DottedText(o));
    hide V6Text.Print, InAny, MappedQuad, V6Reserved, V4Reserved, ReservedV4, DottedText, Ipv4ToNumber, DottedQuad;
    InV4Reserved(v);
  }

  /** The groups of an IPv4 address under the prefix `::ffff`. */
  predicate Embeds(g: seq<nat>)
    requires |g| == 8
  {
    AllZero(g[..5]) && g[5] == 0xFFFF
  }

  lemma MappedGroups(t: V6Text)
    requires t.Valid() && IsMapped(t)
    ensures var o := t.dotted.value;
            && t.Groups()[6] == o[0] * 256 + o[1] && t.Groups()[7] == o[2] * 256 + o[3]
  {
    var g, o := t.Groups(), t.dotted.value;
    assert ReadAll(t.head, 16) == [];
    hide ReadAll;
    assert g[6..] == [o[0] * 256 + o[1], o[2] * 256 + o[3]];
  }

  /**
   An address whose groups embed an IPv4 address is refused iff that one is reserved and the text is
   written `::ffff:a.b.c.d`: in any other spelling of the same address it is accepted.
   */
  lemma EmbeddedAnswer(t: V6Text)
    requires t.Valid() && Embeds(t.Groups())
    ensures IsPrivateOrReserved(V6Address(t)) <==> IsMapped(t) && ReservedV4(t.Groups()[6] * 65536 + t.Groups()[7])
  {
    hide *;
    Ipv6Answer(t);
    EmbeddedIsUnreserved(t.Groups());
    if IsMapped(t) {
      MappedGroups(t);
      MappedHasQuad(t);
    }
  }

  lemma EmbeddedIsUnreserved(g: seq<nat>)
    requires |g| == 8 && Embeds(g)
    ensures !ReservedGroups(g)
  {
    assert g[0] == g[..5][0] == 0 && g[5] == g[..7][5];
  }

  lemma MappedHasQuad(t: V6Text)
    requires t.Valid() && IsMapped(t)
    ensures t.dotted.Some? && |t.dotted.value| == 4
  {}

  const DOTTED_LOOPBACK := V6Text([], true, ["ffff"], Some([127, 0, 0, 1]))
  const HEX_LOOPBACK := V6Text([], true, ["ffff", "7f00", "1"], None)

  /** `::ffff:127.0.0.1` and `::ffff:7f00:1` are the same address, and only the first is refused. */
  lemma SpellingMatters()
    ensures DOTTED_LOOPBACK.Valid() && HEX_LOOPBACK.Valid() && DOTTED_LOOPBACK.Groups() == HEX_LOOPBACK.Groups()
    ensures IsPrivateOrReserved(V6Address(DOTTED_LOOPBACK)) && !IsPrivateOrReserved(V6Address(HEX_LOOPBACK))
  {
    LoopbackGroups();
    assert IsMapped(DOTTED_LOOPBACK) && !IsMapped(HEX_LOOPBACK);
    hide IsPrivateOrReserved, IsMapped, V6Address, V6Text.Groups, V6Text.Valid;
    EmbeddedAnswer(DOTTED_LOOPBACK);
    EmbeddedAnswer(HEX_LOOPBACK);
  }

  lemma ReadLoopback()
    ensures Read("ffff", 16) == 0xFFFF && Read("7f00", 16) == 0x7F00 && Read("1", 16) == 1
  {
    ReadFour('f', 'f', 'f', 'f');
    ReadFour('7', 'f', '0', '0');
    ReadLast([], '1', 16);
    assert [] + ['1'] == "1" && Read([], 16) == 0;
    hide Read;
  }

  lemma LoopbackGroups()
    ensures DOTTED_LOOPBACK.Valid() && DOTTED_LOOPBACK.Groups() == [0, 0, 0, 0, 0, 0xFFFF, 0x7F00, 1]
    ensures HEX_LOOPBACK.Valid() && HEX_LOOPBACK.Groups() == [0, 0, 0, 0, 0, 0xFFFF, 0x7F00, 1]
  {
    ReadLoopback();
    hide Read;
    assert DOTTED_LOOPBACK.Groups() == [] + [0, 0, 0, 0, 0] + [0xFFFF] + [0x7F00, 1];
    assert HEX_LOOPBACK.Groups() == [] + [0, 0, 0, 0, 0] + [0xFFFF, 0x7F00, 1] + [];
  }

  lemma LoopbackTexts()
    ensures DOTTED_LOOPBACK.Print() == "::" + "ffff:127.0.0.1"
    ensures HEX_LOOPBACK.Print() == "::" + "ffff:7f00:1"
  {
    LoopbackQuad();
    hide DottedText;
    assert DOTTED_LOOPBACK.tail + DOTTED_LOOPBACK.Last() == ["ffff", "127.0.0.1"];
    assert HEX_LOOPBACK.tail + HEX_LOOPBACK.Last() == ["ffff", "7f00", "1"];
    hide V6Text.Last;
    JoinSome("ffff", "127.0.0.1", "", ':');
    JoinSome("ffff", "7f00", "1", ':');
    hide Join;
  }

  lemma LoopbackQuad()
    ensures DottedText([127, 0, 0, 1]) == "127.0.0.1"
  {
    SmallNumerals();
    hide Numeral;
    var parts := Decimals([127, 0, 0, 1]);
    assert parts == ["127", "0", "0", "1"] && parts[1..] == ["0", "0", "1"];
    JoinSome("0", "0", "1", '.');
  }

  lemma JoinSome(a: string, b: string, c: string, sep: char)
    ensures Join([a, b], sep) == a + [sep] + b
    ensures Join([a, b, c], sep) == a + [sep] + (b + [sep] + c)
  {
    assert [a, b][1..] == [b] && [a, b, c][1..] == [b, c] && [b, c][1..] == [c];
    assert Join([c], sep) == c && Join([b, c], sep) == b + [sep] + c;
  }

  lemma SmallNumerals()
    ensures Numeral(127, 10) == "127" && Numeral(0, 10) == "0" && Numeral(1, 10) == "1"
  {
    assert Numeral(1, 10) == "1" && Numeral(12, 10) == "12" && Numeral(127, 10) == "127";
  }

  /** What is no address is refused. */
  lemma UnclassifiedIsRefused(text: string)
    ensures IsPrivateOrReserved(Address(text, NoAddress))
  {}

  // ---------------------------------------------------------------- every address of a host

  /** What the resolved addresses say: accepted, none at all, or the first one that is refused. */
  datatype HostCheck = Public | Unresolved | Refused(address: Address)

  method AssertPublicAddress(addresses: seq<Address>) returns (r: HostCheck)
    ensures r == Public <==> addresses != [] && forall i | 0 <= i < |addresses| :: !IsPrivateOrReserved(addresses[i])
    ensures r == Unresolved <==> addresses == []
    ensures r.Refused? ==> exists i | 0 <= i < |addresses| ::
              && r.address == addresses[i] && IsPrivateOrReserved(r.address)
              && forall j | 0 <= j < i :: !IsPrivateOrReserved(addresses[j])
  {
    hide IsPrivateOrReserved;
    if addresses == [] { return Unresolved; }
    for i := 0 to |addresses|
      invariant forall j | 0 <= j < i :: !IsPrivateOrReserved(addresses[j])
    {
      if IsPrivateOrReserved(addresses[i]) { return Refused(addresses[i]); }
    }
    return Public;
  }
}
