/** IP addresses and prefixes as the daemon's address library sees them, and the gateway
    address the daemon derives from a LAN prefix. */
module Addresses {
  import opened Options

  function Pow2(n: nat): (p: nat)
    ensures p > 0
  {
    if n == 0 then 1 else 2 * Pow2(n - 1)
  }

  const WIDTH4: nat := 32
  const WIDTH6: nat := 128

  function Width(is6: bool): nat {
    if is6 then WIDTH6 else WIDTH4
  }

  /** An address is its family and its value as an unsigned integer. */
  datatype Address = Address(is6: bool, value: nat) {
    predicate Valid() {
      value < Pow2(Width(is6))
    }
  }

  datatype RawPrefix = Prefix(addr: Address, bits: nat) {
    predicate Valid() {
      addr.Valid() && bits <= Width(addr.is6)
    }
  }

  /** What netip.ParsePrefix can return. */
  type Prefix = p: RawPrefix | p.Valid() witness RawPrefix.Prefix(Address(true, 0), 0)

  /** Number of addresses covered by a prefix. */
  function BlockSize(p: Prefix): (n: nat)
    ensures n > 0
  {
    Pow2(Width(p.addr.is6) - p.bits)
  }

  /** The largest multiple of m not above v. */
  function RoundDown(v: nat, m: nat): (r: nat)
    requires m > 0
    ensures r <= v
  {
    MulDiv(v, m);
    v / m * m
  }

  /** The network address: the host bits cleared. */
  function NetworkOf(p: Prefix): (v: nat)
    ensures v <= p.addr.value
  {
    RoundDown(p.addr.value, BlockSize(p))
  }

  /** The prefix contains the address: same family, same leading bits. */
  predicate Contains(p: Prefix, a: Address) {
    a.is6 == p.addr.is6 && a.value / BlockSize(p) == p.addr.value / BlockSize(p)
  }

  /** Masked().Addr().Next(): no address follows the very last one. */
  function GatewayAddress(p: Prefix): Option<Address> {
    var next := NetworkOf(p) + 1;
    if next < Pow2(Width(p.addr.is6)) then Some(Address(p.addr.is6, next)) else None
  }

  function Gateway(p: Prefix): (g: Option<Prefix>)
    ensures g.Some? ==> g.value.bits == p.bits
  {
    match GatewayAddress(p)
    case None => None
    case Some(a) => Some(RawPrefix.Prefix(a, p.bits))
  }

  // ---------------------------------------------------------------- arithmetic

  lemma MulDiv(v: nat, m: nat)
    requires m > 0
    ensures 0 <= v / m * m <= v < v / m * m + m
    ensures v / m * m / m == v / m
  {
    assert v == v / m * m + v % m;
    DivOfMultiple(v / m, 0, m);
  }

  lemma {:induction false} DivOfMultiple(q: nat, r: nat, m: nat)
    requires r < m
    ensures (q * m + r) / m == q
  {
    var x := q * m + r;
    SmallMultiple(x / m - q, r - x % m, m);
  }

  /** A multiple of m strictly between -m and m is zero. */
  lemma SmallMultiple(k: int, e: int, m: nat)
    requires k * m == e && 0 - m < e < m
    ensures k == 0
  {
    if k >= 1 {
      MultipleAtLeast(k, m);
    } else if k <= -1 {
      MultipleAtLeast(-k, m);
    }
  }

  lemma MultipleAtLeast(k: int, m: nat)
    requires k >= 1
    ensures k * m >= m
  {
    assert k * m == m + (k - 1) * m;
  }

  lemma {:induction false} Pow2Add(a: nat, b: nat)
    ensures Pow2(a + b) == Pow2(a) * Pow2(b)
  {
    if a > 0 {
      Pow2Add(a - 1, b);
      assert 2 * (Pow2(a - 1) * Pow2(b)) == (2 * Pow2(a - 1)) * Pow2(b);
    }
  }

  lemma {:induction false} BlockFits(v: nat, b: nat, n: nat)
    requires b > 0 && v < b * n
    ensures v / b * b + b <= b * n
  {
    var q := v / b;
    MulDiv(v, b);
    if q >= n {
      MultipleOrder(n, q, b);
    }
    MultipleOrder(q + 1, n, b);
    assert (q + 1) * b == q * b + b;
  }

  lemma MultipleOrder(a: nat, c: nat, b: nat)
    ensures a <= c ==> a * b <= c * b
  {
    if a <= c {
      assert c * b == a * b + (c - a) * b;
    }
  }

  /** The block after the last network of the family would start beyond the address space. */
  lemma {:induction false} NetworkFits(p: Prefix)
    ensures NetworkOf(p) + BlockSize(p) <= Pow2(Width(p.addr.is6))
  {
    Pow2Add(Width(p.addr.is6) - p.bits, p.bits);
    BlockFits(p.addr.value, BlockSize(p), Pow2(p.bits));
  }

  // ---------------------------------------------------------------- the gateway

  lemma {:induction false} NextInBlock(v: nat, b: nat)
    requires b > 0
    ensures (RoundDown(v, b) + 1) / b == v / b <==> b > 1
  {
    if b > 1 {
      DivOfMultiple(v / b, 1, b);
    }
  }

  lemma SingleAddress(p: Prefix)
    ensures BlockSize(p) == 1 <==> p.bits == Width(p.addr.is6)
  {
    if p.bits < Width(p.addr.is6) {
      assert BlockSize(p) == 2 * Pow2(Width(p.addr.is6) - p.bits - 1);
    }
  }

  /** The gateway lies inside its prefix exactly when the prefix leaves at least one host bit; it is
      then never the network address itself. */
  lemma {:induction false} GatewayInsideIff(p: Prefix)
    ensures (GatewayAddress(p).Some? && Contains(p, GatewayAddress(p).value)) <==> p.bits < Width(p.addr.is6)
    ensures GatewayAddress(p).Some? ==> GatewayAddress(p).value.value != NetworkOf(p)
  {
    NetworkFits(p);
    SingleAddress(p);
    NextInBlock(p.addr.value, BlockSize(p));
    hide Pow2, BlockSize, Width, RoundDown;
  }

  /** No gateway exists for exactly one prefix of each family: the host route to the last address. */
  lemma {:induction false} GatewayMissingIff(p: Prefix)
    ensures Gateway(p).None? <==> p.bits == Width(p.addr.is6) && p.addr.value == Pow2(Width(p.addr.is6)) - 1
  {
    NetworkFits(p);
    SingleAddress(p);
    MulDiv(p.addr.value, BlockSize(p));
    hide Pow2, BlockSize, Width;
  }

  /** Deriving the gateway from a gateway changes nothing. */
  lemma {:induction false} GatewayIdempotent(p: Prefix)
    requires p.bits < Width(p.addr.is6)
    ensures Gateway(p).Some?
    ensures Gateway(Gateway(p).value) == Gateway(p)
  {
    GatewayInsideIff(p);
    GatewayMissingIff(p);
    var g := Gateway(p).value;
    assert BlockSize(g) == BlockSize(p);
    assert g.addr.value / BlockSize(p) == p.addr.value / BlockSize(p);
  }

  /** Two prefixes get the same gateway exactly when they are the same network. */
  lemma GatewaySameIff(p: Prefix, q: Prefix)
    requires p.addr.is6 == q.addr.is6 && p.bits == q.bits
    ensures GatewayAddress(p) == GatewayAddress(q) <==> NetworkOf(p) == NetworkOf(q)
  {
    NetworkFits(p);
    NetworkFits(q);
    SingleAddress(p);
    MulDiv(p.addr.value, BlockSize(p));
    MulDiv(q.addr.value, BlockSize(q));
    assert BlockSize(p) == BlockSize(q);
    hide Pow2, BlockSize, Width;
  }

  // ---------------------------------------------------------------- address classes

  /** fe80::/10, or 169.254.0.0/16. */
  predicate IsLinkLocal(a: Address) {
    if a.is6 then a.value / Pow2(118) == 0x3FA else a.value / Pow2(16) == 0xA9FE
  }

  /** ff00::/8 (IPv6). */
  predicate IsMulticast6(v: nat) {
    v / Pow2(120) == 0xFF
  }

  /** Unique local addresses fc00::/7 (section 3.1 of RFC 4193). */
  predicate IsUniqueLocal6(v: nat) {
    v / Pow2(121) == 0x7E
  }

  /** An address the daemon is willing to use as a source: global unicast IPv6, not unique local. */
  predicate IsPreferredSource(a: Address) {
    && a.is6
    && a.value != 0
    && a.value != 1
    && !IsMulticast6(a.value)
    && !IsLinkLocal(a)
    && !IsUniqueLocal6(a.value)
  }

  // ---------------------------------------------------------------- text fields

  /** A text field holding a prefix, by what the parser makes of it. Padded text parses only after
      trimming. */
  datatype PrefixText =
    | NoPrefix(blank: string)
    | PrefixText(prefix: Prefix)
    | PaddedPrefix(inner: Prefix)
    | BadPrefix(raw: string)
  {
    /** netip.ParsePrefix(text). */
    function Parse(): Option<Prefix> {
      if PrefixText? then Some(prefix) else None
    }

    /** netip.ParsePrefix(strings.TrimSpace(text)). */
    function ParseTrimmed(): Option<Prefix> {
      match this
      case PrefixText(p) => Some(p)
      case PaddedPrefix(p) => Some(p)
      case _ => None
    }

    /** strings.TrimSpace(text) == "". */
    predicate IsBlank() {
      NoPrefix?
    }
  }

  /** A text field holding an address. */
  datatype AddressText =
    | NoAddress(blank: string)
    | AddressText(address: Address)
    | PaddedAddress(inner: Address)
    | BadAddress(raw: string)
  {
    function Parse(): Option<Address> {
      if AddressText? then Some(address) else None
    }

    function ParseTrimmed(): Option<Address> {
      match this
      case AddressText(a) => Some(a)
      case PaddedAddress(a) => Some(a)
      case _ => None
    }

    predicate IsBlank() {
      NoAddress?
    }
  }

  /** gatewayForPrefix: fails on text that does not parse; past the end of the address space it
      yields text that no longer parses. */
  function GatewayForPrefix(text: PrefixText): Option<PrefixText> {
    match text.Parse()
    case None => None
    case Some(p) =>
      match Gateway(p)
      case None => Some(BadPrefix("invalid IP"))
      case Some(g) => Some(PrefixText.PrefixText(g))
  }

  /** The gateway prefix of a text field, when both parsing and the arithmetic succeed. */
  function GatewayOf(text: PrefixText): Option<Prefix> {
    match text.Parse()
    case None => None
    case Some(p) => Gateway(p)
  }
}
