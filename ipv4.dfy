/** IPv4 addresses as Python's `ipaddress` module treats them: four octets, the dotted
    decimal text `str(ip)`, strict parsing `IPv4Address(text)`, CIDR networks with prefix
    semantics (section 3.1 of RFC 4632) and the IN-ADDR.ARPA reverse name
    `ip.reverse_pointer` (section 3.5 of RFC 1035). */
module IPv4 {
  import opened Base
  import opened Strings

  type Octet = n: nat | n < 256

  datatype Address = Address(a: Octet, b: Octet, c: Octet, d: Octet)

  function Pow2(k: nat): (r: nat)
    ensures r >= 1
  {
    if k == 0 then 1 else 2 * Pow2(k - 1)
  }

  /** The address as a 32-bit number, most significant octet first. */
  function ToNat(x: Address): (n: nat)
    ensures n < Pow2(32)
  {
    assert Pow2(8) == 256 && Pow2(16) == 65536 && Pow2(24) == 16777216;
    assert Pow2(32) == 4294967296 by {
      assert Pow2(32) == 65536 * Pow2(16) by { Pow2Add(16, 16); }
    }
    x.a * 16777216 + x.b * 65536 + x.c * 256 + x.d
  }

  lemma {:induction false} Pow2Add(m: nat, n: nat)
    ensures Pow2(m + n) == Pow2(m) * Pow2(n)
    decreases m
  {
    if m > 0 { Pow2Add(m - 1, n); }
  }

  // ---------------------------------------------------------------- networks

  /** An `IPv4Network`: a base address and a prefix length (`10.0.0.0/8`). */
  datatype Network = Network(base: nat, prefixLen: nat)

  /** The size of the network's address block. */
  function BlockSize(n: Network): nat
    requires n.prefixLen <= 32
  {
    Pow2(32 - n.prefixLen)
  }

  /** What `ip_network` accepts in strict mode: a prefix of at most 32 bits and no host
      bits set in the base. */
  predicate ValidNetwork(n: Network) {
    n.prefixLen <= 32 && n.base < Pow2(32) && n.base % BlockSize(n) == 0
  }

  /** `ip in network`: the address lies in the block starting at the base. */
  predicate InNetwork(ip: Address, n: Network)
    requires ValidNetwork(n)
  {
    n.base <= ToNat(ip) < n.base + BlockSize(n)
  }

  lemma MulMono(a: nat, b: nat, m: nat)
    ensures a <= b ==> a * m <= b * m
  {
    if a <= b {
      var k := b - a;
      assert b * m == a * m + k * m;
    }
  }

  lemma DivRange(x: nat, q: nat, m: nat)
    requires m > 0
    ensures x / m == q <==> q * m <= x < q * m + m
  {
    var d, r := x / m, x % m;
    assert x == d * m + r && 0 <= r < m;
    MulMono(d + 1, q, m);
    MulMono(q + 1, d, m);
  }

  /** Membership is prefix equality: the address and the base agree on their leading
      `prefixLen` bits (section 3.1 of RFC 4632). */
  lemma InNetworkIffPrefix(ip: Address, n: Network)
    requires ValidNetwork(n)
    ensures InNetwork(ip, n) <==> ToNat(ip) / BlockSize(n) == n.base / BlockSize(n)
  {
    BlockPrefix(ToNat(ip), n.base, BlockSize(n));
  }

  /** A number lies in the aligned block of size `m` at `base` exactly when it has the
      same quotient by `m`. */
  lemma BlockPrefix(x: nat, base: nat, m: nat)
    requires m > 0 && base % m == 0
    ensures base <= x < base + m <==> x / m == base / m
  {
    var q := base / m;
    assert base == q * m + base % m;
    DivRange(x, q, m);
  }

  // ---------------------------------------------------------------- text

  function Octets(x: Address): seq<nat> { [x.a, x.b, x.c, x.d] }

  function OctetTexts(x: Address): seq<string> {
    [Decimal(x.a), Decimal(x.b), Decimal(x.c), Decimal(x.d)]
  }

  /** `str(ip)`: the dotted decimal text. */
  function ToText(x: Address): string {
    Join(OctetTexts(x), '.')
  }

  /** One dotted part as `IPv4Address` reads it: one to three digits, no leading zero,
      at most 255. */
  function ParseOctet(t: string): (r: Option<Octet>)
    ensures r.Some? ==> Decimal(r.value) == t
  {
    if Canonical(t) && |t| <= 3 && DigitsValue(t) < 256 then
      CanonicalIsDecimal(t);
      Some(DigitsValue(t))
    else None
  }

  /** `IPv4Address(text)`: `None` stands for the `ValueError` it raises. */
  function ParseAddress(s: string): Option<Address> {
    var parts := Split(s, '.');
    if |parts| != 4 then None
    else
      match (ParseOctet(parts[0]), ParseOctet(parts[1]), ParseOctet(parts[2]), ParseOctet(parts[3]))
      case (Some(a), Some(b), Some(c), Some(d)) => Some(Address(a, b, c, d))
      case _ => None
  }

  lemma ParseOctetDecimal(n: Octet)
    ensures ParseOctet(Decimal(n)) == Some(n)
    ensures '.' !in Decimal(n)
  {
    DecimalValue(n);
    assert !IsDigit('.');
  }

  /** Parsing the text of an address gives the address back. */
  lemma ParseToText(x: Address)
    ensures ParseAddress(ToText(x)) == Some(x)
  {
    ParseOctetDecimal(x.a);
    ParseOctetDecimal(x.b);
    ParseOctetDecimal(x.c);
    ParseOctetDecimal(x.d);
    SplitJoin(OctetTexts(x), '.');
  }

  /** Only canonical text parses: what parses is exactly the text of its address. */
  lemma ToTextParse(s: string, x: Address)
    requires ParseAddress(s) == Some(x)
    ensures ToText(x) == s
  {
    var parts := Split(s, '.');
    assert OctetTexts(x) == parts;
    JoinSplit(s, '.');
  }

  /** `str` is injective on addresses. */
  lemma ToTextInjective(x: Address, y: Address)
    requires ToText(x) == ToText(y)
    ensures x == y
  {
    ParseToText(x);
    ParseToText(y);
  }

  // ---------------------------------------------------------------- reverse name

  const ArpaSuffix: string := ".in-addr.arpa"

  function Reversed(x: Address): Address { Address(x.d, x.c, x.b, x.a) }

  /** `ip.reverse_pointer`: the octets in reverse order under IN-ADDR.ARPA. */
  function ReversePointer(x: Address): (r: string)
    ensures r == ToText(Reversed(x)) + ArpaSuffix
  {
    Join([Decimal(x.d), Decimal(x.c), Decimal(x.b), Decimal(x.a)], '.') + ArpaSuffix
  }

  /** Different addresses have different reverse names, so a PTR record names one
      address. */
  lemma ReversePointerInjective(x: Address, y: Address)
    requires ReversePointer(x) == ReversePointer(y)
    ensures x == y
  {
    var tx, ty := ToText(Reversed(x)), ToText(Reversed(y));
    assert |tx| == |ty|;
    assert tx == ReversePointer(x)[..|tx|];
    assert ty == ReversePointer(y)[..|ty|];
    ToTextInjective(Reversed(x), Reversed(y));
  }
}
