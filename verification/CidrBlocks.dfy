/** IPv4 address blocks in the notation of section 3.1 of RFC 4632. */
module CidrBlocks {
  import opened Decimals
  import opened Prelude
  import opened Text

  const WIDTH := 32

  type Address = a: int | 0 <= a < 0x1_0000_0000
  type PrefixLength = n: int | 0 <= n <= WIDTH

  datatype Block = Block(address: Address, length: PrefixLength)

  /** The number of addresses that share the block's prefix. */
  function Size(b: Block): (n: nat)
    ensures n > 0
  {
    Pow2(WIDTH - b.length)
  }

  /** The leading `length` bits of both addresses are the same. */
  predicate Covers(b: Block, a: Address) {
    a / Size(b) == b.address / Size(b)
  }

  /** A block of full length is one address, and each bit less of the prefix doubles it. */
  lemma SizeDoubles(b: Block)
    ensures b.length == 32 ==> Size(b) == 1
    ensures b.length < 32 ==> Size(b) == 2 * Size(b.(length := b.length + 1))
  {
  }

  /** A block is the run of Size addresses that starts at the multiple of Size at or below its own address. */
  lemma BlockIsARange(b: Block, a: Address)
    ensures var first := b.address - b.address % Size(b);
            Covers(b, a) <==> first <= a < first + Size(b)
  {
    SameQuotient(a, b.address, Size(b));
  }

  lemma SameQuotient(a: nat, b: nat, n: nat)
    requires n > 0
    ensures a / n == b / n <==> b - b % n <= a < b - b % n + n
  {
    var q, p := a / n, b / n;
    assert a == q * n + a % n;
    assert b == p * n + b % n;
    if q < p {
      NextMultiple(q, p, n);
    } else if p < q {
      NextMultiple(p, q, n);
    }
  }

  lemma NextMultiple(p: nat, q: nat, n: nat)
    requires p < q
    ensures p * n + n <= q * n
  {
    var d := q - p - 1;
    assert q * n == (p + 1 + d) * n == p * n + n + d * n;
  }

  /** The block of all addresses. */
  lemma ZeroLengthCoversAll(b: Block, a: Address)
    requires b.length == 0
    ensures Covers(b, a)
  {
    assert Size(b) == 0x1_0000_0000 by {
      assert Pow2(8) == 0x100;
      assert Pow2(16) == 0x1_0000;
      assert Pow2(24) == 0x100_0000;
    }
  }

  function Octet(s: string): Option<nat> {
    match ParseDecimal(s)
    case Some(n) => if n < 256 then Some(n) else None
    case None => None
  }

  function ParseAddress(s: string): Option<Address> {
    var parts := Split(s, '.');
    if |parts| != 4 then None
    else match (Octet(parts[0]), Octet(parts[1]), Octet(parts[2]), Octet(parts[3]))
         case (Some(a), Some(b), Some(c), Some(d)) => Some(a * 0x100_0000 + b * 0x1_0000 + c * 0x100 + d)
         case _ => None
  }

  function ParseBlock(s: string): Option<Block> {
    var parts := Split(s, '/');
    if |parts| != 2 then None
    else match (ParseAddress(parts[0]), ParseDecimal(parts[1]))
         case (Some(a), Some(n)) => if n <= WIDTH then Some(Block(a, n)) else None
         case _ => None
  }

  /** Four parts, a separator between neighbours. */
  function Quad(p: string, q: string, r: string, s: string, sep: char): string {
    p + [sep] + (q + [sep] + (r + [sep] + s))
  }

  lemma SplitQuad(p: string, q: string, r: string, s: string, sep: char)
    requires sep !in p && sep !in q && sep !in r && sep !in s
    ensures Split(Quad(p, q, r, s, sep), sep) == [p, q, r, s]
  {
    SplitAtSeparator(p, q + [sep] + (r + [sep] + s), sep);
    SplitAtSeparator(q, r + [sep] + s, sep);
    SplitAtSeparator(r, s, sep);
    SplitWithoutSeparator(s, sep);
  }

  function PrintOctets(p: nat, q: nat, r: nat, s: nat): string {
    Quad(Decimal(p), Decimal(q), Decimal(r), Decimal(s), '.')
  }

  function PrintAddress(a: Address): string {
    PrintOctets(a / 0x100_0000, a / 0x1_0000 % 256, a / 0x100 % 256, a % 256)
  }

  function PrintBlock(b: Block): string {
    PrintAddress(b.address) + ['/'] + Decimal(b.length)
  }

  lemma OctetOfPrinted(n: nat)
    requires n < 256
    ensures Octet(Decimal(n)) == Some(n)
    ensures '.' !in Decimal(n) && '/' !in Decimal(n)
  {
    ParsePrinted(n);
  }

  lemma ParseQuad(p: string, q: string, r: string, s: string)
    requires '.' !in p && '.' !in q && '.' !in r && '.' !in s
    requires Octet(p).Some? && Octet(q).Some? && Octet(r).Some? && Octet(s).Some?
    ensures ParseAddress(Quad(p, q, r, s, '.'))
         == Some(Octet(p).value * 0x100_0000 + Octet(q).value * 0x1_0000 + Octet(r).value * 0x100 + Octet(s).value)
  {
    SplitQuad(p, q, r, s, '.');
  }

  lemma ParsePrintedOctets(p: nat, q: nat, r: nat, s: nat)
    requires p < 256 && q < 256 && r < 256 && s < 256
    ensures ParseAddress(PrintOctets(p, q, r, s)) == Some(p * 0x100_0000 + q * 0x1_0000 + r * 0x100 + s)
    ensures '/' !in PrintOctets(p, q, r, s)
  {
    var dp, dq, dr, ds := Decimal(p), Decimal(q), Decimal(r), Decimal(s);
    OctetOfPrinted(p);
    OctetOfPrinted(q);
    OctetOfPrinted(r);
    OctetOfPrinted(s);
    ParseQuad(dp, dq, dr, ds);
    assert PrintOctets(p, q, r, s) == Quad(dp, dq, dr, ds, '.');
  }

  lemma ParsePrintedAddress(a: Address)
    ensures ParseAddress(PrintAddress(a)) == Some(a)
    ensures '/' !in PrintAddress(a)
  {
    OctetsOfAddress(a);
    ParsePrintedOctets(a / 0x100_0000, a / 0x1_0000 % 256, a / 0x100 % 256, a % 256);
  }

  lemma ParseParts(address: string, length: string)
    requires '/' !in address && '/' !in length
    requires ParseAddress(address).Some? && ParseDecimal(length).Some? && ParseDecimal(length).value <= WIDTH
    ensures ParseBlock(address + ['/'] + length)
         == Some(Block(ParseAddress(address).value, ParseDecimal(length).value))
  {
    SplitAtSeparator(address, length, '/');
    SplitWithoutSeparator(length, '/');
  }

  lemma OctetsOfAddress(a: Address)
    ensures a / 0x100_0000 < 256
    ensures a / 0x100_0000 * 0x100_0000 + a / 0x1_0000 % 256 * 0x1_0000 + a / 0x100 % 256 * 0x100 + a % 256 == a
  {
    assert a / 0x1_0000 / 256 == a / 0x100_0000;
    assert a / 0x100 / 256 == a / 0x1_0000;
  }

  lemma ParsePrintedParts(p: nat, q: nat, r: nat, s: nat, n: nat)
    requires p < 256 && q < 256 && r < 256 && s < 256 && n <= WIDTH
    ensures ParseBlock(PrintOctets(p, q, r, s) + ['/'] + Decimal(n))
         == Some(Block(p * 0x100_0000 + q * 0x1_0000 + r * 0x100 + s, n))
  {
    ParsePrintedOctets(p, q, r, s);
    ParsePrinted(n);
    ParseParts(PrintOctets(p, q, r, s), Decimal(n));
  }

  /** Every block has a text, and its text means that block. */
  lemma ParsePrintedBlock(b: Block)
    ensures ParseBlock(PrintBlock(b)) == Some(b)
  {
    ParsePrintedAddress(b.address);
    ParsePrinted(b.length);
    ParseParts(PrintAddress(b.address), Decimal(b.length));
  }

  /** The blocks written out in the rule templates. */
  lemma DefaultBlock(text: string)
    requires text == "0.0.0.0/0"
    ensures ParseBlock(text) == Some(Block(0, 0))
  {
    ParsePrintedParts(0, 0, 0, 0, 0);
    assert Decimal(0) == "0";
    assert text == PrintOctets(0, 0, 0, 0) + ['/'] + Decimal(0);
  }

  lemma ClusterBlock(text: string)
    requires text == "100.64.0.0/16"
    ensures ParseBlock(text) == Some(Block(0x6440_0000, 16))
  {
    var p, q, z, n := 100, 64, 0, 16;
    ParsePrintedParts(p, q, z, z, n);
    ClusterNumerals(text, p, q, z, n);
  }

  lemma ClusterNumerals(text: string, p: nat, q: nat, z: nat, n: nat)
    requires p == 100 && q == 64 && z == 0 && n == 16
    requires text == "100.64.0.0/16"
    ensures text == PrintOctets(p, q, z, z) + ['/'] + Decimal(n)
  {
    assert Decimal(1) == "1" && Decimal(6) == "6";
    assert Decimal(10) == "10";
    assert Decimal(z) == "0" && Decimal(n) == "16" && Decimal(q) == "64" && Decimal(p) == "100";
    assert Quad("100", "64", "0", "0", '.') == "100.64.0.0";
  }
}
