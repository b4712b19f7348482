/** IPv4 networks as blocks of addresses (section 3.1 of RFC 4632); addresses are integers below 2^32. */
module Cidr {

  const SPACE: nat := 0x1_0000_0000

  function Pow2(k: nat): (r: nat)
    ensures r > 0
  {
    if k == 0 then 1 else 2 * Pow2(k - 1)
  }

  datatype Net = Net(base: nat, prefix: nat) {

    function Size(): nat
      requires prefix <= 32
    {
      Pow2(32 - prefix)
    }

    /** What strict parsing accepts: no host bit is set. */
    predicate Valid() {
      prefix <= 32 && base % Size() == 0 && base < SPACE
    }

    /** `network_address` and `broadcast_address`. */
    function Last(): nat
      requires prefix <= 32
    {
      base + Size() - 1
    }

    /** `address in network`: the address under the netmask is the network address. */
    predicate Contains(a: nat)
      requires prefix <= 32
    {
      a / Size() * Size() == base
    }

    /** `overlaps`: an end of one lies in the other. */
    predicate Overlaps(n: Net)
      requires prefix <= 32 && n.prefix <= 32
    {
      n.Contains(base) || n.Contains(Last()) || Contains(n.base) || Contains(n.Last())
    }
  }

  /** A network that parsed. */
  type Block = n: Net | n.Valid() witness Net(0, 0)

  lemma ContainsRange(n: Net, a: nat)
    requires n.Valid()
    ensures n.Contains(a) <==> n.base <= a <= n.Last()
  {
    var size := n.Size();
    var q := n.base / size;
    assert n.base == q * size;
    if n.Contains(a) {
      assert a % size < size;
    }
    if n.base <= a <= n.Last() {
      QuotientUnique(a, size, q);
    }
  }

  /** A block of length 32 is one address, one bit less doubles it, and length 0 is the whole space. */
  lemma Sizes(n: Net)
    requires n.prefix <= 32
    ensures n.prefix == 32 ==> n.Size() == 1
    ensures n.prefix < 32 ==> n.Size() == 2 * Net(n.base, n.prefix + 1).Size()
    ensures n.prefix == 0 ==> n.Size() == 0x1_0000_0000
  {
    assert Pow2(8) == 256;
    PowSum(8, 8);
    PowSum(16, 16);
  }

  lemma {:induction false} PowSum(j: nat, k: nat)
    ensures Pow2(j + k) == Pow2(j) * Pow2(k)
  {
    if j > 0 { PowSum(j - 1, k); }
  }

  /** Contained means that no address bit within the length of the prefix differs. */
  lemma ContainsPrefix(n: Net, a: nat)
    requires n.Valid()
    ensures n.Contains(a) <==> a / n.Size() == n.base / n.Size()
  {
    var size := n.Size();
    assert n.base == n.base / size * size;
    if a / size * size == n.base { QuotientUnique(n.base, size, a / size); }
  }

  lemma MulMono(p: nat, q: nat, s: nat)
    requires p <= q
    ensures p * s <= q * s
  {
  }

  lemma QuotientUnique(a: nat, size: nat, q: nat)
    requires size > 0 && q * size <= a < q * size + size
    ensures a / size == q
  {
    var d := a / size;
    assert d * size <= a < d * size + size;
    if d < q { MulMono(d + 1, q, size); }
    if q < d { MulMono(q + 1, d, size); }
  }

  /** Two networks overlap, by the test on their ends, exactly when some address lies in both. */
  lemma OverlapsIff(n: Net, m: Net)
    requires n.Valid() && m.Valid()
    ensures n.Overlaps(m) <==> exists a: nat :: n.Contains(a) && m.Contains(a)
  {
    ContainsRange(m, n.base);
    ContainsRange(m, n.Last());
    ContainsRange(n, m.base);
    ContainsRange(n, m.Last());
    ContainsRange(n, n.base);
    ContainsRange(n, n.Last());
    ContainsRange(m, m.base);
    ContainsRange(m, m.Last());
    if a: nat :| n.Contains(a) && m.Contains(a) {
      ContainsRange(n, a);
      ContainsRange(m, a);
    }
  }
}
