/** `uuidv7()` of the initial schema: a version 4 uuid with the clock laid over its front (sections 5.7 and 6.11 of
    RFC 9562). */
module UuidV7 {
  import opened Texts
  import opened Arithmetic

  type Bytes = seq<Byte>

  // ------------------------------------------------------------- byte strings

  /** The low k bytes of n in two's complement, most significant first. */
  function BigEndian(n: int, k: nat): (b: Bytes)
    ensures |b| == k
    decreases k
  {
    if k == 0 then [] else BigEndian(n / 256, k - 1) + [n % 256]
  }

  function Number(b: Bytes): nat {
    if b == [] then 0 else 256 * Number(b[..|b| - 1]) + b[|b| - 1]
  }

  function Power256(k: nat): (p: nat)
    ensures p > 0
  {
    if k == 0 then 1 else 256 * Power256(k - 1)
  }

  /** bigint to its network form. */
  function Int8Send(n: int): (b: Bytes)
    ensures |b| == 8
  {
    BigEndian(n, 8)
  }

  /** `set_bit`: bits are numbered from the right within each byte, bytes from the left. */
  function SetBit(b: Bytes, n: nat): (r: Bytes)
    requires n / 8 < |b|
    ensures |r| == |b|
  {
    b[n / 8 := Raised(b[n / 8], n % 8)]
  }

  function Raised(x: Byte, bit: nat): Byte
    requires bit < 8
  {
    if x / Power2(bit) % 2 == 1 then x else Added(x, bit)
  }

  function Power2(k: nat): nat
    requires k < 8
  {
    [1, 2, 4, 8, 16, 32, 64, 128][k]
  }

  function Added(x: Byte, bit: nat): (y: Byte)
    requires bit < 8 && x / Power2(bit) % 2 == 0
    ensures y == x + Power2(bit)
  {
    x + Power2(bit)
  }

  /** overlay(b placing front from 1 for 6). */
  function Overlay(b: Bytes, front: Bytes): Bytes
    requires |b| == 16 && |front| == 6
  {
    front + b[6..]
  }

  predicate Version4(b: Bytes) { |b| == 16 && b[6] / 16 == 4 && b[8] / 64 == 2 }

  function Generate(random: Bytes, ms: int): (id: Bytes)
    requires |random| == 16
    ensures |id| == 16
  {
    SetBit(SetBit(Overlay(random, Int8Send(ms)[2..]), 52), 53)
  }

  // ------------------------------------------------------------------ lemmas

  lemma {:induction false} BigEndianTail(n: int, k: nat, j: nat)
    requires j <= k
    ensures BigEndian(n, k)[j..] == BigEndian(n, k - j)
    decreases k
  {
    if j < k {
      BigEndianTail(n / 256, k - 1, j);
      assert BigEndian(n, k)[j..] == BigEndian(n / 256, k - 1)[j..] + [n % 256];
    }
  }

  lemma SplitModulus(n: int, p: nat)
    requires p > 0
    ensures n % (256 * p) == 256 * (n / 256 % p) + n % 256
  {
    var q := n / 256 / p;
    assert n / 256 == p * q + n / 256 % p;
    assert n == 256 * (n / 256) + n % 256;
    assert n == (256 * p) * q + (256 * (n / 256 % p) + n % 256);
    Remainder(n, 256 * p, q, 256 * (n / 256 % p) + n % 256);
  }

  /** The bytes written are the number's residue. */
  lemma {:induction false} NumberOfBigEndian(n: int, k: nat)
    ensures Number(BigEndian(n, k)) == n % Power256(k)
    decreases k
  {
    if k > 0 {
      NumberOfBigEndian(n / 256, k - 1);
      assert BigEndian(n, k)[..k - 1] == BigEndian(n / 256, k - 1);
      SplitModulus(n, Power256(k - 1));
    }
  }

  /** Byte-wise order on strings of one length. */
  predicate Before(a: Bytes, b: Bytes)
    requires |a| == |b|
  {
    a != [] && (a[0] < b[0] || (a[0] == b[0] && Before(a[1..], b[1..])))
  }

  lemma {:induction false} NumberSplit(b: Bytes)
    requires b != []
    ensures Number(b) == b[0] * Power256(|b| - 1) + Number(b[1..])
    ensures Number(b[1..]) < Power256(|b| - 1)
  {
    if |b| > 1 {
      var init := b[..|b| - 1];
      NumberSplit(init);
      assert b[1..][..|b| - 2] == init[1..];
      assert Number(b[1..]) == 256 * Number(init[1..]) + b[|b| - 1];
      assert Number(b) == 256 * Number(init) + b[|b| - 1];
      Regrouped(b[0], Power256(|b| - 2), Number(init[1..]));
    }
  }

  lemma Regrouped(x: int, p: int, r: int)
    ensures 256 * (x * p + r) == x * (256 * p) + 256 * r
  {
  }

  /** Byte order is numeric order. */
  lemma {:induction false} BeforeIsLess(a: Bytes, b: Bytes)
    requires |a| == |b|
    ensures Before(a, b) <==> Number(a) < Number(b)
  {
    if a != [] {
      NumberSplit(a);
      NumberSplit(b);
      BeforeIsLess(a[1..], b[1..]);
      HeadDecides(a[0], b[0], Number(a[1..]), Number(b[1..]), Power256(|a| - 1));
    }
  }

  lemma Gap(x: int, y: int, p: nat)
    ensures x < y ==> x * p + p <= y * p
  {
    Scaled(p, y - x);
    assert (y - x) * p == y * p - x * p;
  }

  lemma HeadDecides(x: int, y: int, r: nat, s: nat, p: nat)
    requires r < p && s < p
    ensures x < y ==> x * p + r < y * p + s
    ensures x == y ==> (x * p + r < y * p + s <==> r < s)
    ensures x > y ==> x * p + r > y * p + s
  {
    Gap(x, y, p);
    Gap(y, x, p);
  }

  lemma {:induction false} BeforePrefix(a: Bytes, b: Bytes, k: nat)
    requires |a| == |b| && k <= |a| && Before(a[..k], b[..k])
    ensures Before(a, b)
  {
    assert a[..k][1..] == a[1..][..k - 1] && b[..k][1..] == b[1..][..k - 1];
    if a[0] == b[0] { BeforePrefix(a[1..], b[1..], k - 1); }
  }

  // -------------------------------------------------------------- main results

  const WRAP: nat := 0x1_0000_0000_0000

  /** Whatever the random bytes and the clock: the top 48 bits are the clock modulo 2^48 and everything after the
      version nibble is the random uuid's. From a version 4 uuid the result is a version 7 uuid of its variant. */
  lemma {:induction false} GeneratedBits(random: Bytes, ms: int)
    requires |random| == 16
    ensures var id := Generate(random, ms);
            && Number(id[..6]) == ms % WRAP
            && id[6] % 16 == random[6] % 16
            && id[7..] == random[7..]
            && (Version4(random) ==> id[6] / 16 == 7 && id[8] / 64 == 2)
  {
    ClockBytes(ms);
    GeneratedBytes(random, ms);
  }

  lemma ClockBytes(ms: int)
    ensures Int8Send(ms)[2..] == BigEndian(ms, 6) && Number(BigEndian(ms, 6)) == ms % WRAP
  {
    BigEndianTail(ms, 8, 2);
    NumberOfBigEndian(ms, 6);
    assert Power256(6) == WRAP by { assert Power256(3) == 0x1_00_0000; }
  }

  /** Laying the clock over the front leaves the last ten bytes; raising two bits of the seventh makes version 4 into 7. */
  lemma GeneratedBytes(random: Bytes, ms: int)
    requires |random| == 16
    ensures var id := Generate(random, ms);
            && id[..6] == Int8Send(ms)[2..] && id[7..] == random[7..]
            && id[6] % 16 == random[6] % 16
            && (Version4(random) ==> id[6] / 16 == 7 && id[8] / 64 == 2)
  {
    var laid := Overlay(random, Int8Send(ms)[2..]);
    assert laid[..6] == Int8Send(ms)[2..] && laid[6..] == random[6..];
    assert laid[6] == random[6] && laid[7..] == random[7..];
    TwoBits(laid[6]);
    assert Generate(random, ms) == laid[6 := Raised(Raised(laid[6], 4), 5)];
  }

  lemma TwoBits(x: Byte)
    ensures Raised(Raised(x, 4), 5) % 16 == x % 16
    ensures x / 16 == 4 ==> Raised(Raised(x, 4), 5) / 16 == 7
  {
  }

  /** Ids sort by the clock, whatever the random parts are; only the clock modulo 2^48 counts. */
  lemma {:induction false} SmallerClockSortsFirst(r1: Bytes, r2: Bytes, m1: int, m2: int)
    requires |r1| == 16 && |r2| == 16
    ensures m1 % WRAP < m2 % WRAP ==> Before(Generate(r1, m1), Generate(r2, m2))
    ensures 0 <= m1 < m2 < WRAP ==> Before(Generate(r1, m1), Generate(r2, m2))
    ensures 0 <= m1 < WRAP <= m2 < WRAP + m1 ==> Before(Generate(r2, m2), Generate(r1, m1))
  {
    Ordered(r1, r2, m1, m2);
    Ordered(r2, r1, m2, m1);
    Wrapped(m1, m2);
  }

  lemma Wrapped(m1: int, m2: int)
    ensures 0 <= m1 < m2 < WRAP ==> m1 % WRAP < m2 % WRAP
    ensures 0 <= m1 < WRAP <= m2 < WRAP + m1 ==> m2 % WRAP < m1 % WRAP
  {
    if 0 <= m1 < WRAP <= m2 < WRAP + m1 { Remainder(m2, WRAP, 1, m2 - WRAP); }
  }

  lemma Ordered(r1: Bytes, r2: Bytes, m1: int, m2: int)
    requires |r1| == 16 && |r2| == 16
    ensures m1 % WRAP < m2 % WRAP ==> Before(Generate(r1, m1), Generate(r2, m2))
  {
    GeneratedBits(r1, m1);
    GeneratedBits(r2, m2);
    var a, b := Generate(r1, m1), Generate(r2, m2);
    BeforeIsLess(a[..6], b[..6]);
    if m1 % WRAP < m2 % WRAP { BeforePrefix(a, b, 6); }
  }
}
