/**
 * Python's integer bit operators on non-negative integers, and the facts the
 * codec needs about them.
 *
 * The controller code manipulates report bytes with `&`, `|`, `<<` and `>>`
 * on unbounded Python ints. The model writes those operators out as
 * functions on `nat` (`And`, `Or`, `Shl`, `Shr`) so that each line of the
 * codec keeps its source shape, and proves here, once, what they mean in
 * arithmetic terms: masking is a remainder, shifting is a multiplication or
 * a division by a power of two, and `|` of disjoint bit ranges is addition.
 */
module Bits {

  /** One element of a Python `bytearray`. */
  type byte = x: int | 0 <= x < 256

  /** An unsigned 32-bit value, the range of the Bluetooth checksum. */
  type u32 = x: int | 0 <= x < 0x1_0000_0000

  function Pow2(k: nat): (r: nat)
    ensures r >= 1
  {
    if k == 0 then 1 else 2 * Pow2(k - 1)
  }

  /** `x << k`: shifting back by `k` recovers `x`. */
  function Shl(x: nat, k: nat): (r: nat)
    ensures Shr(r, k) == x
  {
    DivModUnique(x * Pow2(k), Pow2(k), x, 0);
    x * Pow2(k)
  }

  /** `x >> k`: the quotient of `x` by `2^k`, rounded down. */
  function Shr(x: nat, k: nat): (r: nat)
    ensures r * Pow2(k) <= x < r * Pow2(k) + Pow2(k)
  {
    DivNonNegative(x, Pow2(k));
    x / Pow2(k)
  }

  /** `x & y`, bit by bit from the least significant end: never above either operand. */
  function And(x: nat, y: nat): (r: nat)
    ensures r <= x && r <= y
    decreases x
  {
    if x == 0 || y == 0 then 0
    else 2 * And(x / 2, y / 2) + (if x % 2 == 1 && y % 2 == 1 then 1 else 0)
  }

  /** `x | y`, bit by bit from the least significant end: at least either operand, at most their sum. */
  function Or(x: nat, y: nat): (r: nat)
    ensures x <= r && y <= r && r <= x + y
    decreases x
  {
    if x == 0 then y
    else if y == 0 then x
    else 2 * Or(x / 2, y / 2) + (if x % 2 == 1 || y % 2 == 1 then 1 else 0)
  }

  /** Bit `k` of `w` is set. */
  predicate BitSet(w: nat, k: nat)
  {
    (w / Pow2(k)) % 2 == 1
  }

  /** The `n` little-endian bytes of `w`, least significant first. */
  function LeBytes(w: nat, n: nat): (bs: seq<int>)
    ensures |bs| == n
    ensures forall j :: 0 <= j < n ==> 0 <= bs[j] < 256
  {
    if n == 0 then [] else [w % 256] + LeBytes(w / 256, n - 1)
  }

  /** The number whose little-endian bytes are `bs`. */
  function LeValue(bs: seq<int>): int
  {
    if |bs| == 0 then 0 else bs[0] + 256 * LeValue(bs[1..])
  }

  // ----- arithmetic helpers -----

  lemma DivNonNegative(x: nat, d: int)
    requires d > 0
    ensures x / d >= 0
  {
    var q, r := x / d, x % d;
    assert x == d * q + r && r < d;
    if q < 0 {
      MulAtLeast(d, -q);
    }
  }

  lemma MulAtLeast(d: int, k: int)
    requires d > 0 && k >= 1
    ensures d * k >= d
  {
  }

  /** Quotient and remainder are determined by the division equation. */
  lemma DivModUnique(x: int, d: int, q: int, r: int)
    requires d > 0 && x == q * d + r && 0 <= r < d
    ensures x / d == q && x % d == r
  {
    var q', r' := x / d, x % d;
    assert x == q' * d + r';
    assert (q - q') * d == r' - r;
    if q - q' >= 1 {
      MulAtLeast(d, q - q');
    } else if q' - q >= 1 {
      MulAtLeast(d, q' - q);
    }
  }

  lemma {:induction false} Pow2Add(a: nat, b: nat)
    ensures Pow2(a + b) == Pow2(a) * Pow2(b)
    decreases a
  {
    if a > 0 {
      Pow2Add(a - 1, b);
      assert Pow2(a + b) == 2 * Pow2(a - 1 + b);
    }
  }

  lemma {:induction false} Pow2Monotone(a: nat, b: nat)
    requires a < b
    ensures 2 * Pow2(a) <= Pow2(b)
    decreases b
  {
    if a + 1 < b {
      Pow2Monotone(a, b - 1);
    }
  }

  /** The powers of two that select single bits of a byte. */
  lemma Pow2Small()
    ensures Pow2(0) == 1 && Pow2(1) == 2 && Pow2(2) == 4 && Pow2(3) == 8
    ensures Pow2(4) == 16 && Pow2(5) == 32 && Pow2(6) == 64 && Pow2(7) == 128
  {
  }

  /** The powers of two that the report layouts use. */
  lemma Pow2Values()
    ensures Pow2(4) == 16 && Pow2(8) == 256 && Pow2(16) == 0x1_0000
    ensures Pow2(24) == 0x100_0000 && Pow2(30) == 0x4000_0000
    ensures Pow2(32) == 0x1_0000_0000 && Pow2(40) == 0x100_0000_0000
    ensures Pow2(10) == 0x400
  {
    Pow2Add(8, 2);
    Pow2Add(8, 8);
    Pow2Add(16, 8);
    Pow2Add(24, 6);
    Pow2Add(24, 8);
    Pow2Add(32, 8);
  }

  lemma DivDiv(x: nat, p: nat, q: nat)
    requires p > 0 && q > 0
    ensures (x / p) / q == x / (p * q)
  {
    var a, b := (x / p) / q, (x / p) % q;
    var c := x % p;
    assert x / p == a * q + b;
    assert x == (a * q + b) * p + c;
    assert x == a * (p * q) + (b * p + c);
    assert b * p <= (q - 1) * p;
    DivModUnique(x, p * q, a, b * p + c);
  }

  lemma ModHalf(x: nat, n: nat)
    requires n > 0
    ensures x % Pow2(n) == 2 * ((x / 2) % Pow2(n - 1)) + x % 2
  {
    var p := Pow2(n - 1);
    var q, r := x / 2, x % 2;
    var a, b := q / p, q % p;
    assert q == a * p + b;
    assert x == a * (2 * p) + (2 * b + r);
    DivModUnique(x, 2 * p, a, 2 * b + r);
  }

  lemma ScaledDiv(v: nat, p: nat)
    requires p > 0
    ensures (v * p) / p == v && (v * p) % p == 0
  {
    DivModUnique(v * p, p, v, 0);
  }

  // ----- the bit operators in arithmetic terms -----

  /** One step of `&` against an odd mask. */
  lemma AndOdd(x: nat, m: nat)
    requires m % 2 == 1
    ensures And(x, m) == 2 * And(x / 2, m / 2) + x % 2
  {
    if x == 0 {
      assert And(x / 2, m / 2) == 0;
    }
  }

  /** `2^n - 1` is odd and halves to `2^(n-1) - 1`. */
  lemma OnesHalf(n: nat)
    requires n > 0
    ensures (Pow2(n) - 1) % 2 == 1 && (Pow2(n) - 1) / 2 == Pow2(n - 1) - 1
  {
    var p := Pow2(n - 1);
    DivModUnique(Pow2(n) - 1, 2, p - 1, 1);
  }

  /** The inductive step of `AndLow`, from the low `n - 1` bits of `x / 2`. */
  lemma AndLowStep(x: nat, n: nat, low: nat)
    requires n > 0
    requires low == (x / 2) % Pow2(n - 1) && And(x / 2, Pow2(n - 1) - 1) == low
    ensures And(x, Pow2(n) - 1) == x % Pow2(n)
  {
    OnesHalf(n);
    AndOdd(x, Pow2(n) - 1);
    ModHalf(x, n);
  }

  /** Masking with `2^n - 1` keeps the low `n` bits. */
  lemma {:induction false} AndLow(x: nat, n: nat)
    ensures And(x, Pow2(n) - 1) == x % Pow2(n)
    decreases n
  {
    if n > 0 {
      AndLow(x / 2, n - 1);
      AndLowStep(x, n, (x / 2) % Pow2(n - 1));
    }
  }

  /** An even mask ignores bit 0 of `x`. */
  lemma {:induction false} AndEven(x: nat, z: nat)
    ensures And(x, 2 * z) == 2 * And(x / 2, z)
  {
    var y := 2 * z;
    assert y / 2 == z && y % 2 == 0;
    if x > 0 && z > 0 {
      assert And(x, y) == 2 * And(x / 2, y / 2);
    }
  }

  lemma MulTwice(a: int, p: int)
    ensures 2 * (a * p) == a * (2 * p)
  {
  }

  /** A mask shifted left by `k` selects from `x >> k`, shifted back. */
  lemma {:induction false} AndShifted(x: nat, m: nat, k: nat)
    ensures And(x, m * Pow2(k)) == And(Shr(x, k), m) * Pow2(k)
    decreases k
  {
    if k > 0 {
      var p := Pow2(k - 1);
      var mp := m * p;
      MulTwice(m, p);
      AndEven(x, mp);
      AndShifted(x / 2, m, k - 1);
      DivDiv(x, 2, p);
      MulTwice(And(Shr(x, k), m), p);
    }
  }

  /**
   * A contiguous mask of `n` ones starting at bit `k` extracts that field;
   * `pk` and `pn` stand for `2^k` and `2^n`.
   */
  lemma AndField(x: nat, k: nat, n: nat, pk: nat, pn: nat)
    requires pk == Pow2(k) && pn == Pow2(n)
    ensures And(x, (pn - 1) * pk) == ((x / pk) % pn) * pk
  {
    AndShifted(x, pn - 1, k);
    AndLow(Shr(x, k), n);
  }

  /** `x & (1 << k) != 0` tests bit `k`. */
  lemma TestBit(x: nat, k: nat)
    ensures (And(x, Shl(1, k)) != 0) == BitSet(x, k)
  {
    AndField(x, k, 1, Pow2(k), 2);
  }

  lemma {:induction false} OrCommutes(x: nat, y: nat)
    ensures Or(x, y) == Or(y, x)
    decreases x
  {
    if x > 0 && y > 0 {
      OrCommutes(x / 2, y / 2);
    }
  }

  /** `|` of a value below `2^k` and a multiple of `2^k` is their sum. */
  lemma {:induction false} OrDisjoint(x: nat, y: nat, k: nat)
    requires x < Pow2(k)
    ensures Or(x, y * Pow2(k)) == x + y * Pow2(k)
    decreases k
  {
    if k > 0 && x > 0 && y > 0 {
      var z := y * Pow2(k);
      assert z == 2 * (y * Pow2(k - 1));
      assert z / 2 == y * Pow2(k - 1) && z % 2 == 0;
      OrDisjoint(x / 2, y, k - 1);
    }
  }

  /** `(x >> 8j) & 0xFF` is byte `j` of `x`. */
  lemma ByteAt(x: nat, j: nat)
    ensures And(Shr(x, 8 * j), 0xFF) == (x / Pow2(8 * j)) % 256
  {
    Pow2Values();
    AndLow(Shr(x, 8 * j), 8);
  }

  /** `(x & (0xFF << 8j)) >> 8j` is byte `j` of `x` as well. */
  lemma MaskedByteAt(x: nat, j: nat)
    ensures Shr(And(x, 0xFF * Pow2(8 * j)), 8 * j) == (x / Pow2(8 * j)) % 256
  {
    Pow2Values();
    AndField(x, 8 * j, 8, Pow2(8 * j), 256);
    ScaledDiv((x / Pow2(8 * j)) % 256, Pow2(8 * j));
  }

  // ----- little-endian byte strings -----

  /** Element `j` of `LeBytes(w, n)` is `(w >> 8j) & 0xFF`. */
  lemma {:induction false} LeBytesAt(w: nat, n: nat, j: nat)
    requires j < n
    ensures LeBytes(w, n)[j] == (w / Pow2(8 * j)) % 256
    decreases n
  {
    if j > 0 {
      var k := 8 * (j - 1);
      var p := Pow2(k);
      assert LeBytes(w, n)[j] == LeBytes(w / 256, n - 1)[j - 1];
      LeBytesAt(w / 256, n - 1, j - 1);
      DivDiv(w, 256, p);
      Pow2Values();
      Pow2Add(8, k);
      assert 8 + k == 8 * j;
      assert Pow2(8 * j) == 256 * p;
    }
  }

  /** `(w >> 8j) & 0xFF` is element `j` of the little-endian bytes of `w`. */
  lemma PackedByte(w: nat, n: nat, j: nat)
    requires j < n
    ensures And(Shr(w, 8 * j), 0xFF) == LeBytes(w, n)[j]
  {
    ByteAt(w, j);
    LeBytesAt(w, n, j);
  }

  /** The bytes `(w >> 0) & 0xFF`, `(w >> 8) & 0xFF` are the little-endian bytes of `w`. */
  lemma BytesOf2(w: nat)
    ensures [And(Shr(w, 0), 0xFF), And(Shr(w, 8), 0xFF)] == LeBytes(w, 2)
  {
    PackedByte(w, 2, 0);
    PackedByte(w, 2, 1);
  }

  lemma BytesOf4(w: nat)
    ensures [And(Shr(w, 0), 0xFF), And(Shr(w, 8), 0xFF),
             And(Shr(w, 16), 0xFF), And(Shr(w, 24), 0xFF)] == LeBytes(w, 4)
  {
    PackedByte(w, 4, 0);
    PackedByte(w, 4, 1);
    PackedByte(w, 4, 2);
    PackedByte(w, 4, 3);
  }

  lemma BytesOf6(w: nat)
    ensures [And(Shr(w, 0), 0xFF), And(Shr(w, 8), 0xFF), And(Shr(w, 16), 0xFF),
             And(Shr(w, 24), 0xFF), And(Shr(w, 32), 0xFF), And(Shr(w, 40), 0xFF)]
         == LeBytes(w, 6)
  {
    PackedByte(w, 6, 0);
    PackedByte(w, 6, 1);
    PackedByte(w, 6, 2);
    PackedByte(w, 6, 3);
    PackedByte(w, 6, 4);
    PackedByte(w, 6, 5);
  }

  /** `(w & (0xFF << 8j)) >> 8j` is element `j` of the little-endian bytes of `w`. */
  lemma MaskedLeByte(w: nat, n: nat, j: nat)
    requires j < n
    ensures Shr(And(w, 0xFF * Pow2(8 * j)), 8 * j) == LeBytes(w, n)[j]
  {
    MaskedByteAt(w, j);
    LeBytesAt(w, n, j);
  }

  /** Little-endian encoding round-trips for every value that fits. */
  lemma {:induction false} LeValueOfLeBytes(w: nat, n: nat)
    requires w < Pow2(8 * n)
    ensures LeValue(LeBytes(w, n)) == w
    decreases n
  {
    Pow2Values();
    if n > 0 {
      Pow2Add(8, 8 * (n - 1));
      assert 8 + 8 * (n - 1) == 8 * n;
      LeValueOfLeBytes(w / 256, n - 1);
      assert LeBytes(w, n)[1..] == LeBytes(w / 256, n - 1);
    } else {
      assert w == 0;
    }
  }
}
