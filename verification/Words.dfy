/** 32-bit words as the device reads them: wrap-around and byte order. */
module Words {
  const LIMIT: int := 0x1_0000_0000

  type Word = w: int | 0 <= w < 0x1_0000_0000

  /** Conversion of an integer to uint32_t. */
  function Wrap(x: int): (w: Word) {
    x % LIMIT
  }

  /** `n` increments of a uint32_t. */
  function Plus(w: Word, n: nat): Word {
    if n == 0 then w
    else
      var v := Plus(w, n - 1);
      if v == 0xFFFF_FFFF then 0 else v + 1
  }

  lemma {:induction false} PlusTwo(w: Word)
    ensures Plus(w, 0) == w && Plus(w, 1 + 1) == Plus(Plus(w, 1), 1)
  {
    assert Plus(w, 2) == if Plus(w, 1) == 0xFFFF_FFFF then 0 else Plus(w, 1) + 1;
  }

  lemma {:induction false} PlusWraps(x: int, n: nat)
    ensures Plus(Wrap(x), n) == Wrap(x + n)
  {
    if n > 0 {
      PlusWraps(x, n - 1);
      WrapNext(x + n - 1);
    }
  }

  lemma {:induction false} WrapNext(x: int)
    ensures Wrap(x + 1) == if Wrap(x) == 0xFFFF_FFFF then 0 else Wrap(x) + 1
  {
  }

  /** htonl / htobe32 (and their inverses) on a little-endian host. */
  function Be(w: Word): (r: Word) {
    w % 0x100 * 0x100_0000
    + w / 0x100 % 0x100 * 0x1_0000
    + w / 0x1_0000 % 0x100 * 0x100
    + w / 0x100_0000
  }

  /** Byte `i` of a word as it lies in memory, at the `i`-th address: the host is little-endian. */
  function ByteOf(w: Word, i: nat): (b: nat)
    requires i < 4
    ensures b < 0x100
  {
    match i
    case 0 => w % 0x100
    case 1 => w / 0x100 % 0x100
    case 2 => w / 0x1_0000 % 0x100
    case _ => w / 0x100_0000
  }

  /** The number a device reads from the four bytes of a word: the byte at the lowest address is the highest. */
  function Read(w: Word): (n: Word) {
    ((ByteOf(w, 0) * 0x100 + ByteOf(w, 1)) * 0x100 + ByteOf(w, 2)) * 0x100 + ByteOf(w, 3)
  }

  /** The bytes of a word, put together again. */
  lemma {:induction false} FromBytes(w: Word)
    ensures w == ByteOf(w, 0) + 0x100 * ByteOf(w, 1) + 0x1_0000 * ByteOf(w, 2) + 0x100_0000 * ByteOf(w, 3)
  {
    assert w / 0x1_0000 == w / 0x1_0000 % 0x100 + 0x100 * (w / 0x100_0000);
    assert w / 0x100 == w / 0x100 % 0x100 + 0x100 * (w / 0x1_0000);
  }

  /** Which byte goes where: byte `i` in memory is byte `3 - i` of the number stored. */
  lemma {:induction false} BeBytes(w: Word)
    ensures ByteOf(Be(w), 0) == w / 0x100_0000
    ensures ByteOf(Be(w), 1) == w / 0x1_0000 % 0x100
    ensures ByteOf(Be(w), 2) == w / 0x100 % 0x100
    ensures ByteOf(Be(w), 3) == w % 0x100
  {
    Bytes(w / 0x100_0000, w / 0x1_0000 % 0x100, w / 0x100 % 0x100, w % 0x100);
  }

  /** The device reads the number that was stored; and what the host reads back is what the device would read. */
  lemma {:induction false} ReadBe(w: Word)
    ensures Read(Be(w)) == w && Be(w) == Read(w)
  {
    FromBytes(w);
    BeBytes(w);
  }

  lemma {:induction false} BeBe(w: Word)
    ensures Be(Be(w)) == w
  {
    ReadBe(w);
    ReadBe(Be(w));
  }

  lemma {:induction false} Bytes(a: int, b: int, c: int, d: int)
    requires 0 <= a < 0x100 && 0 <= b < 0x100 && 0 <= c < 0x100 && 0 <= d < 0x100
    ensures var w := a + 0x100 * b + 0x1_0000 * c + 0x100_0000 * d;
      w % 0x100 == a && w / 0x100 % 0x100 == b && w / 0x1_0000 % 0x100 == c && w / 0x100_0000 == d
  {
    var w := a + 0x100 * b + 0x1_0000 * c + 0x100_0000 * d;
    assert w / 0x100 == b + 0x100 * c + 0x1_0000 * d;
    assert w / 0x1_0000 == c + 0x100 * d;
  }

  /** The update applied to one index field when a copy is rearmed. */
  function Bump(w: Word, increment: int): Word {
    Be(Wrap(Be(w) + increment))
  }

  lemma {:induction false} WrapAdd(a: int, b: int)
    ensures Wrap(Wrap(a) + b) == Wrap(a + b)
  {
    var q := a / LIMIT;
    assert a == q * LIMIT + Wrap(a);
    ModShift(Wrap(a) + b, q, LIMIT);
  }

  /** Adding a multiple of the modulus changes nothing. */
  lemma {:induction false} ModShift(x: int, k: int, m: int)
    requires m > 0
    ensures (x + k * m) % m == x % m
  {
    var q, r := x / m, x % m;
    assert x + k * m == (q + k) * m + r by {
      assert x == q * m + r;
    }
    ModUnique(x + k * m, m, q + k, r);
  }

  lemma {:induction false} ModUnique(x: int, m: int, q: int, r: int)
    requires m > 0 && x == q * m + r && 0 <= r < m
    ensures x / m == q && x % m == r
  {
    var q' := x / m;
    assert (q - q') * m == x % m - r by {
      assert (q - q') * m == q * m - q' * m;
    }
    if q > q' {
      MulGrows(q - q', m);
    } else if q < q' {
      assert (q' - q) * m == -((q - q') * m);
      MulGrows(q' - q, m);
    }
  }

  lemma {:induction false} MulGrows(k: int, m: int)
    requires k >= 1 && m >= 0
    ensures k * m >= m
  {
    assert k * m == (k - 1) * m + m;
  }

  /** Bumping a field, whatever is in it, advances the index that the device reads there, modulo 2^32. */
  lemma {:induction false} BumpDecodes(w: Word, increment: int)
    ensures Read(Bump(w, increment)) == Wrap(Read(w) + increment)
  {
    hide Be, Read;
    ReadBe(w);
    ReadBe(Wrap(Be(w) + increment));
  }

  lemma {:induction false} BumpStored(index: Word, increment: int)
    ensures Bump(Be(index), increment) == Be(Wrap(index + increment))
  {
    BeBe(index);
  }

  /** Bitwise AND of two non-negative integers. */
  function And(x: nat, y: nat): nat {
    if x == 0 || y == 0 then 0 else x % 2 * (y % 2) + 2 * And(x / 2, y / 2)
  }

  ghost predicate IsPow2(n: nat) {
    n == 1 || (n > 1 && n % 2 == 0 && IsPow2(n / 2))
  }

  lemma {:induction false} Pow2Product(n: nat, k: nat)
    requires IsPow2(n) && IsPow2(k)
    ensures IsPow2(k * n)
    decreases k
  {
    if k > 1 {
      var h := k / 2;
      Pow2Product(n, h);
      assert k * n == 2 * (h * n) by {
        MulAssoc(2, h, n);
      }
      assert h * n > 0;
    }
  }

  lemma {:induction false} BigPowers()
    ensures IsPow2(0x100_0000) && IsPow2(LIMIT) && LIMIT % 0x100_0000 == 0
  {
    assert IsPow2(0x100);
    hide IsPow2;
    Pow2Product(0x100, 0x100);
    Pow2Product(0x100, 0x1_0000);
    Pow2Product(0x100, 0x100_0000);
  }

  /** `x & (c - 1)` is the remainder and `x & c` tests the parity of the quotient, for a power of two `c`. */
  lemma {:induction false} MaskIsRemainder(x: nat, c: nat)
    requires IsPow2(c)
    ensures And(x, c - 1) == x % c
    ensures And(x, c) != 0 <==> x / c % 2 == 1
  {
    if c > 1 && x > 0 {
      var h := c / 2;
      MaskIsRemainder(x / 2, h);
      HalfSplit(x, h);
      assert (c - 1) / 2 == h - 1 && (c - 1) % 2 == 1;
      assert And(x, c - 1) == x % 2 + 2 * And(x / 2, h - 1);
      assert And(x, c) == 2 * And(x / 2, h);
    } else if x > 0 {
      assert And(x, 1) == x % 2 + 2 * And(x / 2, 0);
    }
  }

  lemma {:induction false} HalfSplit(x: nat, h: nat)
    requires h > 0
    ensures x / (2 * h) == x / 2 / h
    ensures x % (2 * h) == 2 * (x / 2 % h) + x % 2
  {
    var q, r := x / 2 / h, x / 2 % h;
    assert x == q * (2 * h) + (2 * r + x % 2) by {
      assert x / 2 == q * h + r;
      assert q * (2 * h) == 2 * (q * h);
    }
    ModUnique(x, 2 * h, q, 2 * r + x % 2);
  }

  lemma {:induction false} Pow2Divides(a: nat, b: nat)
    requires IsPow2(a) && IsPow2(b) && a <= b
    ensures b % a == 0
  {
    if a > 1 {
      Pow2Divides(a / 2, b / 2);
      var q := b / 2 / (a / 2);
      assert b / 2 == q * (a / 2);
      assert b == q * a by {
        assert b == 2 * (q * (a / 2));
        assert a == 2 * (a / 2);
      }
      ModUnique(b, a, q, 0);
    }
  }

  /** Every divisor of a power of two is a power of two. */
  lemma {:induction false} FactorOfPow2(a: nat, b: nat, n: nat)
    requires IsPow2(n) && a * b == n
    ensures IsPow2(a)
    decreases n
  {
    var h, g := a / 2, b / 2;
    if a % 2 == 0 {
      HalveProduct(a, b);
      if n > 1 {
        FactorOfPow2(h, b, n / 2);
      }
      assert a > 1;
    } else if b % 2 == 0 {
      HalveProduct(b, a);
      assert b * a == n;
      FactorOfPow2(a, g, n / 2);
    } else {
      OddProduct(a, b);
    }
  }

  lemma {:induction false} OddProduct(a: nat, b: nat)
    requires a % 2 == 1 && b % 2 == 1
    ensures a * b % 2 == 1 && a * b >= a
  {
    var h, g := a / 2, b / 2;
    MulGrows(b, a);
    assert a * b == 2 * (2 * (h * g) + h + g) + 1 by {
      assert (2 * h + 1) * (2 * g + 1) == 4 * (h * g) + 2 * h + 2 * g + 1;
    }
  }

  lemma {:induction false} HalveProduct(a: nat, b: nat)
    requires a % 2 == 0
    ensures a * b % 2 == 0 && a * b / 2 == a / 2 * b && b * a == a * b && b * (a / 2) == a / 2 * b
  {
    assert a * b == 2 * (a / 2 * b) by {
      assert a == 2 * (a / 2);
      MulAssoc(2, a / 2, b);
    }
  }

  lemma {:induction false} MulAssoc(x: int, y: int, z: int)
    ensures x * y * z == x * (y * z)
  {
  }

  lemma {:induction false} Succ(k: int, x: int)
    ensures (k - 1) * x + x == k * x
  {
  }

  lemma {:induction false} Distribute(k: int, x: int, y: int)
    ensures k * (x + y) == k * x + k * y
  {
  }

  /** Equal blocks laid end to end do not overlap. */
  lemma {:induction false} BlocksOrdered(k: nat, l: nat, b: nat)
    ensures k < l ==> k * b + b <= l * b
    ensures 0 <= k * b
  {
    if k < l {
      MulGrows(l - k, b);
      Distribute(b, l - k, k);
    }
    if k > 0 {
      MulGrows(k, b);
    }
  }

  /** Two numbers less than `d` apart differ modulo `d`. */
  lemma {:induction false} SameCopy(k: nat, r: nat, d: nat)
    requires d > 0 && k < r < k + d
    ensures r % d != k % d
  {
    if r % d == k % d {
      var p, q := r / d, k / d;
      assert r - k == (p - q) * d by {
        assert r == p * d + r % d && k == q * d + k % d;
        Distribute(d, p - q, q);
      }
      if p - q >= 1 {
        MulGrows(p - q, d);
      } else if p - q < 0 {
        MulGrows(q - p, d);
      }
    }
  }

  /** Reducing modulo a multiple of `n` first changes nothing modulo `n`. */
  lemma {:induction false} ModOfMod(x: int, m: int, n: int)
    requires n > 0 && m > 0 && m % n == 0
    ensures x % m % n == x % n
  {
    var q, k := x / m, m / n;
    assert x == x % m + q * k * n by {
      assert m == k * n;
      MulAssoc(q, k, n);
    }
    ModShift(x % m, q * k, n);
  }

  /** A power of two up to 2^32 divides 2^32. */
  lemma {:induction false} DividesLimit(n: nat)
    requires IsPow2(n) && n <= 0x8000_0000
    ensures n > 0 && LIMIT % n == 0
  {
    assert n > 0;
    hide IsPow2;
    BigPowers();
    Pow2Divides(n, LIMIT);
  }

  lemma {:induction false} WrapMod(x: int, n: nat)
    requires n > 0 && LIMIT % n == 0
    ensures Wrap(x) % n == x % n
  {
    ModOfMod(x, LIMIT, n);
  }

  /** `n` blocks of size `b`: the product, without multiplication. */
  function Span(n: nat, b: nat): nat {
    if n == 0 then 0 else Span(n - 1, b) + b
  }

  lemma {:induction false} SpanIs(n: nat, b: nat)
    ensures Span(n, b) == n * b
  {
    if n > 0 {
      SpanIs(n - 1, b);
      Succ(n, b);
    }
  }

  /** Blocks below the `n`-th end before it. */
  lemma {:induction false} SpanGrows(c: nat, n: nat, b: nat)
    requires c <= n
    ensures Span(c, b) <= Span(n, b)
    ensures c < n ==> Span(c, b) + b <= Span(n, b)
    decreases n
  {
    if c < n {
      SpanGrows(c, n - 1, b);
    }
  }

  lemma {:induction false} SmallMod(x: nat, m: nat)
    requires x < m
    ensures x % m == x
  {
  }
}
