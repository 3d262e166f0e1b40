/** Unsigned machine words: wrap-around, bitwise masks and powers of two. */
module MachineWord {

  function Pow2(k: nat): (p: nat)
    ensures p >= 1
  {
    if k == 0 then 1 else 2 * Pow2(k - 1)
  }

  /** The number of values of the 64-bit `size_t`. */
  const WORD: nat := 0x1_0000_0000_0000_0000

  lemma WordIsPow2()
    ensures WORD == Pow2(64)
  {
    Pow2Square(1, 2);
    Pow2Square(2, 4);
    Pow2Square(4, 16);
    Pow2Square(8, 256);
    Pow2Square(16, 0x1_0000);
    Pow2Square(32, 0x1_0000_0000);
  }

  lemma Pow2Square(k: nat, p: nat)
    requires Pow2(k) == p
    ensures Pow2(2 * k) == p * p
  {
    Pow2Split(k, k);
  }

  /** Unsigned subtraction of two 64-bit words. */
  function WrapSub(a: nat, b: nat): (r: nat)
    requires a < WORD && b < WORD
    ensures r < WORD
  {
    (a + WORD - b) % WORD
  }

  /** Unsigned increment of a 64-bit word. */
  function WrapInc(a: nat): (r: nat)
    ensures r < WORD
  {
    (a + 1) % WORD
  }

  /** Bitwise conjunction, least significant bit first. */
  function BitAnd(a: nat, b: nat): nat
    decreases a
  {
    if a == 0 then 0
    else (if a % 2 == 1 && b % 2 == 1 then 1 else 0) + 2 * BitAnd(a / 2, b / 2)
  }

  /** Quotient and remainder are unique. */
  lemma DivModUnique(x: int, s: int, q: int, r: int)
    requires x == s * q + r && 0 <= r < s
    ensures x / s == q && x % s == r
  {
    var q', r' := x / s, x % s;
    assert x == s * q' + r' && 0 <= r' < s;
    assert s * (q - q') == r' - r;
    if q > q' {
      MulAtLeast(s, q - q');
    } else if q < q' {
      MulAtLeast(s, q' - q);
    }
  }

  lemma MulAtLeast(s: int, a: int)
    requires s > 0 && a >= 1
    ensures s * a >= s
  {
  }

  /** Adding a multiple of the modulus changes nothing. */
  lemma ModShift(x: int, s: int, j: int)
    requires s > 0
    ensures (x + s * j) % s == x % s
  {
    var q, r := x / s, x % s;
    assert s * (q + j) == s * q + s * j;
    DivModUnique(x + s * j, s, q + j, r);
  }

  /** Reducing modulo a multiple of `s` first does not matter modulo `s`. */
  lemma ModOfMod(x: nat, s: nat, q: nat)
    requires s > 0 && q > 0
    ensures s * q > 0 && (x % (s * q)) % s == x % s
  {
    var w := s * q;
    var r := x % w;
    var d := x / w;
    assert x == w * d + r;
    assert w * d == s * (q * d) by { MulAssoc(s, q, d); }
    ModShift(r, s, q * d);
  }

  lemma MulAssoc(a: int, b: int, c: int)
    ensures (a * b) * c == a * (b * c)
  {
  }

  lemma {:induction false} Pow2Split(j: nat, k: nat)
    ensures Pow2(j + k) == Pow2(j) * Pow2(k)
  {
    if j > 0 {
      Pow2Split(j - 1, k);
      MulAssoc(2, Pow2(j - 1), Pow2(k));
    }
  }

  /** Masking with a power of two less one is reduction modulo that power. */
  lemma {:induction false} MaskIsMod(x: nat, k: nat)
    ensures BitAnd(x, Pow2(k) - 1) == x % Pow2(k)
    decreases k, x
  {
    if x == 0 {
    } else if k == 0 {
      AndZero(x);
    } else {
      MaskIsMod(x / 2, k - 1);
      MaskStep(x, Pow2(k - 1));
    }
  }

  lemma MaskStep(x: nat, p: nat)
    requires x > 0 && p > 0 && BitAnd(x / 2, p - 1) == (x / 2) % p
    ensures BitAnd(x, 2 * p - 1) == x % (2 * p)
  {
    HalveMod(x, p);
    assert (2 * p - 1) / 2 == p - 1 && (2 * p - 1) % 2 == 1;
  }

  lemma {:induction false} AndZero(x: nat)
    ensures BitAnd(x, 0) == 0
  {
    if x > 0 {
      AndZero(x / 2);
    }
  }

  lemma HalveMod(x: nat, p: nat)
    requires p > 0
    ensures x % (2 * p) == 2 * ((x / 2) % p) + x % 2
  {
    var h := x / 2;
    var d, m := h / p, h % p;
    assert h == p * d + m;
    MulAssoc(2, p, d);
    DivModUnique(x, 2 * p, d, 2 * m + x % 2);
  }

  /** A number and its complement share no bit. */
  lemma {:induction false} AndComplement(x: nat, w: nat)
    requires x < Pow2(w)
    ensures BitAnd(x, Pow2(w) - 1 - x) == 0
    decreases w
  {
    if x > 0 {
      var p := Pow2(w - 1);
      assert (2 * p - 1 - x) / 2 == p - 1 - x / 2;
      AndComplement(x / 2, w - 1);
    }
  }

  ghost predicate IsPowerOfTwo(n: nat) {
    exists k: nat :: n == Pow2(k)
  }

  lemma HalfPowerOfTwo(n: nat)
    requires n > 0 && n % 2 == 0
    ensures IsPowerOfTwo(n) <==> IsPowerOfTwo(n / 2)
  {
    if IsPowerOfTwo(n) {
      var k: nat :| n == Pow2(k);
      assert n / 2 == Pow2(k - 1);
    }
    if IsPowerOfTwo(n / 2) {
      var k: nat :| n / 2 == Pow2(k);
      assert n == Pow2(k + 1);
    }
  }

  /** What the queue's constructor asserts: in `w`-bit arithmetic a non-zero
      number equals its conjunction with its own negation exactly when it is a
      power of two. */
  lemma {:induction false} LowestBitTest(n: nat, w: nat)
    requires 0 < n < Pow2(w)
    ensures BitAnd(n, Pow2(w) - n) == n <==> IsPowerOfTwo(n)
    decreases w
  {
    var p := Pow2(w - 1);
    if n % 2 == 1 {
      assert (2 * p - n) / 2 == p - 1 - n / 2;
      AndComplement(n / 2, w - 1);
      assert BitAnd(n, Pow2(w) - n) == 1;
      if n == 1 {
        assert n == Pow2(0);
      } else {
        forall k: nat ensures n != Pow2(k) {
          assert k > 0 ==> Pow2(k) == 2 * Pow2(k - 1);
        }
      }
    } else {
      assert (2 * p - n) / 2 == p - n / 2;
      LowestBitTest(n / 2, w - 1);
      HalfPowerOfTwo(n);
      assert BitAnd(n, Pow2(w) - n) == 2 * BitAnd(n / 2, p - n / 2);
    }
  }
}
