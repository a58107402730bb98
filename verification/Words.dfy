/** Machine words: 64-bit wrapping counters and power-of-two masks. */
module Words {

  const WORD: nat := 0x1_0000_0000_0000_0000

  function Pow2(k: nat): (r: nat)
    ensures r > 0
  {
    if k == 0 then 1 else 2 * Pow2(k - 1)
  }

  /** Bitwise and of two naturals. */
  function And(x: nat, y: nat): nat {
    if x == 0 || y == 0 then 0
    else 2 * And(x / 2, y / 2) + (if x % 2 == 1 && y % 2 == 1 then 1 else 0)
  }

  function WrappingSub(a: nat, b: nat): nat {
    (a - b) % WORD
  }

  function WrappingInc(a: nat): nat {
    (a + 1) % WORD
  }

  /** The slot a counter maps to in a ring of 2^k slots. */
  function Slot(counter: nat, k: nat): (i: nat)
    ensures i < Pow2(k)
  {
    MaskIsMod(counter, k);
    And(counter, Pow2(k) - 1)
  }

  /** The smallest power of two, as an exponent, that is at least `n`. */
  function NextPowerOfTwo(n: nat, from: nat := 0): (k: nat)
    requires from == 0 || Pow2(from - 1) < n
    ensures Pow2(k) >= n && k >= from
    ensures k == 0 || Pow2(k - 1) < n
    decreases if Pow2(from) < n then n - Pow2(from) else 0
  {
    if Pow2(from) >= n then from else NextPowerOfTwo(n, from + 1)
  }

  // ----- arithmetic -----

  lemma MulGrows(d: int, m: nat)
    requires m > 0
    ensures d >= 1 ==> d * m >= m
    ensures d <= 0 ==> d * m <= 0
    ensures d <= -1 ==> d * m + m <= 0
  {
  }

  lemma DivModUnique(x: int, m: nat, q: int, r: int)
    requires m > 0 && x == q * m + r && 0 <= r < m
    ensures x / m == q && x % m == r
  {
    var q', r' := x / m, x % m;
    assert x == q' * m + r';
    assert (q - q') * m == r' - r;
    MulGrows(q - q', m);
  }

  lemma HalfMod(x: nat, p: nat)
    requires p > 0
    ensures x % (2 * p) == 2 * ((x / 2) % p) + x % 2
  {
    var q, r := (x / 2) / p, (x / 2) % p;
    assert x / 2 == q * p + r;
    assert q * (2 * p) == 2 * (q * p);
    DivModUnique(x, 2 * p, q, 2 * r + x % 2);
  }

  lemma {:induction false} MaskIsMod(x: nat, k: nat)
    ensures And(x, Pow2(k) - 1) == x % Pow2(k)
    decreases k
  {
    if k == 0 {
      assert x % 1 == 0;
    } else if x == 0 {
      DivModUnique(0, Pow2(k), 0, 0);
    } else {
      var p, y := Pow2(k - 1), Pow2(k) - 1;
      assert y / 2 == p - 1 && y % 2 == 1;
      HalfMod(x, p);
      MaskIsMod(x / 2, k - 1);
    }
  }

  lemma {:induction false} Pow2Adds(a: nat, b: nat)
    ensures Pow2(a + b) == Pow2(a) * Pow2(b)
  {
    if a == 0 {
    } else {
      Pow2Adds(a - 1, b);
      assert 2 * (Pow2(a - 1) * Pow2(b)) == Pow2(a) * Pow2(b);
    }
  }

  lemma WordIsPow2()
    ensures WORD == Pow2(64)
  {
    Pow2Is16();
    Pow2Adds(4, 4);
    Pow2Adds(8, 8);
    Pow2Adds(16, 16);
    Pow2Adds(32, 32);
  }

  lemma Pow2Is16()
    ensures Pow2(4) == 16
  {
    assert Pow2(2) == 4;
    Pow2Adds(2, 2);
  }

  lemma Pow2Fits(k: nat)
    requires k <= 63
    ensures 2 * Pow2(k) <= WORD
  {
    WordIsPow2();
    Pow2Adds(64 - k, k);
    MulGrows(Pow2(64 - k) - 1, Pow2(k));
  }

  lemma ModOfMod(x: nat, a: nat, b: nat)
    requires a > 0 && b > 0
    ensures (x % (a * b)) % b == x % b
  {
    var q, r := x / (a * b), x % (a * b);
    assert x == q * (a * b) + r;
    var q', r' := r / b, r % b;
    assert x == (q * a + q') * b + r' by {
      assert q * (a * b) == (q * a) * b;
    }
    DivModUnique(x, b, q * a + q', r');
  }

  /** A wrapped counter, masked, indexes as the unbounded counter does. */
  lemma SlotOfWrapped(x: nat, k: nat)
    requires k <= 64
    ensures Slot(x % WORD, k) == x % Pow2(k) == Slot(x, k)
  {
    MaskIsMod(x % WORD, k);
    MaskIsMod(x, k);
    WordIsPow2();
    Pow2Adds(64 - k, k);
    ModOfMod(x, Pow2(64 - k), Pow2(k));
  }

  /** Subtracting wrapped counters gives the true distance when it fits in a word. */
  lemma SubOfWrapped(a: nat, b: nat)
    requires b <= a < b + WORD
    ensures WrappingSub(a % WORD, b % WORD) == a - b
  {
    var m := WORD;
    assert a % m == a - (a / m) * m;
    assert b % m == b - (b / m) * m;
    DivModUnique(a % m - b % m, m, b / m - a / m, a - b);
  }

  /** The wrapping operations on words, case by case. */
  lemma SubCases(a: nat, b: nat)
    requires a < WORD && b < WORD
    ensures WrappingSub(a, b) == if a >= b then a - b else a - b + WORD
  {
    if a >= b {
      DivModUnique(a - b, WORD, 0, a - b);
    } else {
      DivModUnique(a - b, WORD, -1, a - b + WORD);
    }
  }

  lemma AddCases(a: nat, b: nat)
    requires a < WORD && b < WORD
    ensures (a + b) % WORD == if a + b < WORD then a + b else a + b - WORD
  {
    if a + b < WORD {
      DivModUnique(a + b, WORD, 0, a + b);
    } else {
      DivModUnique(a + b, WORD, 1, a + b - WORD);
    }
  }

  lemma IncOfWrapped(a: nat)
    ensures WrappingInc(a % WORD) == (a + 1) % WORD
  {
  }

  /** Two counters closer than the capacity fall into different slots. */
  lemma SlotsDistinct(i: nat, j: nat, c: nat)
    requires i < j < i + c
    ensures i % c != j % c
  {
    if i % c == j % c {
      assert j - i == (j / c - i / c) * c;
      MulGrows(j / c - i / c, c);
    }
  }
}
