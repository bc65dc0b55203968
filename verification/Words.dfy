/** Fixed-width arithmetic: two's-complement words that wrap, and power-of-two masks. */
module Words {

  function Pow2(n: nat): (r: int)
    ensures r > 0
  {
    if n == 0 then 1 else 2 * Pow2(n - 1)
  }

  /** The value of the low `bits` bits of `x`, read as a signed word. */
  function Wrap(bits: nat, x: int): (w: int)
    requires bits > 0
    ensures -Pow2(bits - 1) <= w < Pow2(bits - 1)
  {
    (x + Pow2(bits - 1)) % Pow2(bits) - Pow2(bits - 1)
  }

  /** The bits of a word as a natural number. */
  function Pattern(bits: nat, w: int): (p: nat)
    ensures p < Pow2(bits)
  {
    w % Pow2(bits)
  }

  /** Bitwise and. */
  function BitAnd(a: nat, b: nat): nat
    decreases a
  {
    if a == 0 then 0
    else (if a % 2 == 1 && b % 2 == 1 then 1 else 0) + 2 * BitAnd(a / 2, b / 2)
  }

  lemma Distribute(a: int, b: int, m: int)
    ensures a * m - b * m == (a - b) * m
  {
  }

  lemma MultipleBounds(d: int, m: int)
    requires m > 0
    ensures d > 0 ==> d * m >= m
    ensures d < 0 ==> d * m <= -m
  {
    if d > 0 {
      assert (d - 1) * m >= 0;
    } else if d < 0 {
      assert (-d - 1) * m >= 0;
    }
  }

  lemma DivMod(x: int, m: int)
    requires m > 0
    ensures x == (x / m) * m + x % m
  {
  }

  lemma ModUnique(x: int, q: int, r: int, m: int)
    requires 0 <= r < m && x == q * m + r
    ensures x % m == r && x / m == q
  {
    DivMod(x, m);
    Distribute(x / m, q, m);
    MultipleBounds(x / m - q, m);
  }

  lemma ModShift(x: int, q: int, m: int)
    requires m > 0
    ensures (x + q * m) % m == x % m
  {
    DivMod(x, m);
    Distribute(x / m + q, q, m);
    ModUnique(x + q * m, x / m + q, x % m, m);
  }

  /** Wrapping changes a number by a multiple of the word size. */
  lemma WrapDiffers(bits: nat, x: int) returns (q: int)
    requires bits > 0
    ensures Wrap(bits, x) == x + q * Pow2(bits)
  {
    hide Pow2;
    var m := Pow2(bits);
    var y := x + Pow2(bits - 1);
    q := -(y / m);
    DivMod(y, m);
    Distribute(0, y / m, m);
  }

  lemma WrapOfShift(bits: nat, x: int, q: int)
    requires bits > 0
    ensures Wrap(bits, x + q * Pow2(bits)) == Wrap(bits, x)
  {
    hide Pow2;
    var y, turns := x + Pow2(bits - 1), q * Pow2(bits);
    ModShift(y, q, Pow2(bits));
    assert x + turns + Pow2(bits - 1) == y + turns;
  }

  lemma WrapOfSmall(bits: nat, x: int)
    requires bits > 0 && -Pow2(bits - 1) <= x < Pow2(bits - 1)
    ensures Wrap(bits, x) == x
  {
    ModUnique(x + Pow2(bits - 1), 0, x + Pow2(bits - 1), Pow2(bits));
  }

  /** A wrapped difference of wrapped counters is the wrapped true difference. */
  lemma WrapSub(bits: nat, a: int, b: int)
    requires bits > 0
    ensures Wrap(bits, Wrap(bits, a) - Wrap(bits, b)) == Wrap(bits, a - b)
  {
    hide Wrap;
    hide Pow2;
    var m := Pow2(bits);
    var p := WrapDiffers(bits, a);
    var q := WrapDiffers(bits, b);
    Distribute(p, q, m);
    WrapOfShift(bits, a - b, p - q);
  }

  lemma WrapAdd(bits: nat, a: int, k: int)
    requires bits > 0
    ensures Wrap(bits, Wrap(bits, a) + k) == Wrap(bits, a + k)
  {
    hide Wrap;
    hide Pow2;
    var p := WrapDiffers(bits, a);
    assert Wrap(bits, a) + k == (a + k) + p * Pow2(bits);
    WrapOfShift(bits, a + k, p);
  }

  /** Two counters less than a whole word apart have equal words only when equal. */
  lemma WrapInjective(bits: nat, a: int, b: int)
    requires bits > 0 && Wrap(bits, a) == Wrap(bits, b) && -Pow2(bits) < a - b < Pow2(bits)
    ensures a == b
  {
    hide Wrap;
    hide Pow2;
    var m := Pow2(bits);
    var p := WrapDiffers(bits, a);
    var q := WrapDiffers(bits, b);
    Distribute(q, p, m);
    MultipleBounds(q - p, m);
  }

  lemma SameWordApart(bits: nat, a: int, b: int)
    requires bits > 0 && Wrap(bits, a) == Wrap(bits, b)
    ensures (a - b) % Pow2(bits) == 0
  {
    hide Pow2;
    hide Wrap;
    var p := WrapDiffers(bits, a);
    var q := WrapDiffers(bits, b);
    Distribute(q, p, Pow2(bits));
    ModUnique(a - b, q - p, 0, Pow2(bits));
  }

  lemma ApartSameWord(bits: nat, a: int, b: int)
    requires bits > 0 && (a - b) % Pow2(bits) == 0
    ensures Wrap(bits, a) == Wrap(bits, b)
  {
    hide Pow2;
    hide Wrap;
    DivMod(a - b, Pow2(bits));
    WrapOfShift(bits, b, (a - b) / Pow2(bits));
  }

  /** Two counters have the same word exactly when they are a whole number of words apart. */
  lemma SameWordIff(bits: nat, a: int, b: int)
    requires bits > 0
    ensures Wrap(bits, a) == Wrap(bits, b) <==> (a - b) % Pow2(bits) == 0
  {
    hide Pow2;
    hide Wrap;
    if Wrap(bits, a) == Wrap(bits, b) {
      SameWordApart(bits, a, b);
    } else if (a - b) % Pow2(bits) == 0 {
      ApartSameWord(bits, a, b);
    }
  }

  // ── Masks ────────────────────────────────────────────────────────────

  lemma Halve(x: nat, m: nat)
    requires m > 0
    ensures x % (2 * m) == x % 2 + 2 * ((x / 2) % m)
  {
    var h := x / 2;
    DivMod(h, m);
    ModUnique(x, h / m, x % 2 + 2 * (h % m), 2 * m);
  }

  /** Masking with a power of two less one takes the residue. */
  lemma {:induction false} MaskIsMod(x: nat, k: nat)
    ensures BitAnd(x, Pow2(k) - 1) == x % Pow2(k)
  {
    if k == 0 {
      AndZero(x);
    } else if x == 0 {
    } else {
      var m := Pow2(k - 1);
      MaskIsMod(x / 2, k - 1);
      assert (2 * m - 1) % 2 == 1 && (2 * m - 1) / 2 == m - 1;
      Halve(x, m);
    }
  }

  lemma {:induction false} AndZero(x: nat)
    ensures BitAnd(x, 0) == 0
  {
    if x > 0 {
      AndZero(x / 2);
    }
  }

  lemma {:induction false} Pow2Splits(k: nat, n: nat)
    requires k <= n
    ensures Pow2(n) == Pow2(n - k) * Pow2(k)
  {
    if k < n {
      Pow2Splits(k, n - 1);
      assert Pow2(n) == 2 * Pow2(n - 1) && Pow2(n - k) == 2 * Pow2(n - 1 - k);
    }
  }

  lemma {:induction false} Pow2Grows(k: nat, n: nat)
    requires k <= n
    ensures Pow2(k) <= Pow2(n)
  {
    if k < n {
      Pow2Grows(k, n - 1);
    }
  }

  lemma Reassociate(a: int, b: int, c: int)
    ensures a * (b * c) == (a * b) * c
  {
  }

  /** The slot the code computes from a wrapped index, `(i & mask) as usize`, is the true
      index modulo the capacity: masking survives the wrap. */
  lemma MaskedWordIsResidue(bits: nat, k: nat, i: int)
    requires 0 < k < bits
    ensures BitAnd(Pattern(bits, Wrap(bits, i)), Pow2(k) - 1) == i % Pow2(k)
  {
    hide Pow2, Wrap, BitAnd;
    var d := PatternDiffers(bits, i);
    MaskIsMod(Pattern(bits, Wrap(bits, i)), k);
    Pow2Splits(k, bits);
    Reassociate(d, Pow2(bits - k), Pow2(k));
    ModShift(i, d * Pow2(bits - k), Pow2(k));
  }

  lemma PatternDiffers(bits: nat, i: int) returns (d: int)
    requires bits > 0
    ensures Pattern(bits, Wrap(bits, i)) == i + d * Pow2(bits)
  {
    hide Pow2, Wrap;
    var m := Pow2(bits);
    var w := Wrap(bits, i);
    var q := WrapDiffers(bits, i);
    DivMod(w, m);
    Distribute(q, w / m, m);
    d := q - w / m;
  }
}
