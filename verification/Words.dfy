/** Unsigned 64-bit arithmetic, written out on natural numbers. */
module Words {

  const TWO64 := 0x1_0000_0000_0000_0000

  type U64 = x: nat | x < TWO64

  function WrappingAdd(a: U64, b: U64): U64 {
    (a + b) % TWO64
  }

  function WrappingMul(a: U64, b: U64): U64 {
    (a * b) % TWO64
  }

  function Pow2(n: nat): (p: nat)
    ensures p > 0
  {
    if n == 0 then 1 else 2 * Pow2(n - 1)
  }

  /** Moves the top bit to the bottom. */
  function RotateOnce(x: U64): U64 {
    2 * x % TWO64 + x / 0x8000_0000_0000_0000
  }

  function RotateLeft(x: U64, n: nat): U64
    decreases n
  {
    if n == 0 then x else RotateLeft(RotateOnce(x), n - 1)
  }

  lemma WrapsExactly(sum: U64, a: U64, b: U64, bound: nat)
    requires a * b <= bound
    requires sum + bound < TWO64
    ensures WrappingAdd(sum, WrappingMul(a, b)) == sum + a * b
  {
    var product := a * b;
    assert product % TWO64 == product;
  }

  lemma MulMonotone(a: int, b: int, c: nat)
    requires a <= b
    ensures a * c <= b * c
  {
    assert (b - a) * c >= 0;
  }

  /** Quotient and remainder are the only numbers that fit. */
  lemma DivisionIs(n: nat, d: nat, q: nat, r: nat)
    requires n == q * d + r && r < d
    ensures n / d == q && n % d == r
  {
    SameQuotient(n / d, n % d, q, r, d);
  }

  lemma SameQuotient(p: nat, s: nat, q: nat, r: nat, d: nat)
    requires p * d + s == q * d + r && s < d && r < d
    ensures p == q && s == r
  {
    if p < q {
      NextMultiple(p, q, d);
    } else if q < p {
      NextMultiple(q, p, d);
    }
  }

  lemma NextMultiple(p: nat, q: nat, d: nat)
    requires p < q
    ensures p * d + d <= q * d
  {
    MulMonotone(p + 1, q, d);
  }

  /** Wrapping a term before the sum makes no difference. */
  lemma WrapsOnce(a: nat, b: nat)
    ensures (a + b % TWO64) % TWO64 == (a + b) % TWO64
  {
  }

  lemma Pow2Of64()
    ensures Pow2(64) == TWO64
  {
    assert Pow2(8) == 0x100;
    assert Pow2(16) == 0x1_0000;
    assert Pow2(24) == 0x100_0000;
    assert Pow2(32) == 0x1_0000_0000;
    assert Pow2(40) == 0x100_0000_0000;
    assert Pow2(48) == 0x1_0000_0000_0000;
    assert Pow2(56) == 0x100_0000_0000_0000;
  }

  lemma {:induction false} Pow2Adds(m: nat, n: nat)
    ensures Pow2(m) * Pow2(n) == Pow2(m + n)
    decreases m
  {
    if m > 0 {
      Pow2Adds(m - 1, n);
      assert Pow2(m) * Pow2(n) == 2 * (Pow2(m - 1) * Pow2(n));
    }
  }

  // ---------- Turning a word ----------

  lemma {:induction false} RotateLast(x: U64, n: nat)
    requires n > 0
    ensures RotateLeft(x, n) == RotateOnce(RotateLeft(x, n - 1))
    decreases n
  {
    if n > 1 {
      RotateLast(RotateOnce(x), n - 1);
    }
  }

  /** A word of `n` upper bits `h` and `64 - n` lower bits `l` fits, and so does one with the two parts exchanged. */
  lemma PartsFit(h: nat, l: nat, a: nat, b: nat)
    requires h < a && l < b
    ensures 0 <= h * b + l < a * b && 0 <= l * a + h < a * b
  {
    MulMonotone(h + 1, a, b);
    MulMonotone(l + 1, b, a);
    assert (h + 1) * b == h * b + b && (l + 1) * a == l * a + a;
  }

  lemma RotateOnceMoves(bit: nat, rest: nat)
    requires bit <= 1 && rest < 0x8000_0000_0000_0000
    ensures RotateOnce(bit * 0x8000_0000_0000_0000 + rest) == 2 * rest + bit
  {
  }

  lemma Distributes(x: int, y: int, z: int)
    ensures (x + y) * z == x * z + y * z
  {
  }

  lemma Doubles(x: int, y: int)
    ensures (2 * x) * y == 2 * (x * y) && x * (2 * y) == 2 * (x * y)
  {
  }

  lemma OneBit(h: nat, l: nat, bit: nat, a: nat, b: nat)
    requires bit <= 1 && h < a && l < b && a * b == 0x8000_0000_0000_0000
    ensures (2 * h + bit) * b + l == h * (2 * b) + (bit * b + l)
    ensures 0 <= (bit * b + l) * a + h < TWO64
    ensures RotateOnce((bit * b + l) * a + h) == l * (2 * a) + (2 * h + bit)
  {
    hide RotateOnce;
    PartsFit(h, l, a, b);
    Distributes(2 * h, bit, b);
    Doubles(h, b);
    Doubles(l, a);
    var rest := l * a + h;
    assert (bit * b + l) * a + h == bit * 0x8000_0000_0000_0000 + rest by {
      Distributes(bit * b, l, a);
      BitTimes(bit, a, b);
    }
    RotateOnceMoves(bit, rest);
  }

  lemma BitTimes(bit: nat, a: nat, b: nat)
    requires bit <= 1
    ensures bit * b * a == bit * (a * b)
  {
    if bit == 0 {
    } else {
      assert bit * b == b;
    }
  }

  /** The number with these upper bits and these `n` lower ones. */
  function Join(upper: nat, lower: nat, n: nat): nat {
    upper * Pow2(n) + lower
  }

  /** One bit more goes round: what the induction below needs about the parts. */
  lemma MoveOneBit(h: nat, l: nat, n: nat) returns (before: nat, rest: nat)
    requires 0 < n <= 64 && h < Pow2(n) && l < Pow2(64 - n)
    ensures before < Pow2(n - 1) && rest < Pow2(64 - (n - 1))
    ensures Join(h, l, 64 - n) == Join(before, rest, 64 - (n - 1))
    ensures Join(rest, before, n - 1) < TWO64 && RotateOnce(Join(rest, before, n - 1)) == Join(l, h, n)
  {
    hide RotateOnce, Pow2;
    var a, b, bit := Pow2(n - 1), Pow2(64 - n), h % 2;
    before := h / 2;
    rest := bit * b + l;
    HalfOf64(n);
    PowSteps(n);
    UpperHalf(bit, l, b);
    OneBit(before, l, bit, a, b);
  }

  /** Turning by `n` exchanges the `n` upper bits and the others. */
  lemma {:induction false} RotateExchanges(h: nat, l: nat, n: nat)
    requires n <= 64 && h < Pow2(n) && l < Pow2(64 - n)
    ensures Join(h, l, 64 - n) < TWO64 && Join(l, h, n) < TWO64
    ensures RotateLeft(Join(h, l, 64 - n), n) == Join(l, h, n)
    decreases n
  {
    hide Pow2, Join, RotateLeft, RotateOnce;
    Exchanged(h, l, n);
    if n == 0 {
      NoTurn(h, l);
    } else {
      var before, rest := MoveOneBit(h, l, n);
      RotateExchanges(before, rest, n - 1);
      RotateLast(Join(h, l, 64 - n), n);
    }
  }

  lemma Exchanged(h: nat, l: nat, n: nat)
    requires n <= 64 && h < Pow2(n) && l < Pow2(64 - n)
    ensures Join(h, l, 64 - n) < TWO64 && Join(l, h, n) < TWO64
  {
    hide Pow2;
    Pow2Of64();
    Pow2Adds(n, 64 - n);
    PartsFit(h, l, Pow2(n), Pow2(64 - n));
  }

  lemma NoTurn(h: nat, l: nat)
    requires h < Pow2(0) && l < Pow2(64)
    ensures Join(h, l, 64) < TWO64 && RotateLeft(Join(h, l, 64), 0) == Join(l, h, 0)
  {
    Pow2Of64();
  }

  lemma UpperHalf(bit: nat, l: nat, b: nat)
    requires bit <= 1 && l < b
    ensures bit * b + l < 2 * b
  {
  }

  lemma PowSteps(n: nat)
    requires 0 < n <= 64
    ensures Pow2(n) == 2 * Pow2(n - 1) && Pow2(64 - (n - 1)) == 2 * Pow2(64 - n)
  {
  }

  lemma HalfOf64(n: nat)
    requires 0 < n <= 64
    ensures Pow2(n - 1) * Pow2(64 - n) == 0x8000_0000_0000_0000
  {
    Pow2Adds(n - 1, 64 - n);
    Pow2Of64();
  }

  lemma UpperAndLower(x: U64, n: nat)
    requires n <= 64
    ensures var h, l := x / Pow2(64 - n), x % Pow2(64 - n);
      && h < Pow2(n) && l < Pow2(64 - n) && x == h * Pow2(64 - n) + l
      && x * Pow2(n) % TWO64 == l * Pow2(n)
  {
    hide Pow2;
    Pow2Of64();
    Pow2Adds(n, 64 - n);
    Divided(x, Pow2(64 - n));
    PartsOf(x, x / Pow2(64 - n), x % Pow2(64 - n), Pow2(n), Pow2(64 - n));
  }

  lemma Divided(x: nat, b: nat)
    requires b > 0
    ensures x == x / b * b + x % b && 0 <= x / b && x % b < b
  {
  }

  lemma PartsOf(x: U64, h: nat, l: nat, a: nat, b: nat)
    requires x == h * b + l && l < b && a * b == TWO64
    ensures h < a && x * a % TWO64 == l * a
  {
    if h >= a {
      MulMonotone(a, h, b);
    }
    PartsFit(h, l, a, b);
    WholeTurns(h, l, a, b);
  }

  lemma WholeTurns(h: nat, l: nat, a: nat, b: nat)
    requires a * b == TWO64 && l * a < TWO64
    ensures (h * b + l) * a % TWO64 == l * a
  {
    assert (h * b + l) * a == h * (a * b) + l * a;
    assert (h * TWO64 + l * a) % TWO64 == l * a;
  }

  /** `rotate_left` loses nothing: what leaves the word at the top comes back at the bottom. */
  lemma RotateLeftIs(x: U64, n: nat)
    requires n <= 64
    ensures RotateLeft(x, n) == x * Pow2(n) % TWO64 + x / Pow2(64 - n)
  {
    hide Pow2, RotateLeft;
    UpperAndLower(x, n);
    RotateExchanges(x / Pow2(64 - n), x % Pow2(64 - n), n);
  }

  /** Turning on by the rest of the 64 bits gives the word back. */
  lemma RotateBack(x: U64, n: nat)
    requires n <= 64
    ensures RotateLeft(RotateLeft(x, n), 64 - n) == x
  {
    hide Pow2, RotateLeft;
    UpperAndLower(x, n);
    var h, l := x / Pow2(64 - n), x % Pow2(64 - n);
    assert 64 - (64 - n) == n;
    RotateExchanges(h, l, n);
    RotateExchanges(l, h, 64 - n);
  }

  /** Bitwise exclusive or. */
  function Xor(a: nat, b: nat): nat
    decreases a + b
  {
    if a == 0 && b == 0 then 0 else (a % 2 + b % 2) % 2 + 2 * Xor(a / 2, b / 2)
  }

  lemma {:induction false} XorCommutes(a: nat, b: nat)
    ensures Xor(a, b) == Xor(b, a)
    decreases a + b
  {
    if a != 0 || b != 0 {
      XorCommutes(a / 2, b / 2);
    }
  }

  lemma {:induction false} XorZero(a: nat)
    ensures Xor(a, 0) == a && Xor(0, a) == a
  {
    if a != 0 {
      XorZero(a / 2);
    }
  }

  lemma XorHalves(a: nat, b: nat)
    ensures Xor(a, b) % 2 == (a % 2 + b % 2) % 2
    ensures Xor(a, b) / 2 == Xor(a / 2, b / 2)
  {
  }

  lemma {:induction false} XorAssociates(a: nat, b: nat, c: nat)
    ensures Xor(Xor(a, b), c) == Xor(a, Xor(b, c))
    decreases a + b + c
  {
    if a != 0 || b != 0 || c != 0 {
      XorAssociates(a / 2, b / 2, c / 2);
      SameUpperBits(a, b, c);
      SameLowBit(a, b, c);
      SameWord(Xor(Xor(a, b), c), Xor(a, Xor(b, c)));
    }
  }

  lemma SameUpperBits(a: nat, b: nat, c: nat)
    requires Xor(Xor(a / 2, b / 2), c / 2) == Xor(a / 2, Xor(b / 2, c / 2))
    ensures Xor(Xor(a, b), c) / 2 == Xor(a, Xor(b, c)) / 2
  {
    XorHalves(a, b);
    XorHalves(b, c);
    XorHalves(Xor(a, b), c);
    XorHalves(a, Xor(b, c));
  }

  lemma LowBitOfThree(a: nat, b: nat, c: nat, ab: nat, bc: nat)
    requires ab % 2 == (a % 2 + b % 2) % 2 && bc % 2 == (b % 2 + c % 2) % 2
    ensures (ab % 2 + c % 2) % 2 == (a % 2 + bc % 2) % 2
  {
  }

  lemma XorLowBit(a: nat, b: nat)
    ensures Xor(a, b) % 2 == (a % 2 + b % 2) % 2
  {
  }

  lemma SameLowBit(a: nat, b: nat, c: nat)
    ensures Xor(Xor(a, b), c) % 2 == Xor(a, Xor(b, c)) % 2
  {
    var ab, bc := Xor(a, b), Xor(b, c);
    LowBitOfThree(a, b, c, ab, bc) by {
      XorLowBit(a, b);
      XorLowBit(b, c);
    }
    calc {
      Xor(ab, c) % 2;
      { XorLowBit(ab, c); }
      (ab % 2 + c % 2) % 2;
      (a % 2 + bc % 2) % 2;
      { XorLowBit(a, bc); }
      Xor(a, bc) % 2;
    }
  }

  lemma SameWord(x: nat, y: nat)
    requires x / 2 == y / 2 && x % 2 == y % 2
    ensures x == y
  {
  }

  lemma {:induction false} XorBelowPow2(a: nat, b: nat, n: nat)
    requires a < Pow2(n) && b < Pow2(n)
    ensures Xor(a, b) < Pow2(n)
  {
    if n > 0 && (a != 0 || b != 0) {
      XorBelowPow2(a / 2, b / 2, n - 1);
    }
  }

  lemma XorFits(a: U64, b: U64)
    ensures Xor(a, b) < TWO64
  {
    Pow2Of64();
    XorBelowPow2(a, b, 64);
  }

  /** `a ^ b` on 64-bit words. */
  function XorWord(a: U64, b: U64): (c: U64)
    ensures c == Xor(a, b)
  {
    XorFits(a, b);
    Xor(a, b)
  }
}
