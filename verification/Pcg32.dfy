/** The PCG32 generator: a 64-bit linear congruential state with a permuted 32-bit output.

    States are natural numbers below 2^64, so that the wrapping arithmetic of the source is
    visible as `% WORD64`. */
module Prng {
  import opened Words

  const MULTIPLIER: nat := 6364136223846793005

  // ---------------------------------------------------------------- the state sequence

  function Step(inc: nat, x: nat): (y: nat)
    ensures y < WORD64
  {
    (x * MULTIPLIER + inc) % WORD64
  }

  function Iterate(inc: nat, n: nat, x: nat): nat
  {
    if n == 0 then x else Step(inc, Iterate(inc, n - 1, x))
  }

  /** The same orbit over the integers, before reduction modulo 2^64. */
  ghost function Orbit(inc: nat, n: nat, x: nat): nat
  {
    if n == 0 then x else Orbit(inc, n - 1, x) * MULTIPLIER + inc
  }

  lemma {:induction false} OrbitReduces(inc: nat, n: nat, x: nat)
    requires x < WORD64
    ensures Iterate(inc, n, x) == Orbit(inc, n, x) % WORD64
  {
    if n > 0 {
      OrbitReduces(inc, n - 1, x);
      var o := Orbit(inc, n - 1, x);
      var q := o / WORD64;
      assert o == q * WORD64 + o % WORD64;
      ReduceFactor(q * MULTIPLIER, (o % WORD64) * MULTIPLIER + inc);
      assert o * MULTIPLIER + inc == (q * MULTIPLIER) * WORD64 + ((o % WORD64) * MULTIPLIER + inc);
    }
  }

  lemma ReduceFactor(q: nat, r: nat)
    ensures (q * WORD64 + r) % WORD64 == r % WORD64
  {
  }

  lemma {:induction false} OrbitSum(inc: nat, m: nat, n: nat, x: nat)
    ensures Orbit(inc, m + n, x) == Orbit(inc, m, Orbit(inc, n, x))
  {
    if m > 0 {
      OrbitSum(inc, m - 1, n, x);
    }
  }

  /** A jump of `n` steps is the affine map x -> scale * x + shift. */
  ghost predicate Jump(inc: nat, n: nat, scale: nat, shift: nat) {
    forall x: nat :: Orbit(inc, n, x) == scale * x + shift
  }

  lemma ComposeJumps(inc: nat, m: nat, a: nat, c: nat, n: nat, b: nat, d: nat)
    requires Jump(inc, m, a, c) && Jump(inc, n, b, d)
    ensures Jump(inc, m + n, a * b, a * d + c)
  {
    forall x: nat ensures Orbit(inc, m + n, x) == (a * b) * x + (a * d + c) {
      OrbitSum(inc, m, n, x);
      assert Orbit(inc, n, x) == b * x + d;
      assert Orbit(inc, m, b * x + d) == a * (b * x + d) + c;
      ComposeAffine(a, b, c, d, x);
    }
  }

  lemma ComposeAffine(a: nat, b: nat, c: nat, d: nat, x: nat)
    ensures a * (b * x + d) + c == (a * b) * x + (a * d + c)
  {
  }

  lemma OneStepJump(inc: nat)
    ensures Jump(inc, 1, MULTIPLIER, inc)
  {
    forall x: nat ensures Orbit(inc, 1, x) == MULTIPLIER * x + inc {
      assert Orbit(inc, 0, x) == x;
    }
  }

  /** 2^k steps multiply by 1 + 2^(k+2) u and add 2^k times an odd number: each squaring of the
      scale gains one factor two, and the shift is multiplied by scale + 1, which is twice odd. */
  lemma {:induction false} DoublingJump(inc: nat, k: nat) returns (u: nat, v: nat)
    requires inc % 2 == 1
    ensures Jump(inc, Pow2(k), 1 + Pow2(k + 2) * u, Pow2(k) * (2 * v + 1))
  {
    hide Jump;
    if k == 0 {
      u, v := MULTIPLIER / 4, inc / 2;
      OneStepJump(inc);
      assert Pow2(2) == 4;
    } else {
      var u0, v0 := DoublingJump(inc, k - 1);
      var p := Pow2(k - 1);
      var a, c := 1 + 4 * p * u0, p * (2 * v0 + 1);
      assert Pow2(k + 1) == 4 * p;
      ComposeJumps(inc, p, a, c, p, a, c);
      u := u0 + 2 * p * u0 * u0;
      v := v0 + p * u0 * (2 * v0 + 1);
      SquareScale(p, u0);
      TwiceOddShift(p, u0, v0);
      assert Pow2(k) == 2 * p && Pow2(k + 2) == 8 * p;
      assert a * a == 1 + Pow2(k + 2) * u;
      assert a * c + c == Pow2(k) * (2 * v + 1);
    }
  }

  lemma SquareScale(p: nat, u: nat)
    ensures (1 + 4 * p * u) * (1 + 4 * p * u) == 1 + 8 * p * (u + 2 * p * u * u)
  {
    var z := p * u;
    assert (1 + 4 * z) * (1 + 4 * z) == 1 + 8 * z + 16 * (z * z);
    assert p * (2 * p * u * u) == 2 * (z * z);
    assert p * (u + 2 * p * u * u) == z + 2 * (z * z);
  }

  lemma TwiceOddShift(p: nat, u: nat, v: nat)
    ensures (1 + 4 * p * u) * (p * (2 * v + 1)) + p * (2 * v + 1)
         == 2 * p * (2 * (v + p * u * (2 * v + 1)) + 1)
  {
    var w := 2 * v + 1;
    var t := p * u * w;
    assert (1 + 4 * p * u) * (p * w) == p * w + 4 * p * t;
    assert 2 * p * (2 * (v + t) + 1) == 2 * p * w + 4 * p * t;
  }

  /** m * 2^k steps move every state by 2^k times a number of the parity of m. */
  lemma {:induction false} MultipleJump(inc: nat, k: nat, m: nat, x: nat) returns (w: nat)
    requires inc % 2 == 1
    ensures Orbit(inc, m * Pow2(k), x) == x + Pow2(k) * (2 * w + m % 2)
  {
    if m == 0 {
      w := 0;
    } else {
      var w0 := MultipleJump(inc, k, m - 1, x);
      var p := Pow2(k);
      var y := Orbit(inc, (m - 1) * p, x);
      var u, v := DoublingJump(inc, k);
      assert m * p == p + (m - 1) * p;
      OrbitSum(inc, p, (m - 1) * p, x);
      assert Orbit(inc, p, y) == (1 + Pow2(k + 2) * u) * y + p * (2 * v + 1);
      w := MoveOnce(p, Pow2(k + 2), u, v, w0, m, x, y);
    }
  }

  lemma PowerJump(inc: nat, k: nat, x: nat) returns (w: nat)
    requires inc % 2 == 1
    ensures Orbit(inc, Pow2(k), x) == x + Pow2(k) * (2 * w + 1)
  {
    w := MultipleJump(inc, k, 1, x);
  }

  lemma MoveOnce(p: nat, q: nat, u: nat, v: nat, w0: nat, m: nat, x: nat, y: nat) returns (w: nat)
    requires m > 0 && q == 4 * p
    requires y == x + p * (2 * w0 + (m - 1) % 2)
    ensures (1 + q * u) * y + p * (2 * v + 1) == x + p * (2 * w + m % 2)
  {
    var e := if m % 2 == 0 then 1 else 0;
    var z := u * y;
    w := w0 + 2 * z + v + e;
    assert (m - 1) % 2 == e && 1 + e == 2 * e + m % 2;
    assert (1 + q * u) * y == y + p * (4 * z) by {
      assert q * z == p * (4 * z);
    }
    assert 2 * w + m % 2 == (2 * w0 + e) + 4 * z + (2 * v + 1);
    assert p * (2 * w + m % 2) == p * (2 * w0 + e) + p * (4 * z) + p * (2 * v + 1);
  }

  /** Every positive number below 2^b is 2^k times an odd number, with k < b. */
  lemma {:induction false} OddPart(n: nat, b: nat) returns (k: nat, m: nat)
    requires 0 < n < Pow2(b)
    ensures k < b && n == m * Pow2(k) && m % 2 == 1
  {
    if n % 2 == 1 {
      k, m := 0, n;
    } else {
      var k0;
      k0, m := OddPart(n / 2, b - 1);
      k := k0 + 1;
      assert n == 2 * (m * Pow2(k0)) == m * Pow2(k);
    }
  }

  /** A state moved by an odd multiple of 2^k, k < 64, is a different state. */
  lemma OddMoveMoves(k: nat, x: nat, w: nat)
    requires k < 64 && x < WORD64
    ensures (x + Pow2(k) * (2 * w + 1)) % WORD64 != x
  {
    Pow2Words();
    Pow2Sum(k + 1, 63 - k);
    OddMultipleMoves(Pow2(k), Pow2(63 - k), WORD64, x, w);
  }

  lemma OddMultipleMoves(p: nat, h: nat, word: nat, x: nat, w: nat)
    requires p > 0 && word > 0 && word == (2 * p) * h
    ensures (x + p * (2 * w + 1)) % word != x
  {
    var y := x + p * (2 * w + 1);
    if y % word == x {
      var q := y / word;
      assert y == q * word + x;
      assert q * ((2 * p) * h) == p * (2 * (q * h));
      CancelFactor(p, 2 * w + 1, 2 * (q * h));
      assert false;
    }
  }

  lemma CancelFactor(p: nat, a: int, b: int)
    requires p > 0 && p * a == p * b
    ensures a == b
  {
    assert p * (a - b) == 0;
  }

  lemma ReturnsAfterPeriod(inc: nat, x: nat)
    requires inc % 2 == 1 && x < WORD64
    ensures Iterate(inc, WORD64, x) == x
  {
    hide Orbit, Iterate;
    Pow2Words();
    hide Pow2;
    var w := PowerJump(inc, 64, x);
    OrbitReduces(inc, WORD64, x);
    UniqueRemainder(WORD64, 2 * w + 1, x);
  }

  lemma MovesWithinPeriod(inc: nat, n: nat, x: nat)
    requires inc % 2 == 1 && x < WORD64 && 0 < n < WORD64
    ensures Iterate(inc, n, x) != x
  {
    hide Orbit, Iterate;
    Pow2Words();
    hide Pow2;
    var k, m := OddPart(n, 64);
    var w := MultipleJump(inc, k, m, x);
    OrbitReduces(inc, n, x);
    OddMoveMoves(k, x, w);
  }

  /** The state sequence returns to its start after exactly 2^64 steps, from every state. */
  lemma FullPeriod(inc: nat, x: nat)
    requires inc % 2 == 1 && x < WORD64
    ensures Iterate(inc, WORD64, x) == x
    ensures forall n :: 0 < n < WORD64 ==> Iterate(inc, n, x) != x
  {
    ReturnsAfterPeriod(inc, x);
    forall n | 0 < n < WORD64 ensures Iterate(inc, n, x) != x {
      MovesWithinPeriod(inc, n, x);
    }
  }

  /** The low k bits of any target are met within the first 2^k steps. */
  lemma {:induction false} ReachLowBits(inc: nat, x: nat, y: nat, k: nat) returns (n: nat, q: int)
    requires inc % 2 == 1
    ensures n < Pow2(k)
    ensures y - Orbit(inc, n, x) == Pow2(k) * q
  {
    if k == 0 {
      n, q := 0, y - x;
    } else {
      hide Orbit;
      var n0, q0 := ReachLowBits(inc, x, y, k - 1);
      var p := Pow2(k - 1);
      if q0 % 2 == 0 {
        n, q := n0, q0 / 2;
        HalveEven(p, q0, q);
      } else {
        n := n0 + p;
        var o := Orbit(inc, n0, x);
        var w := PowerJump(inc, k - 1, o);
        OrbitSum(inc, p, n0, x);
        q := HalveOdd(p, q0, w, y, o);
      }
    }
  }

  lemma HalveEven(p: nat, q0: int, q: int)
    requires q0 == 2 * q
    ensures p * q0 == (2 * p) * q
  {
  }

  lemma HalveOdd(p: nat, q0: int, w: nat, y: nat, o: nat) returns (q: int)
    requires q0 % 2 == 1 && y - o == p * q0
    ensures y - (o + p * (2 * w + 1)) == (2 * p) * q
  {
    q := (q0 - 1) / 2 - w;
    assert q0 - (2 * w + 1) == 2 * q;
    assert p * q0 - p * (2 * w + 1) == p * (q0 - (2 * w + 1));
  }

  /** Every state is met, within one period, from every state. */
  lemma ReachState(inc: nat, x: nat, y: nat) returns (n: nat)
    requires inc % 2 == 1 && x < WORD64 && y < WORD64
    ensures n < WORD64 && Iterate(inc, n, x) == y
  {
    hide Orbit, Iterate;
    Pow2Words();
    hide Pow2;
    var q;
    n, q := ReachLowBits(inc, x, y, 64);
    OrbitReduces(inc, n, x);
    UniqueRemainder(WORD64, -q, y);
  }

  /** Forcing the increment odd is what gives the full period: with an even increment the low
      bit of the state never changes, so half of the states are out of reach. */
  lemma {:induction false} EvenIncrementKeepsParity(inc: nat, n: nat, x: nat)
    requires inc % 2 == 0
    ensures Iterate(inc, n, x) % 2 == x % 2
  {
    if n > 0 {
      EvenIncrementKeepsParity(inc, n - 1, x);
      var y := Iterate(inc, n - 1, x);
      HalfWord(y * MULTIPLIER + inc, WORD64 / 2);
      SameParity(y, MULTIPLIER, inc);
    }
  }

  lemma SameParity(y: nat, odd: nat, even: nat)
    requires odd % 2 == 1 && even % 2 == 0
    ensures (y * odd + even) % 2 == y % 2
  {
    var h := odd / 2;
    var z := y * h;
    assert y * odd == y + 2 * z by { assert odd == 1 + 2 * h; }
  }

  lemma HalfWord(z: nat, h: nat)
    requires h > 0
    ensures (z % (2 * h)) % 2 == z % 2
  {
    var q := z / (2 * h);
    assert z == (2 * h) * q + z % (2 * h);
    assert (2 * h) * q == 2 * (h * q);
  }

  // ---------------------------------------------------------------- words as bits

  /** The n low bits of x, least significant first. */
  function WordBits(x: nat, n: nat): (b: seq<bool>)
    ensures |b| == n
  {
    if n == 0 then [] else [x % 2 == 1] + WordBits(x / 2, n - 1)
  }

  function Value(b: seq<bool>): nat
  {
    if b == [] then 0 else (if b[0] then 1 else 0) + 2 * Value(b[1..])
  }

  lemma {:induction false} ValueBound(b: seq<bool>)
    ensures Value(b) < Pow2(|b|)
    ensures (forall i :: 0 <= i < |b| ==> b[i]) ==> Value(b) == Pow2(|b|) - 1
  {
    if b != [] {
      ValueBound(b[1..]);
    }
  }

  lemma {:induction false} BitsOfValue(b: seq<bool>)
    ensures WordBits(Value(b), |b|) == b
  {
    if b != [] {
      BitsOfValue(b[1..]);
      assert Value(b) / 2 == Value(b[1..]);
    }
  }

  lemma {:induction false} ValueOfBits(x: nat, n: nat)
    requires x < Pow2(n)
    ensures Value(WordBits(x, n)) == x
  {
    if n > 0 {
      ValueOfBits(x / 2, n - 1);
      assert WordBits(x, n)[1..] == WordBits(x / 2, n - 1);
    }
  }

  // ---------------------------------------------------------------- the output permutation

  function Bit(w: seq<bool>, i: nat): bool { i < |w| && w[i] }

  /** (w >> 18) ^ w */
  function XorShift(w: seq<bool>): (y: seq<bool>)
    ensures |y| == |w|
    ensures forall i :: 0 <= i < |w| ==> y[i] == (w[i] != Bit(w, i + 18))
  {
    seq(|w|, i requires 0 <= i < |w| => w[i] != Bit(w, i + 18))
  }

  function RotateRight(w: seq<bool>, count: nat): (r: seq<bool>)
    requires count <= |w|
    ensures |r| == |w|
  {
    w[count..] + w[..count]
  }

  /** XSH-RR: bits 27..58 of the xor-shifted state, rotated right by its top five bits. */
  function Permute(w: seq<bool>): (r: seq<bool>)
    requires |w| == 64
    ensures |r| == 32
  {
    RotateRight(XorShift(w)[27..59], Turns(w[59..]))
  }

  function Turns(top: seq<bool>): (n: nat)
    requires |top| == 5
    ensures n < 32
  {
    ValueBound(top);
    assert Pow2(5) == 32;
    Value(top)
  }

  function Output(x: nat): (r: nat)
    ensures r < WORD32
  {
    Pow2Words();
    ValueBound(Permute(WordBits(x, 64)));
    Value(Permute(WordBits(x, 64)))
  }

  /** The state bits that the output does not determine: the rotation and the dropped low bits. */
  function Hidden(x: nat): (h: (seq<bool>, seq<bool>))
    ensures |h.0| == 5 && |h.1| == 27
  {
    (WordBits(x, 64)[59..], XorShift(WordBits(x, 64))[..27])
  }

  /** Undoes the xor-shift of a 64-bit word. */
  function UnXorShift(y: seq<bool>): (w: seq<bool>)
    requires |y| == 64
    ensures |w| == 64 && XorShift(w) == y
  {
    var w := seq(64, i requires 0 <= i < 64 =>
      y[i] != (Bit(y, i + 18) != (Bit(y, i + 36) != Bit(y, i + 54))));
    assert XorShift(w) == y by {
      forall i | 0 <= i < 64 ensures XorShift(w)[i] == y[i] {
        assert Bit(w, i + 18) == (Bit(y, i + 18) != (Bit(y, i + 36) != Bit(y, i + 54)));
      }
    }
    w
  }

  lemma RotateBack(v: seq<bool>, n: nat)
    requires |v| == 32 && n <= 32
    ensures RotateRight(RotateRight(v, n), 32 - n) == v
  {
  }

  /** The top bits pass through the xor-shift, since nothing is shifted into them. */
  lemma TopUnchanged(w: seq<bool>)
    requires |w| == 64
    ensures XorShift(w)[59..] == w[59..]
  {
  }

  /** The word with a given output and hidden bits. */
  function AssembleWord(v: seq<bool>, hidden: (seq<bool>, seq<bool>)): (w: seq<bool>)
    requires |v| == 32 && |hidden.0| == 5 && |hidden.1| == 27
    ensures |w| == 64 && Permute(w) == v && w[59..] == hidden.0 && XorShift(w)[..27] == hidden.1
  {
    var n := 32 - Turns(hidden.0);
    var middle := RotateRight(v, n);
    var y := hidden.1 + middle + hidden.0;
    var w := UnXorShift(y);
    TopUnchanged(w);
    RotateBack(v, n);
    assert y[59..] == hidden.0 && y[27..59] == middle && y[..27] == hidden.1;
    w
  }

  function Assemble(r: nat, hidden: (seq<bool>, seq<bool>)): (x: nat)
    requires r < WORD32 && |hidden.0| == 5 && |hidden.1| == 27
    ensures x < WORD64 && Output(x) == r && Hidden(x) == hidden
  {
    Pow2Words();
    var w := AssembleWord(WordBits(r, 32), hidden);
    ValueBound(w);
    BitsOfValue(w);
    ValueOfBits(r, 32);
    Value(w)
  }

  lemma WordFromFields(a: seq<bool>, b: seq<bool>)
    requires |a| == |b| == 64 && Permute(a) == Permute(b)
    requires a[59..] == b[59..] && XorShift(a)[..27] == XorShift(b)[..27]
    ensures a == b
  {
    var p, q, n := XorShift(a), XorShift(b), Turns(a[59..]);
    RotateBack(p[27..59], n);
    RotateBack(q[27..59], n);
    TopUnchanged(a);
    TopUnchanged(b);
    assert p == p[..27] + p[27..59] + p[59..] == q[..27] + q[27..59] + q[59..] == q;
    XorShiftInjective(a, b);
  }

  /** Every output value is produced by exactly 2^32 of the 2^64 states: an output and 32 hidden
      bits name one state with that output, and every state is named. */
  lemma OutputFibre(x: nat)
    requires x < WORD64
    ensures x == Assemble(Output(x), Hidden(x))
  {
    Pow2Words();
    var z := Assemble(Output(x), Hidden(x));
    var a, b := WordBits(x, 64), WordBits(z, 64);
    SameValue(Permute(a), Permute(b));
    WordFromFields(a, b);
    ValueOfBits(x, 64);
    ValueOfBits(z, 64);
  }

  lemma SameValue(a: seq<bool>, b: seq<bool>)
    requires |a| == |b| && Value(a) == Value(b)
    ensures a == b
  {
    BitsOfValue(a);
    BitsOfValue(b);
  }

  lemma XorShiftInjective(a: seq<bool>, b: seq<bool>)
    requires |a| == |b| && XorShift(a) == XorShift(b)
    ensures a == b
  {
    var k := |a|;
    while k > 0
      invariant 0 <= k <= |a|
      invariant forall i :: k <= i < |a| ==> a[i] == b[i]
    {
      k := k - 1;
      assert XorShift(a)[k] == XorShift(b)[k];
      assert Bit(a, k + 18) == Bit(b, k + 18);
    }
  }

  /** A state whose output is 2^32 - 1, accepted by every rejection threshold. */
  function TopState(): (x: nat)
    ensures x < WORD64 && Output(x) == WORD32 - 1
  {
    Assemble(WORD32 - 1, (seq(5, _ => false), seq(27, _ => false)))
  }

  // ---------------------------------------------------------------- the output in arithmetic

  /** Exclusive or of two numbers, digit by digit. */
  function Xor(a: nat, b: nat): nat
  {
    if a == 0 then b else (if a % 2 != b % 2 then 1 else 0) + 2 * Xor(a / 2, b / 2)
  }

  /** x >> k, one place at a time, and the bits that are lost. */
  function Shr(x: nat, k: nat): nat
  {
    if k == 0 then x else Shr(x / 2, k - 1)
  }

  function Low(x: nat, k: nat): nat
  {
    if k == 0 then 0 else x % 2 + 2 * Low(x / 2, k - 1)
  }

  lemma {:induction false} ShiftDivides(x: nat, k: nat)
    ensures Shr(x, k) * Pow2(k) + Low(x, k) == x && Low(x, k) < Pow2(k)
    ensures x / Pow2(k) == Shr(x, k) && x % Pow2(k) == Low(x, k)
  {
    if k > 0 {
      ShiftDivides(x / 2, k - 1);
      DoubleProduct(Shr(x, k), Pow2(k - 1));
    }
    UniqueRemainder(Pow2(k), Shr(x, k), Low(x, k));
  }

  lemma DoubleProduct(q: nat, p: nat)
    ensures q * (2 * p) == 2 * (q * p)
  {
  }

  /** u32::rotate_right: the low `count` bits of y become its high ones. */
  function RotatedWord(y: nat, count: nat): nat
    requires count <= 32
  {
    Shr(y, count) + Low(y, count) * Pow2(32 - count)
  }

  lemma {:induction false} XorBits(a: nat, b: nat, n: nat, i: nat)
    requires i < n
    ensures WordBits(Xor(a, b), n)[i] == (WordBits(a, n)[i] != WordBits(b, n)[i])
  {
    var z := Xor(a, b);
    if a == 0 {
      ZeroBits(n, i);
    } else {
      assert z % 2 == (if a % 2 != b % 2 then 1 else 0) && z / 2 == Xor(a / 2, b / 2);
      if i > 0 { XorBits(a / 2, b / 2, n - 1, i - 1); }
    }
  }

  lemma {:induction false} ZeroBits(n: nat, i: nat)
    requires i < n
    ensures !WordBits(0, n)[i]
  {
    if i > 0 { ZeroBits(n - 1, i - 1); }
  }

  /** Shifting drops that many bits. */
  lemma {:induction false} ShiftedBits(x: nat, k: nat, n: nat)
    ensures WordBits(Shr(x, k), n) == WordBits(x, k + n)[k..]
    decreases k
  {
    if k > 0 {
      ShiftedBits(x / 2, k - 1, n);
      assert WordBits(x, k + n)[1..] == WordBits(x / 2, k - 1 + n);
      assert WordBits(x, k + n)[k..] == WordBits(x, k + n)[1..][k - 1..];
    }
  }

  lemma {:induction false} FirstBits(x: nat, m: nat, n: nat)
    requires m <= n
    ensures WordBits(x, n)[..m] == WordBits(x, m)
    decreases m
  {
    if m > 0 {
      FirstBits(x / 2, m - 1, n - 1);
      assert WordBits(x, n)[1..] == WordBits(x / 2, n - 1);
      assert WordBits(x, n)[..m] == [x % 2 == 1] + WordBits(x, n)[1..][..m - 1];
    }
  }

  lemma {:induction false} HighBits(x: nat, m: nat, n: nat, i: nat)
    requires x < Pow2(m) && m <= i < n
    ensures !WordBits(x, n)[i]
    decreases m
  {
    if m == 0 { ZeroBits(n, i); } else { HighBits(x / 2, m - 1, n - 1, i - 1); }
  }

  lemma {:induction false} ValueOfLow(x: nat, n: nat)
    ensures Value(WordBits(x, n)) == Low(x, n)
  {
    if n > 0 {
      ValueOfLow(x / 2, n - 1);
      assert WordBits(x, n)[1..] == WordBits(x / 2, n - 1);
    }
  }

  lemma {:induction false} ValueOfSum(a: seq<bool>, b: seq<bool>)
    ensures Value(a + b) == Value(a) + Pow2(|a|) * Value(b)
  {
    if a == [] {
      assert a + b == b;
    } else {
      ValueOfSum(a[1..], b);
      assert (a + b)[1..] == a[1..] + b;
      DoubleProduct(Value(b), Pow2(|a| - 1));
    }
  }

  lemma XorShiftedBit(x: nat, i: nat)
    requires x < Pow2(64) && i < 64
    ensures XorShift(WordBits(x, 64))[i] == WordBits(Xor(Shr(x, 18), x), 64)[i]
  {
    hide Pow2, Xor, Shr, WordBits;
    XorBits(Shr(x, 18), x, 64, i);
    ShiftedBits(x, 18, 64);
    FirstBits(x, 64, 82);
    assert WordBits(Shr(x, 18), 64)[i] == WordBits(x, 82)[i + 18];
    if i + 18 >= 64 { HighBits(x, 64, 82, i + 18); }
  }

  /** The xor-shifted word of the source, without its low 27 bits and as 32 bits. */
  lemma ShiftedWord(x: nat)
    requires x < Pow2(64)
    ensures XorShift(WordBits(x, 64))[27..59] == WordBits(Shr(Xor(Shr(x, 18), x), 27), 32)
  {
    hide Pow2, Xor, Shr, WordBits, XorShift;
    var w, z := WordBits(x, 64), Xor(Shr(x, 18), x);
    ShiftedBits(z, 27, 32);
    FirstBits(z, 59, 64);
    forall i | 27 <= i < 59 ensures XorShift(w)[i] == WordBits(z, 59)[i] {
      XorShiftedBit(x, i);
    }
  }

  lemma {:induction false} AllLow(x: nat, n: nat)
    requires x < Pow2(n)
    ensures Low(x, n) == x
  {
    if n > 0 { AllLow(x / 2, n - 1); }
  }

  lemma {:induction false} ShiftBound(x: nat, k: nat, n: nat)
    requires x < Pow2(k + n)
    ensures Shr(x, k) < Pow2(n)
  {
    if k > 0 { ShiftBound(x / 2, k - 1, n); }
  }

  lemma TopFive(x: nat)
    requires x < Pow2(64)
    ensures Turns(WordBits(x, 64)[59..]) == Shr(x, 59) < 32
  {
    hide WordBits, Shr, Low;
    ShiftedBits(x, 59, 5);
    ValueOfLow(Shr(x, 59), 5);
    ShiftBound(x, 59, 5);
    AllLow(Shr(x, 59), 5);
    assert Pow2(5) == 32;
  }

  lemma SameParts(w: nat, s: nat, l: nat, h: nat, g: nat)
    requires s * w + l == g + w * h && l < w && g < w
    ensures s == h && l == g
  {
    UniqueRemainder(w, s, l);
    UniqueRemainder(w, h, g);
    assert h * w == w * h;
  }

  lemma RotatedValue(v: seq<bool>, count: nat)
    requires |v| == 32 && count <= 32
    ensures Value(RotateRight(v, count)) == RotatedWord(Value(v), count)
  {
    hide Value, Pow2, Shr, Low;
    var lo, hi := v[..count], v[count..];
    assert v == lo + hi;
    ValueOfSum(lo, hi);
    ValueOfSum(hi, lo);
    ValueBound(lo);
    ShiftDivides(Value(v), count);
    SameParts(Pow2(count), Shr(Value(v), count), Low(Value(v), count), Value(hi), Value(lo));
    Commutes(Low(Value(v), count), Pow2(32 - count));
  }

  lemma Commutes(a: nat, b: nat)
    ensures a * b == b * a
  {
  }

  lemma OutputShifts(x: nat)
    requires x < Pow2(64)
    ensures Shr(x, 59) < 32 && Output(x) == RotatedWord(Low(Shr(Xor(Shr(x, 18), x), 27), 32), Shr(x, 59))
  {
    hide Pow2, Xor, Shr, Low, WordBits, XorShift, RotateRight, RotatedWord, Value, Turns;
    var z := Shr(Xor(Shr(x, 18), x), 27);
    ShiftedWord(x);
    TopFive(x);
    ValueOfLow(z, 32);
    RotatedValue(WordBits(z, 32), Shr(x, 59));
  }

  lemma Pow2Shifts()
    ensures Pow2(18) == 0x4_0000 && Pow2(27) == 0x800_0000 && Pow2(59) == 0x800_0000_0000_0000
  {
    assert Pow2(9) == 512;
    Pow2Sum(9, 9);
    Pow2Sum(9, 18);
    Pow2Words();
    Pow2Sum(27, 32);
  }

  /** The 32-bit word that the source rotates: bits 27 to 58 of the state xored with itself shifted by 18. */
  function Shifted(x: nat): nat
  {
    (Xor(x / 0x4_0000, x) / 0x800_0000) % WORD32
  }

  /** The output in arithmetic: that word rotated right by the top five bits of the state. */
  lemma OutputArithmetic(x: nat)
    requires x < WORD64
    ensures var (y, turns) := (Shifted(x), x / 0x800_0000_0000_0000);
      turns < 32 && Output(x) == RotatedWord(y, turns) == y / Pow2(turns) + (y % Pow2(turns)) * Pow2(32 - turns)
  {
    hide Pow2, Xor, Shr, Low, Output;
    Pow2Words();
    Pow2Shifts();
    OutputShifts(x);
    ShiftDivides(x, 18);
    ShiftDivides(x, 59);
    var z := Xor(Shr(x, 18), x);
    ShiftDivides(z, 27);
    ShiftDivides(Shr(z, 27), 32);
    ShiftDivides(Shifted(x), Shr(x, 59));
  }

  // ---------------------------------------------------------------- bounded draws

  /** bound.wrapping_neg() % bound */
  function Threshold(bound: nat): nat
    requires 0 < bound < WORD32
  {
    (WORD32 - bound) % bound
  }

  /** The fewest values are rejected that leave a multiple of the bound: 2^32 mod bound of them. */
  lemma ThresholdLeast(bound: nat, t: nat)
    requires 0 < bound < WORD32
    ensures Threshold(bound) == WORD32 % bound < bound && (WORD32 - Threshold(bound)) % bound == 0
    ensures t < Threshold(bound) ==> (WORD32 - t) % bound != 0
  {
    var q := (WORD32 - bound) / bound;
    var r := Threshold(bound);
    assert WORD32 == (q + 1) * bound + r;
    UniqueRemainder(bound, q + 1, r);
    UniqueRemainder(bound, q + 1, 0);
    if t < r { UniqueRemainder(bound, q + 1, r - t); }
  }

  /** The accepted 32-bit values that yield `residue`. */
  ghost function Preimages(bound: nat, residue: nat): set<nat>
    requires 0 < bound < WORD32
  {
    set r: nat | Threshold(bound) <= r < WORD32 && r % bound == residue
  }

  /** No modulo bias: every residue below the bound has the same number of accepted preimages. */
  lemma UniformPreimages(bound: nat, residue: nat)
    requires 0 < bound < WORD32 && residue < bound
    ensures |Preimages(bound, residue)| == (WORD32 - Threshold(bound)) / bound
  {
    var t := Threshold(bound);
    var q := (WORD32 - bound) / bound;
    assert WORD32 - t == (q + 1) * bound;
    UniqueRemainder(bound, q + 1, 0);
    assert (WORD32 - t) / bound == q + 1 by { DivideExactly(bound, q + 1); }
    CountResidues(bound, t, q + 1, residue);
    assert Preimages(bound, residue) == ResiduesFrom(bound, t, q + 1, residue);
  }

  lemma DivideExactly(b: nat, q: nat)
    requires b > 0
    ensures (q * b) / b == q
  {
    assert q * b == ((q * b) / b) * b + (q * b) % b;
    UniqueRemainder(b, q, 0);
    CancelFactor(b, q, (q * b) / b);
  }

  ghost function ResiduesFrom(bound: nat, from: nat, count: nat, residue: nat): set<nat>
    requires bound > 0
  {
    set r: nat | from <= r < from + count * bound && r % bound == residue
  }

  /** Each stretch of `bound` consecutive numbers holds exactly one of each residue. */
  lemma {:induction false} CountResidues(bound: nat, from: nat, count: nat, residue: nat)
    requires residue < bound
    ensures |ResiduesFrom(bound, from, count, residue)| == count
  {
    if count == 0 {
      assert ResiduesFrom(bound, from, 0, residue) == {};
    } else {
      CountResidues(bound, from, count - 1, residue);
      var lo := from + (count - 1) * bound;
      var hit := NextResidue(bound, lo, residue);
      assert lo + bound == from + count * bound by { assert count * bound == (count - 1) * bound + bound; }
      var all, rest := ResiduesFrom(bound, from, count, residue), ResiduesFrom(bound, from, count - 1, residue);
      forall r | r in all && r !in rest ensures r == hit {
        SameResidue(bound, lo, r, hit);
      }
      assert all == rest + {hit};
    }
  }

  ghost function NextResidue(bound: nat, lo: nat, residue: nat): (r: nat)
    requires residue < bound
    ensures lo <= r < lo + bound && r % bound == residue
  {
    var q := lo / bound;
    assert lo == q * bound + lo % bound;
    if lo % bound <= residue then
      UniqueRemainder(bound, q, residue);
      q * bound + residue
    else
      UniqueRemainder(bound, q + 1, residue);
      assert (q + 1) * bound == q * bound + bound;
      (q + 1) * bound + residue
  }

  lemma SameResidue(bound: nat, lo: nat, a: nat, b: nat)
    requires bound > 0 && lo <= a < lo + bound && lo <= b < lo + bound && a % bound == b % bound
    ensures a == b
  {
    assert a == (a / bound) * bound + a % bound && b == (b / bound) * bound + b % bound;
    var d := a / bound - b / bound;
    assert d * bound == a - b by {
      assert (a / bound - b / bound) * bound == (a / bound) * bound - (b / bound) * bound;
    }
    SmallMultiple(d, bound);
  }

  /** The k-th output of the sequence from `x` is the first at or above `threshold`. */
  ghost predicate FirstAtLeast(inc: nat, x: nat, threshold: nat, k: nat)
  {
    && Output(Iterate(inc, k, x)) >= threshold
    && forall j: nat :: j < k ==> Output(Iterate(inc, j, x)) < threshold
  }

  // ---------------------------------------------------------------- the generator

  class Pcg32 {
    var state: nat
    var inc: nat

    ghost predicate Valid()
      reads this
    {
      state < WORD64 && inc < WORD64 && inc % 2 == 1
    }

    /** Seeding makes two steps around the seed injection; the increment is `(stream << 1) | 1`
        in 64 bits, so the top bit of the stream is lost. */
    constructor (seed: nat, stream: nat)
      requires seed < WORD64 && stream < WORD64
      ensures Valid()
      ensures inc == StreamIncrement(stream)
      ensures state == Step(inc, (Step(inc, 0) + seed) % WORD64)
    {
      hide Step, Output, StreamIncrement;
      state := 0;
      inc := StreamIncrement(stream);
      new;
      var first := NextU32();
      state := (state + seed) % WORD64;
      var second := NextU32();
    }

    method NextU32() returns (r: nat)
      requires Valid()
      modifies this`state
      ensures Valid()
      ensures r == Output(old(state)) && state == Step(inc, old(state))
    {
      hide Output, Xor, RotatedWord;
      var was := state;
      state := (was * MULTIPLIER + inc) % WORD64;
      var xorshifted := (Xor(was / 0x4_0000, was) / 0x800_0000) % WORD32;
      var turns := was / 0x800_0000_0000_0000;
      OutputArithmetic(was);
      r := RotatedWord(xorshifted, turns);
    }

    /** The rejection loop. It ends for every threshold and state, because the orbit meets
        `TopState`, whose output no threshold rejects. */
    method NextAtLeast(threshold: nat) returns (r: nat, ghost draws: nat)
      requires Valid() && threshold < WORD32
      modifies this`state
      ensures Valid() && draws < WORD64
      ensures FirstAtLeast(inc, old(state), threshold, draws)
      ensures r == Output(Iterate(inc, draws, old(state)))
      ensures state == Iterate(inc, draws + 1, old(state))
    {
      hide Step, Output, TopState;
      ghost var horizon := ReachState(inc, state, TopState());
      draws := 0;
      while true
        invariant Valid() && draws <= horizon < WORD64
        invariant state == Iterate(inc, draws, old(state))
        invariant Output(Iterate(inc, horizon, old(state))) == WORD32 - 1
        invariant forall j: nat :: j < draws ==> Output(Iterate(inc, j, old(state))) < threshold
        decreases horizon - draws
      {
        r := NextU32();
        if r >= threshold {
          return;
        }
        draws := draws + 1;
      }
    }

    method NextBounded(bound: nat) returns (r: nat, ghost draws: nat)
      requires Valid() && 0 < bound < WORD32
      modifies this`state
      ensures Valid() && r < bound
      ensures draws < WORD64 && FirstAtLeast(inc, old(state), Threshold(bound), draws)
      ensures r == Output(Iterate(inc, draws, old(state))) % bound
      ensures state == Iterate(inc, draws + 1, old(state))
    {
      var accepted;
      accepted, draws := NextAtLeast(Threshold(bound));
      r := accepted % bound;
    }
  }

  /** (stream << 1) | 1 in 64 bits. */
  function StreamIncrement(stream: nat): (inc: nat)
    ensures inc < WORD64 && inc % 2 == 1
  {
    HalfWord(2 * stream, WORD64 / 2);
    (2 * stream) % WORD64 + 1
  }

  /** Two streams give the same increment, hence the same sequence from the same seed, exactly
      when they agree in their low 63 bits. */
  lemma StreamsCollide(a: nat, b: nat)
    ensures StreamIncrement(a) == StreamIncrement(b) <==> a % (WORD64 / 2) == b % (WORD64 / 2)
  {
    DoubleRemainder(a, WORD64 / 2);
    DoubleRemainder(b, WORD64 / 2);
  }

  lemma DoubleRemainder(a: nat, h: nat)
    requires h > 0
    ensures (2 * a) % (2 * h) == 2 * (a % h)
  {
    assert 2 * a == (a / h) * (2 * h) + 2 * (a % h) by { assert a == (a / h) * h + a % h; }
    UniqueRemainder(2 * h, a / h, 2 * (a % h));
  }
}
