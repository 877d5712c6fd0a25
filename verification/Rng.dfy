/** Lemire's bounded draw and the SplitMix64 generator, over 64-bit words
    written as integers below 2^64 with the wrap-around explicit. */
module Rng {
  import opened Base

  // ---- Lemire's method with rejection ----------------------------------------

  function WrappingNeg(n: u64): u64 {
    (U64_LIMIT - n) % U64_LIMIT
  }

  function Threshold(n: u64): u64
    requires n > 0
  {
    WrappingNeg(n) % n
  }

  /** The low half of the 128-bit product reaches the threshold. */
  predicate Accepts(n: u64, x: u64)
    requires n > 0
  {
    (x * n) % U64_LIMIT >= Threshold(n)
  }

  /** The high half of the 128-bit product. */
  function Slot(n: u64, x: u64): int {
    (x * n) / U64_LIMIT
  }

  /** A generator seen from its consumer: the words it will produce and how many
      have been taken. */
  class DrawStream {
    const draws: nat -> u64
    var cursor: nat

    constructor (draws: nat -> u64)
      ensures this.draws == draws && cursor == 0
    {
      this.draws := draws;
      cursor := 0;
    }

    method NextU64() returns (x: u64)
      modifies this
      ensures x == draws(old(cursor)) && cursor == old(cursor) + 1
    {
      x := draws(cursor);
      cursor := cursor + 1;
    }

    /** Returns the slot of the first accepted word; every word taken before it
        was rejected. `hit` is any position holding an accepted word. */
    method NextBelow(n: u64, ghost hit: nat) returns (r: Option<u64>)
      requires n > 0 ==> cursor <= hit && Accepts(n, draws(hit))
      modifies this
      ensures n == 0 ==> r == None && cursor == old(cursor)
      ensures n > 0 ==> old(cursor) < cursor <= hit + 1
      ensures n > 0 ==> Accepts(n, draws(cursor - 1))
      ensures n > 0 ==> forall i :: old(cursor) <= i < cursor - 1 ==> !Accepts(n, draws(i))
      ensures n > 0 ==> r.Some? && r.value < n && r.value == Slot(n, draws(cursor - 1))
    {
      if n == 0 {
        return None;
      }
      var threshold := Threshold(n);
      while true
        invariant old(cursor) <= cursor <= hit
        invariant forall i :: old(cursor) <= i < cursor ==> !Accepts(n, draws(i))
        decreases hit - cursor
      {
        var x := NextU64();
        var m := x * n;
        if m % U64_LIMIT >= threshold {
          SlotBelow(n, x);
          return Some(m / U64_LIMIT);
        }
      }
    }
  }

  lemma {:induction false} SlotBelow(n: u64, x: u64)
    requires n > 0
    ensures 0 <= Slot(n, x) < n
  {
    DivBounds(x * n, U64_LIMIT, n);
  }

  lemma {:induction false} DivBounds(a: int, m: int, n: int)
    requires m > 0 && 0 <= a < n * m
    ensures 0 <= a / m < n
  {
    if a / m >= n {
      MulMono(n, a / m, m);
    }
  }

  lemma {:induction false} MulMono(a: int, b: int, c: int)
    requires a <= b && 0 <= c
    ensures a * c <= b * c
  {
  }

  lemma {:induction false} ThresholdIsRemainder(n: u64)
    requires n > 0
    ensures Threshold(n) == U64_LIMIT % n
  {
    var q := U64_LIMIT / n;
    assert U64_LIMIT - n == (q - 1) * n + U64_LIMIT % n;
    ModOf(q - 1, n, U64_LIMIT % n);
  }

  lemma {:induction false} ModOf(q: int, n: int, t: int)
    requires n > 0 && 0 <= t < n
    ensures (q * n + t) % n == t && (q * n + t) / n == q
  {
    var a := q * n + t;
    var d := a / n - q;
    assert d * n == t - a % n;
    if d >= 1 { MulMono(1, d, n); }
    if d <= -1 { MulMono(d, -1, n); }
  }

  /** For division by `m`: quotient `r` and remainder at least `t` is one interval. */
  lemma {:induction false} QuotientInterval(a: int, m: int, r: int, t: int)
    requires m > 0 && 0 <= t < m
    ensures a / m == r && a % m >= t <==> r * m + t <= a < (r + 1) * m
  {
    if r * m + t <= a < (r + 1) * m {
      ModOf(r, m, a - r * m);
    }
  }

  function CeilDiv(a: int, n: int): int
    requires n > 0
  {
    (a + n - 1) / n
  }

  lemma {:induction false} CeilDivBound(a: int, n: int, x: int)
    requires n > 0
    ensures x >= CeilDiv(a, n) <==> x * n >= a
  {
    var c := CeilDiv(a, n);
    assert c * n <= a + n - 1 < (c + 1) * n;
    if x >= c { MulMono(c, x, n); } else { MulMono(x, c - 1, n); }
  }

  /** The words `NextBelow(n)` accepts and maps to `r`. */
  ghost function AcceptedFor(n: u64, r: int): set<int>
    requires n > 0
  {
    set x: int | 0 <= x < U64_LIMIT && Accepts(n, x) && Slot(n, x) == r
  }

  ghost function Interval(lo: int, hi: int): (s: set<int>)
    requires lo <= hi
    ensures forall x: int :: x in s <==> lo <= x < hi
    ensures |s| == hi - lo
    decreases hi - lo
  {
    if lo == hi then {} else Interval(lo, hi - 1) + {hi - 1}
  }

  ghost function FirstAccepted(n: u64, r: int): int
    requires n > 0
  {
    CeilDiv(r * U64_LIMIT + U64_LIMIT % n, n)
  }

  lemma {:induction false} AcceptedIff(n: u64, r: int, x: int)
    requires 0 <= r < n
    ensures (0 <= x < U64_LIMIT && Accepts(n, x) && Slot(n, x) == r)
            <==> FirstAccepted(n, r) <= x < FirstAccepted(n, r) + U64_LIMIT / n
  {
    var q, t := U64_LIMIT / n, U64_LIMIT % n;
    var a := r * U64_LIMIT + t;
    ThresholdIsRemainder(n);
    QuotientInterval(x * n, U64_LIMIT, r, t);
    CeilDivBound(a, n, x);
    CeilDivBound(a, n, x - q);
    assert (x - q) * n == x * n - q * n;
    assert (r + 1) * U64_LIMIT == a + q * n;
    if a <= x * n < (r + 1) * U64_LIMIT {
      SlotRange(n, r, x, a);
    }
  }

  lemma {:induction false} SlotRange(n: int, r: int, x: int, a: int)
    requires 0 <= r < n && a >= r * U64_LIMIT
    requires a <= x * n < (r + 1) * U64_LIMIT
    ensures 0 <= x < U64_LIMIT
  {
    MulMono(0, r, U64_LIMIT);
    MulMono(r + 1, n, U64_LIMIT);
    if x <= -1 { MulMono(x, -1, n); }
    if x >= U64_LIMIT { MulMono(U64_LIMIT, x, n); }
  }

  /** Exactly `floor(2^64 / n)` words are accepted for each result: an accepted
      draw is perfectly uniform over `[0, n)`. */
  lemma {:induction false} LemireIsUniform(n: u64, r: int)
    requires 0 <= r < n
    ensures |AcceptedFor(n, r)| == U64_LIMIT / n
  {
    var lo, q := FirstAccepted(n, r), U64_LIMIT / n;
    forall x: int ensures x in AcceptedFor(n, r) <==> x in Interval(lo, lo + q) {
      AcceptedIff(n, r, x);
    }
    assert AcceptedFor(n, r) == Interval(lo, lo + q);
  }

  ghost function AcceptedBelow(n: u64, k: int): set<int>
    requires n > 0
  {
    set x: int | 0 <= x < U64_LIMIT && Accepts(n, x) && Slot(n, x) < k
  }

  lemma {:induction false} AcceptedSplit(n: u64, k: int)
    requires n > 0
    ensures |AcceptedBelow(n, k)| == |AcceptedBelow(n, k - 1)| + |AcceptedFor(n, k - 1)|
  {
    assert AcceptedBelow(n, k) == AcceptedBelow(n, k - 1) + AcceptedFor(n, k - 1);
    assert AcceptedBelow(n, k - 1) !! AcceptedFor(n, k - 1);
  }

  lemma {:induction false} AcceptedBelowSize(n: u64, k: int)
    requires 0 <= k <= n && n > 0
    ensures |AcceptedBelow(n, k)| == k * (U64_LIMIT / n)
    decreases k
  {
    if k == 0 {
      forall x: u64 ensures Slot(n, x) >= 0 { SlotBelow(n, x); }
      assert AcceptedBelow(n, 0) == {};
    } else {
      AcceptedBelowSize(n, k - 1);
      LemireIsUniform(n, k - 1);
      AcceptedSplit(n, k);
      assert k * (U64_LIMIT / n) == (k - 1) * (U64_LIMIT / n) + U64_LIMIT / n;
    }
  }

  /** Fewer than half of all words are ever rejected. */
  lemma {:induction false} MostWordsAreAccepted(n: u64)
    requires n > 0
    ensures var accepted := set x: int | 0 <= x < U64_LIMIT && Accepts(n, x);
            && |accepted| == n * (U64_LIMIT / n)
            && 2 * |accepted| > U64_LIMIT
  {
    var accepted := set x: int | 0 <= x < U64_LIMIT && Accepts(n, x);
    AcceptedBelowSize(n, n);
    forall x: u64 ensures Slot(n, x) < n { SlotBelow(n, x); }
    assert accepted == AcceptedBelow(n, n);
    var q, t := U64_LIMIT / n, U64_LIMIT % n;
    assert q >= 1 by { DivAtLeastOne(U64_LIMIT, n); }
    MulMono(1, q, n);
  }

  lemma {:induction false} DivAtLeastOne(m: int, n: int)
    requires 0 < n <= m
    ensures m / n >= 1
  {
  }

  // ---- exclusive or on naturals ------------------------------------------------

  function Xor(a: nat, b: nat): nat
    decreases a + b
  {
    if a == 0 && b == 0 then 0
    else (if a % 2 == b % 2 then 0 else 1) + 2 * Xor(a / 2, b / 2)
  }

  lemma {:induction false} XorComm(a: nat, b: nat)
    ensures Xor(a, b) == Xor(b, a)
    decreases a + b
  {
    if a + b > 0 { XorComm(a / 2, b / 2); }
  }

  lemma {:induction false} XorAssoc(a: nat, b: nat, c: nat)
    ensures Xor(Xor(a, b), c) == Xor(a, Xor(b, c))
    decreases a + b + c
  {
    if a + b + c > 0 {
      XorAssoc(a / 2, b / 2, c / 2);
      XorHalf(a, b);
      XorHalf(b, c);
    }
  }

  lemma {:induction false} XorHalf(a: nat, b: nat)
    ensures Xor(a, b) / 2 == Xor(a / 2, b / 2)
    ensures Xor(a, b) % 2 == if a % 2 == b % 2 then 0 else 1
  {
  }

  lemma {:induction false} XorZero(a: nat)
    ensures Xor(a, 0) == a
  {
    if a > 0 { XorZero(a / 2); }
  }

  lemma {:induction false} XorSelf(a: nat)
    ensures Xor(a, a) == 0
  {
    if a > 0 { XorSelf(a / 2); }
  }

  function Pow2(k: nat): nat {
    if k == 0 then 1 else 2 * Pow2(k - 1)
  }

  lemma {:induction false} Pow2Positive(k: nat)
    ensures Pow2(k) >= 1
  {
    if k > 0 { Pow2Positive(k - 1); }
  }

  /** `z >> k`. */
  function Shr(z: nat, k: nat): nat {
    if k == 0 then z else Shr(z / 2, k - 1)
  }

  lemma {:induction false} ShrShr(z: nat, j: nat, k: nat)
    ensures Shr(Shr(z, j), k) == Shr(z, j + k)
    decreases j
  {
    if j > 0 { ShrShr(z / 2, j - 1, k); }
  }

  lemma {:induction false} ShrXor(a: nat, b: nat, k: nat)
    ensures Shr(Xor(a, b), k) == Xor(Shr(a, k), Shr(b, k))
    decreases k
  {
    if k > 0 {
      XorHalf(a, b);
      ShrXor(a / 2, b / 2, k - 1);
    }
  }

  lemma {:induction false} ShrVanishes(z: nat, k: nat)
    requires z < Pow2(k)
    ensures Shr(z, k) == 0
    decreases k
  {
    if k > 0 { ShrVanishes(z / 2, k - 1); }
  }

  lemma {:induction false} XorBelow(a: nat, b: nat, k: nat)
    requires a < Pow2(k) && b < Pow2(k)
    ensures Xor(a, b) < Pow2(k)
    decreases k
  {
    if k > 0 { XorBelow(a / 2, b / 2, k - 1); }
  }

  lemma {:induction false} ShrBelow(z: nat, k: nat)
    ensures Shr(z, k) <= z
    decreases k
  {
    if k > 0 { ShrBelow(z / 2, k - 1); }
  }

  lemma {:induction false} Pow2Of64()
    ensures Pow2(64) == U64_LIMIT
  {
    assert Pow2(4) == 16;
    Pow2Add(4, 4);
    Pow2Add(8, 8);
    Pow2Add(16, 16);
    Pow2Add(32, 32);
  }

  lemma {:induction false} Pow2Add(j: nat, k: nat)
    ensures Pow2(j + k) == Pow2(j) * Pow2(k)
  {
    if j > 0 { Pow2Add(j - 1, k); }
  }

  lemma {:induction false} Pow2Mono(j: nat, k: nat)
    requires j <= k
    ensures Pow2(j) <= Pow2(k)
  {
    if j < k { Pow2Mono(j, k - 1); Pow2Positive(k - 1); }
  }

  // ---- the output function ---------------------------------------------------

  const GAMMA: u64 := 0x9E37_79B9_7F4A_7C15
  const GAMMA_INVERSE: u64 := 0xF1DE_83E1_9937_733D
  const MIX1: u64 := 0xBF58_476D_1CE4_E5B9
  const MIX1_INVERSE: u64 := 0x96DE_1B17_3F11_9089
  const MIX2: u64 := 0x94D0_49BB_1331_11EB
  const MIX2_INVERSE: u64 := 0x3196_42B2_D24D_8EC3

  /** `z ^ (z >> k)`. */
  function XorShift(z: u64, k: nat): u64 {
    Pow2Of64();
    ShrBelow(z, k);
    XorBelow(z, Shr(z, k), 64);
    Xor(z, Shr(z, k))
  }

  function WrappingMul(a: u64, b: u64): u64 {
    (a * b) % U64_LIMIT
  }

  function WrappingAdd(a: u64, b: u64): u64 {
    (a + b) % U64_LIMIT
  }

  /** One round of the output function. */
  function Round(z: u64, k: nat, c: u64): u64 {
    WrappingMul(XorShift(z, k), c)
  }

  /** The output function with its shifts and multipliers named. */
  function MixWith(z: u64, j: nat, c: u64, k: nat, d: u64, l: nat): u64 {
    XorShift(Round(Round(z, j, c), k, d), l)
  }

  function Mix(state: u64): u64 {
    MixWith(state, 30, MIX1, 27, MIX2, 31)
  }

  /** The inverse of `XorShift(_, k)` for shifts of at least a third of a word. */
  function UndoXorShift(y: u64, k: nat): u64 {
    Pow2Of64();
    ShrBelow(y, k);
    ShrBelow(y, 2 * k);
    XorBelow(y, Shr(y, k), 64);
    XorBelow(Xor(y, Shr(y, k)), Shr(y, 2 * k), 64);
    Xor(Xor(y, Shr(y, k)), Shr(y, 2 * k))
  }

  function UndoRound(y: u64, k: nat, d: u64): u64 {
    UndoXorShift(WrappingMul(y, d), k)
  }

  function UnmixWith(y: u64, j: nat, c: u64, k: nat, d: u64, l: nat): u64 {
    UndoRound(UndoRound(UndoXorShift(y, l), k, d), j, c)
  }

  function Unmix(y: u64): u64 {
    UnmixWith(y, 30, MIX1_INVERSE, 27, MIX2_INVERSE, 31)
  }

  lemma {:induction false} ShrThrice(z: u64, k: nat)
    requires 3 * k >= 64
    ensures Shr(Shr(z, k), k) == Shr(z, 2 * k)
    ensures Shr(Shr(z, 2 * k), k) == 0 && Shr(Shr(z, k), 2 * k) == 0
  {
    ShrShr(z, k, k);
    ShrShr(z, 2 * k, k);
    ShrShr(z, k, 2 * k);
    Pow2Of64();
    Pow2Mono(64, 3 * k);
    ShrVanishes(z, 3 * k);
  }

  /** a ^ b ^ b ^ c ^ c == a, as the two undo lemmas need it. */
  lemma {:induction false} XorTelescopes(a: nat, b: nat, c: nat)
    ensures Xor(Xor(Xor(a, b), Xor(b, c)), c) == a
  {
    XorAssoc(a, b, Xor(b, c));
    XorAssoc(b, b, c);
    XorSelf(b);
    XorComm(0, c);
    XorZero(c);
    XorAssoc(a, c, c);
    XorSelf(c);
    XorZero(a);
  }

  lemma {:induction false} XorShiftUndone(z: u64, k: nat)
    requires 3 * k >= 64
    ensures UndoXorShift(XorShift(z, k), k) == z
  {
    var a, b := Shr(z, k), Shr(z, 2 * k);
    ShrThrice(z, k);
    ShrXor(z, a, k);
    ShrXor(z, a, 2 * k);
    XorZero(b);
    XorTelescopes(z, a, b);
  }

  lemma {:induction false} XorShiftRedone(y: u64, k: nat)
    requires 3 * k >= 64
    ensures XorShift(UndoXorShift(y, k), k) == y
  {
    var a, b := Shr(y, k), Shr(y, 2 * k);
    ShrThrice(y, k);
    ShrXor(Xor(y, a), b, k);
    ShrXor(y, a, k);
    XorZero(Xor(a, b));
    // (y ^ a ^ b) ^ (a ^ b) == y
    XorAssoc(y, a, b);
    XorAssoc(y, Xor(a, b), Xor(a, b));
    XorSelf(Xor(a, b));
    XorZero(y);
  }

  lemma {:induction false} MulUndone(z: u64, c: u64, d: u64)
    requires (c * d) % U64_LIMIT == 1
    ensures WrappingMul(WrappingMul(z, c), d) == z
  {
    var m := (z * c) / U64_LIMIT;
    var e := (c * d) / U64_LIMIT;
    var w := WrappingMul(z, c);
    assert c * d == e * U64_LIMIT + 1;
    assert z * c == m * U64_LIMIT + w;
    calc {
      w * d;
      (z * c - m * U64_LIMIT) * d;
      z * c * d - m * U64_LIMIT * d;
      { assert z * c * d == z * (c * d); }
      z * (e * U64_LIMIT + 1) - m * U64_LIMIT * d;
      { assert z * (e * U64_LIMIT) == (z * e) * U64_LIMIT; assert m * U64_LIMIT * d == (m * d) * U64_LIMIT; }
      (z * e - m * d) * U64_LIMIT + z;
    }
    ModOf(z * e - m * d, U64_LIMIT, z);
  }

  lemma {:induction false} RoundInverts(z: u64, k: nat, c: u64, d: u64)
    requires 3 * k >= 64 && (c * d) % U64_LIMIT == 1
    ensures UndoRound(Round(z, k, c), k, d) == z
    ensures Round(UndoRound(z, k, d), k, c) == z
  {
    MulUndone(XorShift(z, k), c, d);
    XorShiftUndone(z, k);
    XorShiftRedone(WrappingMul(z, d), k);
    MulUndone(z, d, c);
  }

  lemma {:induction false} MixWithInverts(z: u64, j: nat, c: u64, c': u64, k: nat, d: u64, d': u64, l: nat)
    requires 3 * j >= 64 && 3 * k >= 64 && 3 * l >= 64
    requires (c * c') % U64_LIMIT == 1 && (d * d') % U64_LIMIT == 1
    ensures UnmixWith(MixWith(z, j, c, k, d, l), j, c', k, d', l) == z
    ensures MixWith(UnmixWith(z, j, c', k, d', l), j, c, k, d, l) == z
  {
    XorShiftUndone(Round(Round(z, j, c), k, d), l);
    RoundInverts(Round(z, j, c), k, d, d');
    RoundInverts(z, j, c, c');

    var y := UndoXorShift(z, l);
    RoundInverts(UndoRound(y, k, d'), j, c, c');
    RoundInverts(y, k, d, d');
    XorShiftRedone(z, l);
  }

  /** SplitMix64's output function is a bijection on 64-bit words. */
  lemma {:induction false} MixIsBijective(z: u64)
    ensures Unmix(Mix(z)) == z
    ensures Mix(Unmix(z)) == z
  {
    MixWithInverts(z, 30, MIX1, MIX1_INVERSE, 27, MIX2, MIX2_INVERSE, 31);
  }

  // ---- the state walk ----------------------------------------------------------

  class SplitMix64 {
    var state: u64

    constructor Seeded(seed: u64)
      ensures state == seed
    {
      state := seed;
    }

    method NextU64() returns (x: u64)
      modifies this
      ensures state == WrappingAdd(old(state), GAMMA) && x == Mix(state)
    {
      state := WrappingAdd(state, GAMMA);
      var z := state;
      z := WrappingMul(XorShift(z, 30), MIX1);
      z := WrappingMul(XorShift(z, 27), MIX2);
      x := XorShift(z, 31);
    }
  }

  /** The state after `k` draws, by stepping. */
  function StateAfter(seed: u64, k: nat): u64 {
    if k == 0 then seed else WrappingAdd(StateAfter(seed, k - 1), GAMMA)
  }

  lemma {:induction false} StateClosedForm(seed: u64, k: nat)
    ensures StateAfter(seed, k) == (seed + k * GAMMA) % U64_LIMIT
  {
    if k > 0 {
      StateClosedForm(seed, k - 1);
      var a := seed + (k - 1) * GAMMA;
      AddModulo(a, GAMMA);
      assert a + GAMMA == seed + k * GAMMA;
    }
  }

  lemma {:induction false} AddModulo(a: int, b: int)
    ensures (a % U64_LIMIT + b) % U64_LIMIT == (a + b) % U64_LIMIT
  {
    var q := a / U64_LIMIT;
    var c := a % U64_LIMIT + b;
    assert a + b == (q + c / U64_LIMIT) * U64_LIMIT + c % U64_LIMIT;
    ModOf(q + c / U64_LIMIT, U64_LIMIT, c % U64_LIMIT);
  }

  /** An odd increment cancels modulo 2^64. */
  lemma {:induction false} GammaCancels(k: int)
    requires (k * GAMMA) % U64_LIMIT == 0
    ensures k % U64_LIMIT == 0
  {
    var m := (k * GAMMA) / U64_LIMIT;
    var e := (GAMMA * GAMMA_INVERSE) / U64_LIMIT;
    assert GAMMA * GAMMA_INVERSE == e * U64_LIMIT + 1;
    assert k * (e * U64_LIMIT + 1) == (k * GAMMA) * GAMMA_INVERSE == m * U64_LIMIT * GAMMA_INVERSE;
    assert k == (m * GAMMA_INVERSE - k * e) * U64_LIMIT + 0;
    ModOf(m * GAMMA_INVERSE - k * e, U64_LIMIT, 0);
  }

  lemma {:induction false} StatesAreDistinct(seed: u64, i: nat, j: nat)
    requires i < j < i + U64_LIMIT
    ensures StateAfter(seed, i) != StateAfter(seed, j)
  {
    if StateAfter(seed, i) == StateAfter(seed, j) {
      StateClosedForm(seed, i);
      StateClosedForm(seed, j);
      SameRemainder(seed + i * GAMMA, seed + j * GAMMA);
      assert (seed + j * GAMMA) - (seed + i * GAMMA) == (j - i) * GAMMA;
      GammaCancels(j - i);
    }
  }

  lemma {:induction false} SameRemainder(a: int, b: int)
    requires a % U64_LIMIT == b % U64_LIMIT
    ensures (b - a) % U64_LIMIT == 0
  {
    var q := b / U64_LIMIT - a / U64_LIMIT;
    assert b - a == q * U64_LIMIT + 0;
    ModOf(q, U64_LIMIT, 0);
  }

  /** Any 2^64 consecutive draws from any seed are pairwise distinct. */
  lemma {:induction false} DrawsAreDistinct(seed: u64, i: nat, j: nat)
    requires i < j < i + U64_LIMIT
    ensures Mix(StateAfter(seed, i)) != Mix(StateAfter(seed, j))
  {
    StatesAreDistinct(seed, i, j);
    MixIsBijective(StateAfter(seed, i));
    MixIsBijective(StateAfter(seed, j));
  }

  /** Full period: every word is the state after some number of draws below 2^64. */
  lemma {:induction false} EveryStateIsReached(seed: u64, s: u64) returns (k: nat)
    ensures k < U64_LIMIT && StateAfter(seed, k) == s
  {
    var d := s - seed;
    k := (d * GAMMA_INVERSE) % U64_LIMIT;
    var m := (d * GAMMA_INVERSE) / U64_LIMIT;
    var e := (GAMMA * GAMMA_INVERSE) / U64_LIMIT;
    StateClosedForm(seed, k);
    calc {
      seed + k * GAMMA;
      { assert k == d * GAMMA_INVERSE - m * U64_LIMIT; }
      seed + (d * GAMMA_INVERSE - m * U64_LIMIT) * GAMMA;
      { assert d * GAMMA_INVERSE * GAMMA == d * (GAMMA * GAMMA_INVERSE); }
      seed + d * (e * U64_LIMIT + 1) - m * U64_LIMIT * GAMMA;
      { assert d * (e * U64_LIMIT) == (d * e) * U64_LIMIT; assert m * U64_LIMIT * GAMMA == (m * GAMMA) * U64_LIMIT; }
      (d * e - m * GAMMA) * U64_LIMIT + s;
    }
    ModOf(d * e - m * GAMMA, U64_LIMIT, s);
  }
}
