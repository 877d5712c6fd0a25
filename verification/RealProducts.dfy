/** Products and quotients of reals behind names, with the laws the bounds use.
    Proofs elsewhere hide the definitions and reason linearly over the names. */
module RealProducts {

  function Times(a: real, b: real): real {
    a * b
  }

  function Quot(a: real, b: real): real
    requires b != 0.0
  {
    a / b
  }

  lemma {:induction false} TimesMono(a: real, b: real, c: real)
    requires a <= b && c >= 0.0
    ensures Times(a, c) <= Times(b, c) && Times(c, a) <= Times(c, b)
  {
  }

  lemma {:induction false} TimesAdd(a: real, b: real, c: real)
    ensures Times(a + b, c) == Times(a, c) + Times(b, c)
    ensures Times(c, a + b) == Times(c, a) + Times(c, b)
  {
  }

  lemma {:induction false} TimesUnit(a: real)
    ensures Times(1.0, a) == a == Times(a, 1.0) && Times(0.0, a) == 0.0 == Times(a, 0.0)
  {
  }

  lemma {:induction false} TimesNonNegative(a: real, b: real)
    requires a >= 0.0 && b >= 0.0
    ensures Times(a, b) >= 0.0
  {
  }

  lemma {:induction false} TimesAssoc(a: real, b: real, c: real)
    ensures Times(a, Times(b, c)) == Times(Times(a, b), c)
  {
  }

  lemma {:induction false} QuotTimes(a: real, b: real)
    requires b != 0.0
    ensures Times(Quot(a, b), b) == a == Times(b, Quot(a, b))
  {
  }

  lemma {:induction false} TimesSign(a: real, b: real)
    requires b > 0.0
    ensures Times(a, b) < 0.0 <==> a < 0.0
  {
  }

  lemma {:induction false} TimesCancels(x: real, y: real, b: real)
    requires b > 0.0
    ensures Times(x, b) <= Times(y, b) <==> x <= y
  {
    TimesAdd(y - x, x, b);
    TimesSign(y - x, b);
  }

  lemma {:induction false} QuotRange(a: real, b: real)
    requires a >= 0.0 && b > 0.0
    ensures Quot(a, b) >= 0.0 && (a <= b ==> Quot(a, b) <= 1.0) && (a < b ==> Quot(a, b) < 1.0)
  {
    QuotTimes(a, b);
    TimesUnit(b);
    TimesCancels(0.0, Quot(a, b), b);
    TimesCancels(Quot(a, b), 1.0, b);
    TimesCancels(1.0, Quot(a, b), b);
  }

  lemma {:induction false} QuotSum(a: real, b: real)
    requires b > 0.0
    ensures Quot(a, b) + Quot(b - a, b) == 1.0
  {
    var f, g := Quot(a, b), Quot(b - a, b);
    QuotTimes(a, b);
    QuotTimes(b - a, b);
    TimesAdd(f, g, b);
    TimesUnit(b);
    TimesCancels(f + g, 1.0, b);
    TimesCancels(1.0, f + g, b);
  }

  lemma {:induction false} QuotMono(e: real, small: real, large: real)
    requires e >= 0.0 && 0.0 < small <= large
    ensures Quot(e, large) <= Quot(e, small)
  {
    QuotTimes(e, small);
    QuotTimes(e, large);
    QuotRange(e, small);
    TimesMono(small, large, Quot(e, small));
    TimesCancels(Quot(e, large), Quot(e, small), large);
  }

  lemma {:induction false} TimesQuotSwap(a: real, e: real, b: real)
    requires b > 0.0
    ensures Times(a, Quot(e, b)) == Times(Quot(a, b), e)
  {
    var x, y := Quot(e, b), Quot(a, b);
    QuotTimes(e, b);
    QuotTimes(a, b);
    TimesAssoc(y, b, x);
  }
}
