/** The online routing model's arithmetic: capped Hebbian updates and the
    signature penalty. */
module Learning {
  import opened Base
  import opened RealProducts

  datatype LearningConfig = LearningConfig(
    learningRate: real,
    explorationTemperature: real,
    minTemperature: real,
    receiptWindowSecs: u64,
    minWeight: real,
    maxWeight: real,
    maxTotalOutboundWeight: real,
    influenceCapPerPeer: real,
    influenceWindowSecs: u64,
    signatureFailurePenalty: real,
    signatureFailurePruneThreshold: nat,
    signatureFailureCooldownSecs: u64)
  {
    /** `LearningConfig::validate` returns `Ok`. */
    predicate IsValid() {
      && 0.0 < learningRate <= 1.0
      && minTemperature > 0.0
      && 0.0 < minWeight < maxWeight
      && maxTotalOutboundWeight > maxWeight
      && influenceCapPerPeer > 0.0
      && 0.0 < signatureFailurePenalty <= 1.0
    }

    function EffectiveTemperature(): real {
      RMax(explorationTemperature, minTemperature)
    }

    function InfluenceWindow(): u64 {
      SatMul(influenceWindowSecs, NANOS_PER_SEC)
    }

    function InfluenceWindowStart(now: u64): u64 {
      SatSub(now, InfluenceWindow())
    }

    function ReceiptDeadline(now: u64): u64 {
      SatSub(now, SatMul(receiptWindowSecs, NANOS_PER_SEC))
    }

    function Cooldown(): u64 {
      SatMul(signatureFailureCooldownSecs, NANOS_PER_SEC)
    }

    predicate InRange(w: real) {
      minWeight <= w <= maxWeight
    }
  }

  // ---- the Hebbian update ------------------------------------------------------------

  datatype WeightUpdate = WeightUpdate(before: real, after: real, appliedDelta: real, capped: bool)

  function RawDelta(outcome: Outcome, signalWeight: real, c: LearningConfig): real {
    c.learningRate * outcome.Reward() * Clamp(signalWeight, 0.0, 1.0)
  }

  function ApplyReward(weight: real, outcome: Outcome, signalWeight: real, influenceUsed: real,
          c: LearningConfig): WeightUpdate {
    var raw := RawDelta(outcome, signalWeight, c);
    var headroom := c.influenceCapPerPeer - influenceUsed;
    var (delta, capped) :=
      if raw > 0.0 && influenceUsed >= c.influenceCapPerPeer then (0.0, true)
      else if raw > 0.0 then (if raw > headroom then (headroom, true) else (raw, false))
      else (raw, false);
    var after := Clamp(weight + delta, c.minWeight, c.maxWeight);
    WeightUpdate(weight, after, after - weight, capped)
  }

  lemma {:induction false} RawDeltaSign(outcome: Outcome, signalWeight: real, c: LearningConfig)
    requires c.IsValid()
    ensures RawDelta(outcome, signalWeight, c) > 0.0 ==> outcome == Delivered
    ensures outcome != Delivered ==> RawDelta(outcome, signalWeight, c) <= 0.0
    ensures outcome == Delivered ==> RawDelta(outcome, signalWeight, c) >= 0.0
  {
    var s := Clamp(signalWeight, 0.0, 1.0);
    var r := outcome.Reward();
    var rate := c.learningRate;
    if r >= 0.0 {
      assert rate * r >= 0.0;
      assert rate * r * s >= 0.0;
    }
    if r <= 0.0 {
      assert rate * r <= 0.0;
      assert rate * r * s <= 0.0;
    }
  }

  /** One update on an in-range weight: it stays in range; only a delivery raises it,
      by no more than what is left of the peer's budget; a penalty is applied in full
      whatever the budget, down to the floor. */
  lemma {:induction false} RewardIsCapped(weight: real, outcome: Outcome, signalWeight: real, used: real,
          c: LearningConfig)
    requires c.IsValid() && c.InRange(weight)
    ensures var u := ApplyReward(weight, outcome, signalWeight, used, c);
            && c.InRange(u.after)
            && u.appliedDelta == u.after - weight
            && (u.appliedDelta > 0.0 ==> outcome == Delivered && u.appliedDelta <= c.influenceCapPerPeer - used)
            && (outcome != Delivered ==> u.after == RMax(weight + RawDelta(outcome, signalWeight, c), c.minWeight))
            && (u.capped <==> RawDelta(outcome, signalWeight, c) > RMax(0.0, c.influenceCapPerPeer - used))
  {
    RawDeltaSign(outcome, signalWeight, c);
  }

  /** The learning rate times the signal's weight, taken between 0 and 1. */
  function Stride(signalWeight: real, c: LearningConfig): real {
    c.learningRate * RMax(0.0, RMin(signalWeight, 1.0))
  }

  /** What one outcome leaves of a weight, outcome by outcome. `left` is what remains of the
      peer's budget. */
  function Lesson(weight: real, outcome: Outcome, signalWeight: real, left: real, c: LearningConfig): real {
    var step := Stride(signalWeight, c);
    match outcome
    case Delivered => RMin(weight + RMin(step, RMax(left, 0.0)), c.maxWeight)
    case TimedOut => RMax(weight - step / 4.0, c.minWeight)
    case Rejected => RMax(weight - step / 2.0, c.minWeight)
    case TransportFailure => RMax(weight - step / 2.0, c.minWeight)
    case SignatureFailure => RMax(weight - step, c.minWeight)
    case Pending => weight
  }

  lemma {:induction false} DeltaOf(outcome: Outcome, signalWeight: real, c: LearningConfig)
    requires c.IsValid()
    ensures Stride(signalWeight, c) >= 0.0
    ensures RawDelta(outcome, signalWeight, c) == outcome.Reward() * Stride(signalWeight, c)
  {
    var share := RMax(0.0, RMin(signalWeight, 1.0));
    assert Clamp(signalWeight, 0.0, 1.0) == share;
    assert c.learningRate * share >= 0.0;
    assert c.learningRate * outcome.Reward() * share == outcome.Reward() * (c.learningRate * share);
  }

  /** Every outcome moves an in-range weight by exactly what it teaches: a delivery by the
      learning rate times the signal's weight, or what is left of the budget if that is less,
      and every failure by its own share of it, whatever the budget. */
  lemma {:induction false} RewardIsExact(weight: real, outcome: Outcome, signalWeight: real, used: real,
          c: LearningConfig)
    requires c.IsValid() && c.InRange(weight)
    ensures var u := ApplyReward(weight, outcome, signalWeight, used, c);
            && u.before == weight && u.appliedDelta == u.after - weight
            && u.after == Lesson(weight, outcome, signalWeight, c.influenceCapPerPeer - used, c)
            && (u.capped <==> outcome == Delivered && Stride(signalWeight, c) > RMax(c.influenceCapPerPeer - used, 0.0))
  {
    DeltaOf(outcome, signalWeight, c);
    var step := Stride(signalWeight, c);
    assert outcome.Reward() * step == match outcome
                                      case Delivered => step
                                      case TimedOut => -(step / 4.0)
                                      case Rejected => -(step / 2.0)
                                      case TransportFailure => -(step / 2.0)
                                      case SignatureFailure => -step
                                      case Pending => 0.0;
    hide RawDelta, Stride;
  }

  function ApplySignaturePenalty(weight: real, c: LearningConfig): real {
    RMax(weight * (1.0 - c.signatureFailurePenalty), c.minWeight)
  }

  /** A signature failure takes its share of the weight, down to the floor. */
  lemma {:induction false} PenaltyLowers(weight: real, c: LearningConfig)
    requires c.IsValid() && c.InRange(weight)
    ensures c.minWeight <= ApplySignaturePenalty(weight, c) <= weight
    ensures var lost := weight - ApplySignaturePenalty(weight, c);
            lost == RMin(c.signatureFailurePenalty * weight, weight - c.minWeight)
  {
    assert weight * (1.0 - c.signatureFailurePenalty) == weight - c.signatureFailurePenalty * weight;
    assert c.signatureFailurePenalty * weight >= 0.0;
  }

  // ---- decay ---------------------------------------------------------------------------

  const NANOS_PER_HOUR := 3_600_000_000_000.0

  function Halvings(elapsed: u64, halfLifeHours: real): real
    requires halfLifeHours > 0.0
  {
    elapsed as real / NANOS_PER_HOUR / halfLifeHours
  }

  /** A weight scaled down, no lower than the floor. */
  function Fade(weight: real, factor: real, floor: real): real {
    RMax(Times(weight, factor), floor)
  }

  /** A weight after decay by half-life since its last activity, down to the floor. */
  function Decayed(weight: real, lastActive: u64, now: u64, halfLifeHours: real, exp2: real -> real,
          c: LearningConfig): real
    requires halfLifeHours > 0.0
  {
    if now <= lastActive then weight
    else Fade(weight, exp2(-Halvings(now - lastActive, halfLifeHours)), c.minWeight)
  }

  predicate IsFactor(x: real) {
    0.0 < x <= 1.0
  }

  predicate ExponentsAdd(exp2: real -> real, x: real, y: real) {
    exp2(x + y) == Times(exp2(x), exp2(y))
  }

  predicate NegativeIsFactor(exp2: real -> real, x: real) {
    x <= 0.0 ==> IsFactor(exp2(x))
  }

  /** What is used of powers of two: exponents add, and a negative one is a factor. */
  ghost predicate IsExp2(exp2: real -> real) {
    (forall x, y :: ExponentsAdd(exp2, x, y)) && (forall x :: NegativeIsFactor(exp2, x))
  }

  lemma {:induction false} HalvingsAdd(x: u64, y: u64, halfLifeHours: real)
    requires halfLifeHours > 0.0 && x + y <= U64_MAX
    ensures Halvings(x + y, halfLifeHours) == Halvings(x, halfLifeHours) + Halvings(y, halfLifeHours)
    ensures Halvings(x, halfLifeHours) >= 0.0
  {
    var p, q := x as real / NANOS_PER_HOUR, y as real / NANOS_PER_HOUR;
    assert (x + y) as real / NANOS_PER_HOUR == p + q;
    assert (p + q) / halfLifeHours == p / halfLifeHours + q / halfLifeHours;
  }

  lemma {:induction false} FactorLowers(x: real, f: real)
    requires x >= 0.0 && IsFactor(f)
    ensures 0.0 <= Times(x, f) <= x
  {
    TimesMono(f, 1.0, x);
    TimesNonNegative(x, f);
    TimesUnit(x);
  }

  /** Scaling with a floor, twice, is scaling once with that floor. */
  lemma {:induction false} FadeComposes(weight: real, f: real, g: real, floor: real)
    requires weight >= floor > 0.0 && IsFactor(f) && IsFactor(g)
    ensures Fade(Fade(weight, f, floor), g, floor) == Fade(weight, Times(f, g), floor)
  {
    assert g > 0.0;
    hide Times, IsFactor;
    TimesAssoc(weight, f, g);
    if Times(weight, f) < floor {
      TimesMono(Times(weight, f), floor, g);
      FactorLowers(floor, g);
    }
  }

  lemma {:induction false} FadeLowers(weight: real, f: real, floor: real)
    requires weight >= floor && weight >= 0.0 && IsFactor(f)
    ensures floor <= Fade(weight, f, floor) <= weight
  {
    FactorLowers(weight, f);
    hide Times;
  }

  /** The factors of two consecutive stretches of time multiply. */
  lemma {:induction false} FactorsMultiply(x: u64, y: u64, halfLifeHours: real, exp2: real -> real)
    requires halfLifeHours > 0.0 && x + y <= U64_MAX && IsExp2(exp2)
    ensures var f, g := exp2(-Halvings(x, halfLifeHours)), exp2(-Halvings(y, halfLifeHours));
            IsFactor(f) && IsFactor(g) && exp2(-Halvings(x + y, halfLifeHours)) == Times(f, g)
  {
    HalvingsAdd(x, y, halfLifeHours);
    HalvingsAdd(y, x, halfLifeHours);
    hide Halvings, IsFactor, Times;
    var a, b := -Halvings(x, halfLifeHours), -Halvings(y, halfLifeHours);
    assert ExponentsAdd(exp2, a, b) && NegativeIsFactor(exp2, a) && NegativeIsFactor(exp2, b);
    assert -Halvings(x + y, halfLifeHours) == a + b;
  }

  /** Decaying to one reading and from there to a later one is decaying straight to the
      later: decay may be applied lazily, whenever the weight is read. */
  lemma {:induction false} DecayComposes(weight: real, t0: u64, t1: u64, t2: u64, halfLifeHours: real,
          exp2: real -> real, c: LearningConfig)
    requires halfLifeHours > 0.0 && c.IsValid() && c.InRange(weight) && t0 <= t1 <= t2 && IsExp2(exp2)
    ensures Decayed(Decayed(weight, t0, t1, halfLifeHours, exp2, c), t1, t2, halfLifeHours, exp2, c) ==
              Decayed(weight, t0, t2, halfLifeHours, exp2, c)
    ensures c.minWeight <= Decayed(weight, t0, t2, halfLifeHours, exp2, c) <= weight
  {
    if t0 < t2 {
      FactorsMultiply(t1 - t0, t2 - t1, halfLifeHours, exp2);
      FactorsMultiply(t2 - t0, 0, halfLifeHours, exp2);
      assert t1 - t0 + (t2 - t1) == t2 - t0;
      hide Halvings, Fade, IsExp2, IsFactor, Times;
      if t0 < t1 < t2 {
        FadeComposes(weight, exp2(-Halvings(t1 - t0, halfLifeHours)), exp2(-Halvings(t2 - t1, halfLifeHours)), c.minWeight);
      }
      FadeLowers(weight, exp2(-Halvings(t2 - t0, halfLifeHours)), c.minWeight);
    }
  }

  function Halved(weight: real, times: nat): real {
    if times == 0 then weight else Halved(weight, times - 1) / 2.0
  }

  lemma {:induction false} ZeroPower(e: real)
    requires IsFactor(e) && e == Times(e, e)
    ensures e == 1.0
  {
    TimesUnit(e);
    TimesCancels(1.0, e, e);
  }

  lemma {:induction false} PowerHalves(weight: real, exp2: real -> real, k: nat)
    requires IsExp2(exp2) && exp2(-1.0) == 0.5
    ensures Times(weight, exp2(-(k as real))) == Halved(weight, k)
  {
    if k == 0 {
      var zero := 0.0;
      assert ExponentsAdd(exp2, zero, zero) && NegativeIsFactor(exp2, zero) && zero + zero == zero && -(0 as real) == zero;
      ZeroPower(exp2(zero));
      TimesUnit(weight);
    } else {
      PowerHalves(weight, exp2, k - 1);
      assert -(k as real) == -((k - 1) as real) + -1.0;
      assert ExponentsAdd(exp2, -((k - 1) as real), -1.0);
      TimesAssoc(weight, exp2(-((k - 1) as real)), 0.5);
    }
  }

  /** Over k half-lives a weight is halved k times, down to the floor. */
  lemma {:induction false} HalfLivesHalve(weight: real, t0: u64, t1: u64, halfLifeHours: real, exp2: real -> real,
          c: LearningConfig, k: nat)
    requires halfLifeHours > 0.0 && c.IsValid() && c.InRange(weight) && IsExp2(exp2) && exp2(-1.0) == 0.5
    requires t0 <= t1 && (t1 - t0) as real == k as real * (halfLifeHours * 3_600_000_000_000.0)
    ensures Decayed(weight, t0, t1, halfLifeHours, exp2, c) == RMax(Halved(weight, k), c.minWeight)
  {
    if t0 == t1 {
      assert k == 0;
    } else {
      var hours := (t1 - t0) as real / NANOS_PER_HOUR;
      assert hours == k as real * halfLifeHours;
      assert Halvings(t1 - t0, halfLifeHours) == k as real;
      PowerHalves(weight, exp2, k);
    }
  }
}
