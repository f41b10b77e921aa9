/**
 * What the spin bookkeeping guarantees over whole runs of host callbacks,
 * and how collisions share out the loss of spin.
 */
module SpinProperties {
  import opened Mathf
  import opened Spin

  /** The host never calls `AddSpin` in `es`. */
  predicate NoBoosts(es: seq<Event>) {
    forall i :: 0 <= i < |es| ==> !es[i].Boost?
  }

  /**
   * The host keeps to what it promises: physics steps have non-negative
   * length and every collision draw comes from `Random.Range(-range, range)`.
   */
  predicate HostKeepsRanges(t: Tuning, es: seq<Event>) {
    forall i :: 0 <= i < |es| ==>
      (es[i].Tick? ==> 0.0 <= es[i].dt) &&
      (es[i].Contact? ==> InDrawRange(es[i].draw, t.spinLossRandomRange))
  }

  /**
   * Tunings under which neither decay nor a hit can add spin: the decay and
   * the threshold are non-negative, the random variance never exceeds the
   * base loss, and the advantage multiplier is non-negative.  The constants
   * the script declares are such a tuning.
   */
  predicate Dissipative(t: Tuning) {
    0.0 <= t.naturalSpinDecay && 0.0 <= t.minSpinSpeed && HitsOnlyCost(t)
  }

  /**
   * The part of `Dissipative` a collision reads: a non-negative advantage
   * multiplier and a random variance no larger than the base loss.
   */
  predicate HitsOnlyCost(t: Tuning) {
    0.0 <= t.spinAdvantageMultiplier && -t.baseSpinLossOnHit <= t.spinLossRandomRange <= t.baseSpinLossOnHit
  }

  lemma DefaultTuningIsDissipative()
    ensures Dissipative(DefaultTuning)
  {
  }

  // ---------------------------------------------------------------------------
  // Knockout is one-way

  /** Once knocked out, a top stays knocked out, and its drag stays raised, whatever the host calls. */
  lemma {:induction false} KnockoutIsPermanent(s: SpinState, t: Tuning, es: seq<Event>)
    requires s.knockedOut && Runnable(s, t, es)
    ensures Run(s, t, es).knockedOut
    ensures Run(s, t, es).angularDrag == s.angularDrag
    decreases |es|
  {
    if es != [] {
      KnockoutIsPermanent(Apply(s, t, es[0]), t, es[1..]);
    }
  }

  /** A knocked-out top is inert: only `AddSpin` can still change its stored spin. */
  lemma {:induction false} KnockedOutTopIsInert(s: SpinState, t: Tuning, es: seq<Event>)
    requires s.knockedOut && NoBoosts(es) && Runnable(s, t, es)
    ensures Run(s, t, es) == s
    decreases |es|
  {
    if es != [] {
      assert !es[0].Boost?;
      assert NoBoosts(es[1..]) by {
        forall i | 0 <= i < |es[1..]| ensures !es[1..][i].Boost? {
          assert es[1..][i] == es[i + 1];
        }
      }
      KnockedOutTopIsInert(Apply(s, t, es[0]), t, es[1..]);
    }
  }

  /** `AddSpin` does not revive a knocked-out top: the next physics step still does nothing. */
  lemma AddSpinDoesNotRevive(s: SpinState, t: Tuning, amount: real, dt: real)
    requires s.knockedOut
    ensures AfterAddSpin(s, t, amount).knockedOut
    ensures AfterFixedUpdate(AfterAddSpin(s, t, amount), t, dt) == AfterAddSpin(s, t, amount)
  {
  }

  // ---------------------------------------------------------------------------
  // Spin only falls, unless the host calls AddSpin

  /** One callback other than `AddSpin` never raises the spin of a top that is knocked out or non-negative. */
  lemma StepNeverRaisesSpin(s: SpinState, t: Tuning, e: Event)
    requires Dissipative(t) && !e.Boost? && EventDefined(s, e)
    requires e.Tick? ==> 0.0 <= e.dt
    requires e.Contact? ==> InDrawRange(e.draw, t.spinLossRandomRange)
    requires s.knockedOut || 0.0 <= s.spin
    ensures Apply(s, t, e).spin <= s.spin
    ensures Apply(s, t, e).knockedOut || 0.0 <= Apply(s, t, e).spin
  {
    match e
    case Tick(dt) =>
      assert 0.0 <= t.naturalSpinDecay * dt;
    case Contact(c, draw) =>
      if c.Top? && !c.knockedOut && !s.knockedOut {
        assert 0.0 <= t.baseSpinLossOnHit + draw;
        assert 0.0 <= SpinLoss(t, SpinRatio(s.spin, c.spin), draw);
      }
  }

  /**
   * Without `AddSpin`, the stored spin never rises over any run of physics
   * steps and collisions, and an active top never holds negative spin.
   */
  lemma {:induction false} SpinNeverRisesWithoutAddSpin(s: SpinState, t: Tuning, es: seq<Event>)
    requires Dissipative(t) && NoBoosts(es) && HostKeepsRanges(t, es) && Runnable(s, t, es)
    requires s.knockedOut || 0.0 <= s.spin
    ensures Run(s, t, es).spin <= s.spin
    ensures Run(s, t, es).knockedOut || 0.0 <= Run(s, t, es).spin
    decreases |es|
  {
    if es != [] {
      var e, rest := es[0], es[1..];
      assert !e.Boost?;
      StepNeverRaisesSpin(s, t, e);
      assert NoBoosts(rest) && HostKeepsRanges(t, rest) by {
        forall i | 0 <= i < |rest|
          ensures !rest[i].Boost?
          ensures rest[i].Tick? ==> 0.0 <= rest[i].dt
          ensures rest[i].Contact? ==> InDrawRange(rest[i].draw, t.spinLossRandomRange)
        {
          assert rest[i] == es[i + 1];
        }
      }
      SpinNeverRisesWithoutAddSpin(Apply(s, t, e), t, rest);
    }
  }

  // ---------------------------------------------------------------------------
  // Decay over many physics steps

  lemma OneStepLess(x: real, step: real, n: nat, lo: real)
    requires 1 <= n
    ensures x - ((n - 1) as real) * step - step == x - (n as real) * step
    ensures 0.0 <= step ==> x - (n as real) * step <= x - ((n - 1) as real) * step
    ensures 0.0 <= step && lo < x - (n as real) * step ==> lo < x - ((n - 1) as real) * step
  {
    assert (n as real) * step == ((n - 1) as real) * step + step;
  }

  /** While it stays above the threshold, an active top loses exactly one decay per step. */
  lemma {:induction false} DecayWhileAboveThreshold(s: SpinState, t: Tuning, dt: real, n: nat)
    requires !s.knockedOut && 0.0 <= t.naturalSpinDecay * dt
    requires t.minSpinSpeed < s.spin - (n as real) * (t.naturalSpinDecay * dt)
    ensures Steps(s, t, dt, n) == s.(spin := s.spin - (n as real) * (t.naturalSpinDecay * dt))
  {
    if n > 0 {
      var step := t.naturalSpinDecay * dt;
      OneStepLess(s.spin, step, n, t.minSpinSpeed);
      DecayWhileAboveThreshold(s, t, dt, n - 1);
      var before := Steps(s, t, dt, n - 1);
      assert before.spin - step == s.spin - (n as real) * step;
      assert Steps(s, t, dt, n) == AfterFixedUpdate(before, t, dt);
    }
  }

  /**
   * The step that first brings the spin to the threshold or below is the one
   * that knocks the top out, and it leaves the spin exactly decayed.
   */
  lemma KnockedOutOnThresholdStep(s: SpinState, t: Tuning, dt: real, n: nat)
    requires !s.knockedOut && 0.0 <= t.naturalSpinDecay * dt && 1 <= n
    requires t.minSpinSpeed < s.spin - ((n - 1) as real) * (t.naturalSpinDecay * dt)
    requires s.spin - (n as real) * (t.naturalSpinDecay * dt) <= t.minSpinSpeed
    ensures !Steps(s, t, dt, n - 1).knockedOut
    ensures Steps(s, t, dt, n).knockedOut
    ensures Steps(s, t, dt, n).spin == s.spin - (n as real) * (t.naturalSpinDecay * dt)
    ensures Steps(s, t, dt, n).angularDrag == KnockedOutAngularDrag
  {
    var step := t.naturalSpinDecay * dt;
    OneStepLess(s.spin, step, n, t.minSpinSpeed);
    DecayWhileAboveThreshold(s, t, dt, n - 1);
  }

  /**
   * With the declared constants and a step of 1/60 s, a top started with its
   * impulse of 10000 is still active after 1,198,799 steps and is knocked out,
   * at exactly the threshold of 10, by step 1,198,800.
   */
  lemma DefaultTopKnockoutStep(rigidbodyAngularDrag: real)
    ensures !Steps(AfterStart(Created(rigidbodyAngularDrag), DefaultTuning), DefaultTuning, 1.0 / 60.0, 1198799).knockedOut
    ensures Steps(AfterStart(Created(rigidbodyAngularDrag), DefaultTuning), DefaultTuning, 1.0 / 60.0, 1198800).knockedOut
    ensures Steps(AfterStart(Created(rigidbodyAngularDrag), DefaultTuning), DefaultTuning, 1.0 / 60.0, 1198800).spin == 10.0
  {
    var s := AfterStart(Created(rigidbodyAngularDrag), DefaultTuning);
    assert DefaultTuning.naturalSpinDecay * (1.0 / 60.0) == 1.0 / 120.0;
    KnockedOutOnThresholdStep(s, DefaultTuning, 1.0 / 60.0, 1198800);
  }

  // ---------------------------------------------------------------------------
  // AddSpin

  /**
   * Right after `Start` the stored spin (the impulse, 10000) is above the
   * maximum (3000), so with the declared constants any `AddSpin` lowers it.
   */
  lemma AddSpinRightAfterStartLowersSpin(rigidbodyAngularDrag: real, amount: real)
    ensures AfterAddSpin(AfterStart(Created(rigidbodyAngularDrag), DefaultTuning), DefaultTuning, amount).spin
      < AfterStart(Created(rigidbodyAngularDrag), DefaultTuning).spin
  {
  }

  // ---------------------------------------------------------------------------
  // How a collision shares out the loss

  /** Seen from the two sides, the spin ratios add up to one. */
  lemma RatiosAreComplementary(a: real, b: real)
    requires a + b != 0.0
    ensures SpinRatio(a, b) + SpinRatio(b, a) == 1.0
  {
    SharesAddUp(a, b, SpinRatio(a, b), SpinRatio(b, a));
  }

  /** The top with more spin has the larger share; equal spins share evenly. */
  lemma StrongerTopHasLargerShare(a: real, b: real)
    requires 0.0 <= b <= a && 0.0 < a
    ensures SpinRatio(b, a) <= 0.5 <= SpinRatio(a, b)
    ensures b < a ==> SpinRatio(b, a) < 0.5 < SpinRatio(a, b)
    ensures b == a ==> SpinRatio(a, b) == SpinRatio(b, a) == 0.5
  {
    RatiosAreComplementary(a, b);
    ShareOfLarger(a, b, SpinRatio(a, b));
  }

  /** A larger share never increases the advantage factor (for a multiplier at most 1). */
  lemma AdvantageNonIncreasing(multiplier: real, ratio1: real, ratio2: real)
    requires multiplier <= 1.0 && ratio1 <= ratio2
    ensures SpinAdvantage(ratio2, multiplier) <= SpinAdvantage(ratio1, multiplier)
  {
    LerpNonIncreasing(1.0, multiplier, ratio1, ratio2);
  }

  /** For a multiplier below 1, a strictly larger share on [0, 1] gives a strictly smaller factor. */
  lemma AdvantageDecreasing(multiplier: real, ratio1: real, ratio2: real)
    requires multiplier < 1.0 && 0.0 <= ratio1 < ratio2 <= 1.0
    ensures SpinAdvantage(ratio2, multiplier) < SpinAdvantage(ratio1, multiplier)
  {
    LerpDecreasing(1.0, multiplier, ratio1, ratio2);
  }

  /**
   * In one contact, for one draw and a multiplier below 1, the top with more
   * spin loses strictly less than the other would.
   */
  lemma StrongerTopLosesLess(t: Tuning, a: real, b: real, draw: real)
    requires 0.0 <= b < a && t.spinAdvantageMultiplier < 1.0
    requires 0.0 < t.baseSpinLossOnHit + draw
    ensures SpinLoss(t, SpinRatio(a, b), draw) < SpinLoss(t, SpinRatio(b, a), draw)
  {
    var m := t.spinAdvantageMultiplier;
    var ra, rb := SpinRatio(a, b), SpinRatio(b, a);
    StrongerTopHasLargerShare(a, b);
    AdvantageDecreasing(m, rb, ra);
    SpinLossIsScaledAdvantage(t, ra, draw);
    SpinLossIsScaledAdvantage(t, rb, draw);
    ScaledInOrder(t.baseSpinLossOnHit + draw, SpinAdvantage(ra, m), SpinAdvantage(rb, m),
                  SpinLoss(t, ra, draw), SpinLoss(t, rb, draw));
  }

  lemma SpinLossIsScaledAdvantage(t: Tuning, ratio: real, draw: real)
    ensures SpinLoss(t, ratio, draw) == (t.baseSpinLossOnHit + draw) * SpinAdvantage(ratio, t.spinAdvantageMultiplier)
  {
  }

  // Arithmetic on plain numbers, kept apart from the model's functions so
  // that the solver meets each product on its own.

  lemma SharesAddUp(a: real, b: real, ra: real, rb: real)
    requires a + b != 0.0 && ra * (a + b) == a && rb * (b + a) == b
    ensures ra + rb == 1.0
  {
    var sum := a + b;
    assert rb * sum == b;
    assert (ra + rb) * sum == ra * sum + rb * sum;
    assert (ra + rb - 1.0) * sum == 0.0;
  }

  lemma ShareOfLarger(a: real, b: real, ra: real)
    requires 0.0 <= b <= a && 0.0 < a && ra * (a + b) == a
    ensures 0.5 <= ra
    ensures b < a ==> 0.5 < ra
    ensures b == a ==> ra == 0.5
  {
    var sum, excess := a + b, ra - 0.5;
    assert excess * sum == (a - b) / 2.0;
    if excess < 0.0 {
      PositiveProduct(-excess, sum);
    } else if excess == 0.0 {
      assert excess * sum == 0.0;
    } else {
      PositiveProduct(excess, sum);
    }
  }

  lemma PositiveProduct(x: real, y: real)
    requires 0.0 < x && 0.0 < y
    ensures 0.0 < x * y && (-x) * y < 0.0
  {
  }

  lemma ShareOfSmallerTotal(own: real, small: real, large: real, rs: real, rl: real)
    requires 0.0 <= own && 0.0 <= small <= large && 0.0 < own + small
    requires rs * (own + small) == own && rl * (own + large) == own
    ensures rl <= rs
  {
    var ss, sl := own + small, own + large;
    if rl < 0.0 {
      PositiveProduct(-rl, sl);
    } else {
      assert rl * sl == rl * ss + rl * (large - small);
      assert 0.0 <= rl * (large - small);
      if rs < rl {
        PositiveProduct(rl - rs, ss);
      }
    }
  }

  lemma ScaledNotAbove(k: real, x: real, y: real, kx: real, ky: real)
    requires 0.0 <= k && x <= y && kx == k * x && ky == k * y
    ensures kx <= ky
  {
    assert ky - kx == k * (y - x);
  }

  lemma ScaledInOrder(k: real, x: real, y: real, kx: real, ky: real)
    requires 0.0 < k && x < y && kx == k * x && ky == k * y
    ensures kx < ky
  {
    assert ky - kx == k * (y - x);
  }

  /**
   * Spins 100 and 50 with multiplier 0.5: ratios 2/3 and 1/3 give the factors
   * 2/3 and 5/6.
   */
  lemma AdvantageFor100Against50()
    ensures SpinAdvantage(SpinRatio(100.0, 50.0), 0.5) == 2.0 / 3.0
    ensures SpinAdvantage(SpinRatio(50.0, 100.0), 0.5) == 5.0 / 6.0
  {
  }

  /**
   * With a non-negative spin, a non-negative multiplier and a variance no
   * larger than the base loss, a collision never raises spin.
   */
  lemma CollisionNeverRaisesSpin(s: SpinState, t: Tuning, otherSpin: real, draw: real)
    requires HitsOnlyCost(t) && InDrawRange(draw, t.spinLossRandomRange)
    requires 0.0 <= s.spin && s.spin + otherSpin != 0.0
    ensures 0.0 <= AfterHit(s, t, otherSpin, draw).spin <= s.spin
  {
    assert 0.0 <= t.baseSpinLossOnHit + draw;
  }

  // ---------------------------------------------------------------------------
  // The two OnCollisionEnter calls of one contact

  /**
   * The second call sees the spin the first has already taken: with spins
   * 100 and 50, the declared constants and draws of 0, the first top keeps
   * 260/3 and the second 1380/41, not the 100/3 it would keep had it seen
   * the first top's spin before the hit.  The two ratios used, 2/3 and 15/41,
   * do not add up to one.
   */
  lemma ContactOrderMatters(d: real)
    ensures ContactDefined(SpinState(100.0, false, d), DefaultTuning, SpinState(50.0, false, d), 0.0)
    ensures ContactOutcome(SpinState(100.0, false, d), DefaultTuning, SpinState(50.0, false, d), DefaultTuning, 0.0, 0.0).0.spin
      == 260.0 / 3.0
    ensures ContactOutcome(SpinState(100.0, false, d), DefaultTuning, SpinState(50.0, false, d), DefaultTuning, 0.0, 0.0).1.spin
      == 1380.0 / 41.0
    ensures AfterHit(SpinState(50.0, false, d), DefaultTuning, 100.0, 0.0).spin == 100.0 / 3.0
    ensures SpinRatio(100.0, 50.0) + SpinRatio(50.0, 260.0 / 3.0) != 1.0
  {
    var a, b := SpinState(100.0, false, d), SpinState(50.0, false, d);
    assert SpinRatio(100.0, 50.0) == 2.0 / 3.0;
    var a' := AfterHit(a, DefaultTuning, 50.0, 0.0);
    assert a'.spin == 260.0 / 3.0;
    assert SpinRatio(50.0, 260.0 / 3.0) == 15.0 / 41.0;
  }

  /**
   * A collision can bring two active tops to zero spin at once (knockout is
   * only checked in `FixedUpdate`); a further contact between them before the
   * next physics step would divide zero by zero in the spin ratio.
   */
  lemma ContactCanEmptyTwoActiveTops(d: real)
    ensures ContactDefined(SpinState(15.0, false, d), DefaultTuning, SpinState(15.0, false, d), 10.0)
    ensures ContactOutcome(SpinState(15.0, false, d), DefaultTuning, SpinState(15.0, false, d), DefaultTuning, 10.0, 10.0)
      == (SpinState(0.0, false, d), SpinState(0.0, false, d))
    ensures !CollisionDefined(SpinState(0.0, false, d), Top(0.0, false))
  {
    var a := SpinState(15.0, false, d);
    assert SpinRatio(15.0, 15.0) == 0.5;
    assert AfterHit(a, DefaultTuning, 15.0, 10.0).spin == 0.0;
    assert SpinRatio(15.0, 0.0) == 1.0;
    assert AfterHit(a, DefaultTuning, 0.0, 10.0).spin == 0.0;
  }

  /**
   * For any contact between two tops with non-negative spins, when the
   * second top's multiplier is at most 1, going second never hurts it: the
   * first hit can only lower the first top's spin, which raises the second
   * top's share and so lowers its loss.  It keeps at least the spin it would
   * keep had it seen the first top's spin from before the hit.
   */
  lemma SecondTopLosesNoMore(a: SpinState, ta: Tuning, b: SpinState, tb: Tuning, drawA: real, drawB: real)
    requires ContactDefined(a, ta, b, drawA)
    requires HitsOnlyCost(ta) && InDrawRange(drawA, ta.spinLossRandomRange)
    requires 0.0 <= a.spin && 0.0 <= b.spin && a.spin + b.spin != 0.0
    requires tb.spinAdvantageMultiplier <= 1.0 && 0.0 <= tb.baseSpinLossOnHit + drawB
    ensures OnCollision(b, tb, Top(a.spin, a.knockedOut), drawB).spin
      <= ContactOutcome(a, ta, b, tb, drawA, drawB).1.spin
  {
    if !a.knockedOut && !b.knockedOut {
      var a' := AfterHit(a, ta, b.spin, drawA);
      CollisionNeverRaisesSpin(a, ta, b.spin, drawA);
      var rBefore, rAfter := SpinRatio(b.spin, a.spin), SpinRatio(b.spin, a'.spin);
      ShareOfSmallerTotal(b.spin, a'.spin, a.spin, rAfter, rBefore);
      LossNonIncreasing(tb, rBefore, rAfter, drawB);
      var lossAfter, lossBefore := SpinLoss(tb, rAfter, drawB), SpinLoss(tb, rBefore, drawB);
      HitKeepsMore(b.spin, lossAfter, lossBefore);
      assert AfterHit(b, tb, a'.spin, drawB).spin == Max(0.0, b.spin - lossAfter);
      assert AfterHit(b, tb, a.spin, drawB).spin == Max(0.0, b.spin - lossBefore);
      assert ContactOutcome(a, ta, b, tb, drawA, drawB).1 == AfterHit(b, tb, a'.spin, drawB);
      assert OnCollision(b, tb, Top(a.spin, a.knockedOut), drawB) == AfterHit(b, tb, a.spin, drawB);
    }
  }

  /** For a multiplier at most 1 and a non-negative base-plus-draw, a larger share never costs more. */
  lemma LossNonIncreasing(t: Tuning, ratio1: real, ratio2: real, draw: real)
    requires t.spinAdvantageMultiplier <= 1.0 && ratio1 <= ratio2
    requires 0.0 <= t.baseSpinLossOnHit + draw
    ensures SpinLoss(t, ratio2, draw) <= SpinLoss(t, ratio1, draw)
  {
    var m := t.spinAdvantageMultiplier;
    AdvantageNonIncreasing(m, ratio1, ratio2);
    SpinLossIsScaledAdvantage(t, ratio1, draw);
    SpinLossIsScaledAdvantage(t, ratio2, draw);
    ScaledNotAbove(t.baseSpinLossOnHit + draw, SpinAdvantage(ratio2, m), SpinAdvantage(ratio1, m),
                   SpinLoss(t, ratio2, draw), SpinLoss(t, ratio1, draw));
  }

  lemma HitKeepsMore(spin: real, smallLoss: real, largeLoss: real)
    requires smallLoss <= largeLoss
    ensures Max(0.0, spin - largeLoss) <= Max(0.0, spin - smallLoss)
  {
  }
}
