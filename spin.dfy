/**
 * Spin bookkeeping of the `spinningTop` behaviour: the stored spin speed of
 * one top, its one-way knocked-out flag and the angular drag its rigidbody is
 * given.  The pure functions state what one host callback does to the state;
 * the class `SpinningTop` performs the same updates field by field, as the
 * script does, and each of its methods is proved to agree with its function.
 */
module Spin {
  import opened Mathf

  /** The inspector-tunable constants of one top; the script never writes them. */
  datatype Tuning = Tuning(
    spinImpulse: real,
    maxSpinSpeed: real,
    minSpinSpeed: real,
    naturalSpinDecay: real,
    baseSpinLossOnHit: real,
    spinLossRandomRange: real,
    spinAdvantageMultiplier: real)

  /** The values the script declares for its fields. */
  const DefaultTuning := Tuning(10000.0, 3000.0, 10.0, 0.5, 20.0, 10.0, 0.5)

  /** Angular drag set by `Start`, and the higher one set on knockout. */
  const StartAngularDrag: real := 0.02
  const KnockedOutAngularDrag: real := 2.0

  /** The part of a top that its callbacks change. */
  datatype SpinState = SpinState(spin: real, knockedOut: bool, angularDrag: real)

  /** A freshly created top: spin 0, not knocked out, the rigidbody's own drag. */
  function Created(rigidbodyAngularDrag: real): (s: SpinState)
    ensures s.spin == 0.0 && !s.knockedOut && s.angularDrag == rigidbodyAngularDrag
  {
    SpinState(0.0, false, rigidbodyAngularDrag)
  }

  /** What a top touches: a body without a `spinningTop` component, or another top. */
  datatype Collider = Scenery | Top(spin: real, knockedOut: bool)

  /**
   * One call by the host into the spin logic: a physics step of length `dt`,
   * an `AddSpin(amount)`, or a collision whose random draw is `draw`.
   */
  datatype Event = Tick(dt: real) | Boost(amount: real) | Contact(other: Collider, draw: real)

  /** `Start`, spin part: the stored spin becomes the initial impulse. */
  function AfterStart(s: SpinState, t: Tuning): (s': SpinState)
    ensures s'.spin == t.spinImpulse && s'.angularDrag == StartAngularDrag
    ensures s'.knockedOut == s.knockedOut
  {
    s.(spin := t.spinImpulse, angularDrag := StartAngularDrag)
  }

  /** `KnockOut`: raise the flag and the angular drag. */
  function KnockedOut(s: SpinState): (s': SpinState)
    ensures s'.knockedOut && s'.angularDrag == KnockedOutAngularDrag && s'.spin == s.spin
  {
    s.(knockedOut := true, angularDrag := KnockedOutAngularDrag)
  }

  /**
   * `FixedUpdate`, spin part: a knocked-out top is left alone; an active one
   * loses `naturalSpinDecay * dt` and is knocked out when that brings it to
   * the threshold or below.
   */
  function AfterFixedUpdate(s: SpinState, t: Tuning, dt: real): (s': SpinState)
    ensures s.knockedOut ==> s' == s
    ensures !s.knockedOut ==> s'.spin == s.spin - t.naturalSpinDecay * dt
    ensures !s.knockedOut ==> (s'.knockedOut <==> s'.spin <= t.minSpinSpeed)
    ensures !s.knockedOut && s'.knockedOut ==> s'.angularDrag == KnockedOutAngularDrag
    ensures !s'.knockedOut ==> s'.angularDrag == s.angularDrag
  {
    if s.knockedOut then s
    else
      var decayed := s.(spin := s.spin - t.naturalSpinDecay * dt);
      if decayed.spin <= t.minSpinSpeed then KnockedOut(decayed) else decayed
  }

  /** `AddSpin(amount)`: add, capped at the maximum; the flag is not touched. */
  function AfterAddSpin(s: SpinState, t: Tuning, amount: real): (s': SpinState)
    ensures s'.spin <= t.maxSpinSpeed
    ensures s.spin + amount <= t.maxSpinSpeed ==> s'.spin == s.spin + amount
    ensures t.maxSpinSpeed < s.spin + amount ==> s'.spin == t.maxSpinSpeed
    ensures t.maxSpinSpeed < s.spin ==> s'.spin < s.spin
    ensures s'.knockedOut == s.knockedOut && s'.angularDrag == s.angularDrag
  {
    s.(spin := Min(t.maxSpinSpeed, s.spin + amount))
  }

  /** A top's share of the pair's total spin, seen from its own side. */
  function SpinRatio(own: real, other: real): (ratio: real)
    requires own + other != 0.0
    ensures ratio * (own + other) == own
    ensures 0.0 <= own && 0.0 <= other ==> 0.0 <= ratio <= 1.0
  {
    var sum := own + other;
    QuotientBounds(own, sum);
    own / sum
  }

  /**
   * The factor applied to the loss: 1 for a top with no share of the spin,
   * `multiplier` for one with all of it, and in between otherwise.
   */
  function SpinAdvantage(ratio: real, multiplier: real): (adv: real)
    ensures multiplier <= 1.0 ==> multiplier <= adv <= 1.0
    ensures 1.0 <= multiplier ==> 1.0 <= adv <= multiplier
    ensures ratio <= 0.0 ==> adv == 1.0
    ensures 1.0 <= ratio ==> adv == multiplier
  {
    Lerp(1.0, multiplier, ratio)
  }

  /** The spin a hit costs: the base loss plus the draw, scaled by the advantage. */
  function SpinLoss(t: Tuning, ratio: real, draw: real): (loss: real)
    ensures 0.0 <= t.baseSpinLossOnHit + draw && 0.0 <= t.spinAdvantageMultiplier ==> 0.0 <= loss
    ensures 0.0 <= t.baseSpinLossOnHit + draw && t.spinAdvantageMultiplier <= 1.0 ==>
      loss <= t.baseSpinLossOnHit + draw
  {
    var raw, adv := t.baseSpinLossOnHit + draw, SpinAdvantage(ratio, t.spinAdvantageMultiplier);
    assert 0.0 <= raw && 0.0 <= adv ==> 0.0 <= raw * adv;
    assert 0.0 <= raw && adv <= 1.0 ==> raw * adv <= raw by {
      if 0.0 <= raw && adv <= 1.0 {
        assert raw * (1.0 - adv) >= 0.0;
      }
    }
    raw * adv
  }

  /** A draw of `Random.Range(-range, range)`: between the two bounds, in either order. */
  predicate InDrawRange(draw: real, range: real)
    ensures InDrawRange(draw, range) <==> Min(range, -range) <= draw <= Max(range, -range)
  {
    (-range <= draw <= range) || (range <= draw <= -range)
  }

  /**
   * `HandleBeybladeCollision`, spin part: lose the computed spin, never going
   * below zero.  The ratio divides by the pair's total spin, so that total
   * must not be zero.
   */
  function AfterHit(s: SpinState, t: Tuning, otherSpin: real, draw: real): (s': SpinState)
    requires s.spin + otherSpin != 0.0
    ensures 0.0 <= s'.spin
    ensures s.spin - SpinLoss(t, SpinRatio(s.spin, otherSpin), draw) <= s'.spin
    ensures s'.spin == 0.0 || s'.spin == s.spin - SpinLoss(t, SpinRatio(s.spin, otherSpin), draw)
    ensures s'.knockedOut == s.knockedOut && s'.angularDrag == s.angularDrag
  {
    var loss := SpinLoss(t, SpinRatio(s.spin, otherSpin), draw);
    s.(spin := Max(0.0, s.spin - loss))
  }

  /** The collision logic only runs its ratio when both tops are active. */
  predicate CollisionDefined(s: SpinState, c: Collider) {
    c.Top? && !c.knockedOut && !s.knockedOut ==> s.spin + c.spin != 0.0
  }

  /**
   * `OnCollisionEnter`: only a contact with another top, neither of them
   * knocked out, costs spin.
   */
  function OnCollision(s: SpinState, t: Tuning, c: Collider, draw: real): (s': SpinState)
    requires CollisionDefined(s, c)
    ensures c.Scenery? || c.knockedOut || s.knockedOut ==> s' == s
    ensures c.Top? && !c.knockedOut && !s.knockedOut ==> s' == AfterHit(s, t, c.spin, draw)
    ensures s'.knockedOut == s.knockedOut && s'.angularDrag == s.angularDrag
  {
    if c.Top? && !c.knockedOut && !s.knockedOut then AfterHit(s, t, c.spin, draw) else s
  }

  predicate EventDefined(s: SpinState, e: Event) {
    e.Contact? ==> CollisionDefined(s, e.other)
  }

  function Apply(s: SpinState, t: Tuning, e: Event): SpinState
    requires EventDefined(s, e)
  {
    match e
    case Tick(dt) => AfterFixedUpdate(s, t, dt)
    case Boost(amount) => AfterAddSpin(s, t, amount)
    case Contact(c, draw) => OnCollision(s, t, c, draw)
  }

  /** Every event of `es`, applied in order from `s`, is defined where it happens. */
  predicate Runnable(s: SpinState, t: Tuning, es: seq<Event>)
    decreases |es|
  {
    es == [] || (EventDefined(s, es[0]) && Runnable(Apply(s, t, es[0]), t, es[1..]))
  }

  /** The state after the host has made the calls `es`, in order. */
  function Run(s: SpinState, t: Tuning, es: seq<Event>): SpinState
    requires Runnable(s, t, es)
    decreases |es|
  {
    if es == [] then s else Run(Apply(s, t, es[0]), t, es[1..])
  }

  /** `n` physics steps of the same length. */
  function Steps(s: SpinState, t: Tuning, dt: real, n: nat): SpinState {
    if n == 0 then s else AfterFixedUpdate(Steps(s, t, dt, n - 1), t, dt)
  }

  /**
   * One contact between tops `a` and `b`: the host calls `OnCollisionEnter`
   * on `a` first and then on `b`, so `b` sees the spin `a` has already lost.
   */
  predicate ContactDefined(a: SpinState, ta: Tuning, b: SpinState, drawA: real) {
    CollisionDefined(a, Top(b.spin, b.knockedOut)) &&
    CollisionDefined(b, Top(OnCollision(a, ta, Top(b.spin, b.knockedOut), drawA).spin, a.knockedOut))
  }

  function ContactOutcome(a: SpinState, ta: Tuning, b: SpinState, tb: Tuning, drawA: real, drawB: real)
    : (r: (SpinState, SpinState))
    requires ContactDefined(a, ta, b, drawA)
    ensures a.knockedOut || b.knockedOut ==> r == (a, b)
    ensures !a.knockedOut && !b.knockedOut ==>
      r.0 == AfterHit(a, ta, b.spin, drawA) && r.1 == AfterHit(b, tb, r.0.spin, drawB)
    ensures r.0.knockedOut == a.knockedOut && r.0.angularDrag == a.angularDrag
    ensures r.1.knockedOut == b.knockedOut && r.1.angularDrag == b.angularDrag
  {
    var a' := OnCollision(a, ta, Top(b.spin, b.knockedOut), drawA);
    (a', OnCollision(b, tb, Top(a'.spin, a'.knockedOut), drawB))
  }

  /** One spinning top: its tuning, its stored spin and flag, and its rigidbody's angular drag. */
  class SpinningTop {
    const spinImpulse: real
    const maxSpinSpeed: real
    const minSpinSpeed: real
    const naturalSpinDecay: real
    const baseSpinLossOnHit: real
    const spinLossRandomRange: real
    const spinAdvantageMultiplier: real

    var currentSpinSpeed: real
    var isKnockedOut: bool
    var angularDrag: real

    function Settings(): Tuning {
      Tuning(spinImpulse, maxSpinSpeed, minSpinSpeed, naturalSpinDecay,
             baseSpinLossOnHit, spinLossRandomRange, spinAdvantageMultiplier)
    }

    function State(): SpinState
      reads this
    {
      SpinState(currentSpinSpeed, isKnockedOut, angularDrag)
    }

    /** The component as the engine creates it, before `Start`. */
    constructor (t: Tuning, rigidbodyAngularDrag: real)
      ensures Settings() == t
      ensures State() == Created(rigidbodyAngularDrag)
    {
      spinImpulse, maxSpinSpeed, minSpinSpeed := t.spinImpulse, t.maxSpinSpeed, t.minSpinSpeed;
      naturalSpinDecay, baseSpinLossOnHit := t.naturalSpinDecay, t.baseSpinLossOnHit;
      spinLossRandomRange, spinAdvantageMultiplier := t.spinLossRandomRange, t.spinAdvantageMultiplier;
      currentSpinSpeed := 0.0;
      isKnockedOut := false;
      angularDrag := rigidbodyAngularDrag;
    }

    /** The stored spin as a fraction of the maximum, clamped to [0, 1]. */
    function SpinHealthPercent(): (p: real)
      reads this
      requires maxSpinSpeed != 0.0
      ensures 0.0 <= p <= 1.0
      ensures 0.0 < maxSpinSpeed && 0.0 <= currentSpinSpeed <= maxSpinSpeed ==>
        p * maxSpinSpeed == currentSpinSpeed
      ensures 0.0 < maxSpinSpeed && maxSpinSpeed <= currentSpinSpeed ==> p == 1.0
      ensures 0.0 < maxSpinSpeed && currentSpinSpeed <= 0.0 ==> p == 0.0
    {
      QuotientBounds(currentSpinSpeed, maxSpinSpeed);
      Clamp01(currentSpinSpeed / maxSpinSpeed)
    }

    /** `Start`, spin part. */
    method Start()
      modifies this`currentSpinSpeed, this`angularDrag
      ensures State() == AfterStart(old(State()), Settings())
    {
      angularDrag := StartAngularDrag;
      currentSpinSpeed := spinImpulse;
    }

    method KnockOut()
      modifies this`isKnockedOut, this`angularDrag
      ensures State() == KnockedOut(old(State()))
    {
      isKnockedOut := true;
      angularDrag := KnockedOutAngularDrag;
    }

    /** `FixedUpdate`, spin part; `dt` is the host's fixed step length. */
    method FixedUpdate(dt: real)
      modifies this
      ensures State() == AfterFixedUpdate(old(State()), Settings(), dt)
      ensures old(isKnockedOut) ==> unchanged(this)
      ensures old(isKnockedOut) ==> isKnockedOut
    {
      if isKnockedOut {
        return;
      }
      currentSpinSpeed := currentSpinSpeed - naturalSpinDecay * dt;
      if currentSpinSpeed <= minSpinSpeed {
        KnockOut();
        return;
      }
    }

    method AddSpin(amount: real)
      modifies this`currentSpinSpeed
      ensures State() == AfterAddSpin(old(State()), Settings(), amount)
      ensures currentSpinSpeed == Min(maxSpinSpeed, old(currentSpinSpeed) + amount)
    {
      currentSpinSpeed := Min(maxSpinSpeed, currentSpinSpeed + amount);
    }

    /**
     * `otherTop` is `null` when the colliding body has no `spinningTop`
     * component; `draw` is the value `Random.Range` would return.
     */
    method OnCollisionEnter(otherTop: SpinningTop?, draw: real)
      requires otherTop != this
      requires CollisionDefined(State(), ColliderOf(otherTop))
      modifies this`currentSpinSpeed
      ensures State() == OnCollision(old(State()), Settings(), old(ColliderOf(otherTop)), draw)
      ensures otherTop != null ==> otherTop.currentSpinSpeed == old(otherTop.currentSpinSpeed)
    {
      if otherTop != null && !otherTop.isKnockedOut && !isKnockedOut {
        HandleBeybladeCollision(otherTop, draw);
      }
    }

    method HandleBeybladeCollision(otherTop: SpinningTop, draw: real)
      requires otherTop != this
      requires currentSpinSpeed + otherTop.currentSpinSpeed != 0.0
      modifies this`currentSpinSpeed
      ensures State() == AfterHit(old(State()), Settings(), otherTop.currentSpinSpeed, draw)
      ensures 0.0 <= currentSpinSpeed
      ensures otherTop.currentSpinSpeed == old(otherTop.currentSpinSpeed)
    {
      var spinRatio := currentSpinSpeed / (currentSpinSpeed + otherTop.currentSpinSpeed);
      var spinAdvantage := Lerp(1.0, spinAdvantageMultiplier, spinRatio);
      var randomFactor := draw;
      var spinLoss := (baseSpinLossOnHit + randomFactor) * spinAdvantage;
      currentSpinSpeed := Max(0.0, currentSpinSpeed - spinLoss);
    }
  }

  /** What a top sees of the body it touches. */
  function ColliderOf(o: SpinningTop?): (c: Collider)
    reads o
    ensures c.Scenery? <==> o == null
    ensures o != null ==> c.spin == o.currentSpinSpeed && c.knockedOut == o.isKnockedOut
  {
    if o == null then Scenery else Top(o.currentSpinSpeed, o.isKnockedOut)
  }

  /** The engine's two `OnCollisionEnter` calls for one contact, `a`'s first. */
  method ResolveContact(a: SpinningTop, b: SpinningTop, drawA: real, drawB: real)
    requires a != b
    requires ContactDefined(a.State(), a.Settings(), b.State(), drawA)
    modifies a`currentSpinSpeed, b`currentSpinSpeed
    ensures (a.State(), b.State()) ==
      ContactOutcome(old(a.State()), a.Settings(), old(b.State()), b.Settings(), drawA, drawB)
  {
    a.OnCollisionEnter(b, drawA);
    b.OnCollisionEnter(a, drawB);
  }
}
