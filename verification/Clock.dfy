/** One attack in steps of the clock: when it is announced, when it lands, and
    where a stall, a reel or a push back moves its next landing. */
module Clock {
  import opened Basics
  import opened Balance

  /** The blow an attack lands. */
  datatype AttackInfo = AttackInfo(kick: real, defend: Defence, stagger: bool, debuff: Option<DebuffSpec>)

  datatype Attack = Attack(n: int, info: AttackInfo, period: int, warn: int, land: int, angle: Option<real>,
                           target: Option<string>)

  /** Announced, with a direction and a target, once the warning is due. */
  function Announced(a: Attack, n: int, first: Option<string>, roll: real): Attack {
    if a.angle == None && n >= a.land - a.warn then a.(target := first, angle := Some(roll)) else a
  }

  predicate Lands(a: Attack, n: int) { n >= a.land }

  /** Who it lands on: its target if still in the fight, else the first player. */
  function Falls(a: Attack, first: Option<string>, present: set<string>): Option<string> {
    if a.target.Some? && a.target.value in present then a.target else first
  }

  function BlowOf(a: Attack): Blow {
    Blow(a.info.kick, if a.angle.Some? then a.angle.value else 0.0, a.info.defend, a.info.stagger, a.info.debuff, false)
  }

  function Reset(a: Attack): Attack { a.(angle := None, target := None) }

  /** What a step leaves of an attack. */
  function AttackNext(a: Attack, n: int, first: Option<string>, roll: real): Attack {
    var b := Announced(a, n, first, roll);
    if Lands(b, n) then Reset(b).(land := b.land + b.period) else b
  }

  /** Jumped to a step, moved to its next landing after it. */
  function Skipped(a: Attack, target: int): Attack {
    if a.land <= target && a.period > 0 then
      Reset(a).(land := a.land + a.period * CeilDiv(target + 1 - a.land, a.period))
    else a
  }

  function CeilDiv(x: int, p: int): int
    requires p > 0
  {
    (x + p - 1) / p
  }

  /** Held back while a boss reels, to the reel's end. */
  function HeldTo(a: Attack, end: int): Attack {
    if a.land < end then Reset(a).(land := end) else a
  }

  function PushedBack(a: Attack, by_: int): Attack { a.(land := a.land + by_) }

  /** As an NPC joins: its first landing a full period later, its warning at most a period. */
  function Joined(n: int, info: AttackInfo, period: int, warn: int, join: int): Attack {
    Attack(n, info, Max(1, period), if warn < Max(1, period) then warn else Max(1, period), join + Max(1, period), None,
           None)
  }

  // Nothing is due yet -------------------------------------------------------------------------

  /** Between steps nothing is overdue: every landing is still to come. */
  ghost predicate Ahead(a: Attack, step: int) { a.period >= 1 && a.land > step }

  lemma CeilDivIs(x: int, p: int)
    requires p > 0
    ensures x <= p * CeilDiv(x, p) <= x + p - 1
  {
  }

  /** Every change of an attack keeps its landing ahead of the clock: a step, a
      stall skipped, a boss's reel, and a push back. */
  lemma KeptAhead(a: Attack, step: int, first: Option<string>, roll: real, target: int, end: int, by_: nat)
    requires Ahead(a, step) && step <= target
    ensures Ahead(AttackNext(a, step + 1, first, roll), step + 1)
    ensures Ahead(Skipped(a, target), target)
    ensures Ahead(HeldTo(a, end), step)
    ensures Ahead(PushedBack(a, by_), step)
  {
    CeilDivIs(target + 1 - a.land, a.period);
  }

  // The stall shortcut -------------------------------------------------------------------------

  /** The landing rule, run for every step up to a target. */
  function SlowLand(land: int, period: int, step: int, target: int): int
    decreases target - step
  {
    if target <= step then land
    else
      var l := SlowLand(land, period, step, target - 1);
      if target >= l then l + period else l
  }

  lemma {:induction false} SlowLandIs(land: int, period: int, step: int, target: int) returns (k: nat)
    requires period >= 1 && land > step && step <= target
    ensures SlowLand(land, period, step, target) == land + k * period
    ensures SlowLand(land, period, step, target) > target
    ensures if k == 0 then land > target else land <= target && SlowLand(land, period, step, target) <= target + period
    decreases target - step
  {
    if step == target {
      k := 0;
    } else {
      k := SlowLandIs(land, period, step, target - 1);
      if target >= SlowLand(land, period, step, target - 1) { k := k + 1; }
    }
  }

  /** Two places a whole number of periods apart within one period are the same. */
  lemma SamePlace(land: int, period: int, i: int, j: int, target: int)
    requires period >= 1
    requires target < land + i * period <= target + period && target < land + j * period <= target + period
    ensures i == j
  {
    if i < j { Apart(i, j, period); }
    if j < i { Apart(j, i, period); }
  }

  lemma {:induction false} Apart(i: int, j: int, period: int)
    requires period >= 1 && i < j
    ensures i * period + period <= j * period
    decreases j - i
  {
    assert (i + 1) * period == i * period + period;
    if i + 1 < j { Apart(i + 1, j, period); }
  }

  /** Skipping a stall puts every landing exactly where running the clock step by
      step would: the same place in its period, and within one period of the
      target where it moved. */
  lemma SkipAgreesWithSlowClock(a: Attack, step: int, target: int)
    requires Ahead(a, step) && step <= target
    ensures Skipped(a, target).land == SlowLand(a.land, a.period, step, target)
    ensures a.land <= target ==> target < Skipped(a, target).land <= target + a.period
    ensures (Skipped(a, target).land - a.land) % a.period == 0
  {
    var k := SlowLandIs(a.land, a.period, step, target);
    if a.land <= target {
      var c := CeilDiv(target + 1 - a.land, a.period);
      CeilDivIs(target + 1 - a.land, a.period);
      SamePlace(a.land, a.period, k, c, target);
      WholePeriods(c, a.period);
    } else {
      WholePeriods(0, a.period);
    }
  }

  lemma WholePeriods(k: int, period: int)
    requires period >= 1
    ensures (period * k) % period == 0
  {
    assert period * k == k * period + 0;
    SameRemainder(period * k, period, k, 0);
  }

  lemma SameRemainder(x: int, p: int, q: int, r: int)
    requires p >= 1 && 0 <= r < p && x == q * p + r
    ensures x % p == r
  {
    var q', r' := x / p, x % p;
    assert x == q' * p + r';
    if q < q' { Apart(q, q', p); }
    if q' < q { Apart(q', q, p); }
  }
}
