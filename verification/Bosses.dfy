/** The meter of a boss, and what its reels cost: each is paid for by what was put in. */
module Bosses {
  import opened Balance

  datatype BossState = BossState(meter: real, staggered: int)

  function FilledBy(poise: real, rules: Rules, b: BossState, amount: real): BossState {
    if b.staggered != 0 then b
    else if b.meter + amount >= poise then BossState(0.0, Steps(rules.bossStaggerMs))
    else b.(meter := b.meter + amount)
  }

  /** Whether a fill makes the boss reel. */
  predicate Reels(poise: real, b: BossState, amount: real) {
    b.staggered == 0 && b.meter + amount >= poise
  }

  function Drained(rules: Rules, b: BossState): BossState {
    if b.staggered != 0 then b.(staggered := b.staggered - 1)
    else b.(meter := DrainedMeter(rules, b.meter))
  }

  function DrainedMeter(rules: Rules, meter: real): real {
    var left := meter - rules.bossPoiseDecay / 60.0;
    if left < 0.0 then 0.0 else left
  }

  class Boss {
    const poise: real
    const rules: Rules
    var meter: real
    var staggered: int

    function State(): BossState reads this { BossState(meter, staggered) }

    constructor (poise: real, rules: Rules)
      ensures this.poise == poise && this.rules == rules && State() == BossState(0.0, 0)
    {
      this.poise, this.rules, meter, staggered := poise, rules, 0.0, 0;
    }

    /** More in the meter, unless the boss reels already; whether that makes it reel. */
    method Add(amount: real) returns (reels: bool)
      modifies this
      ensures State() == FilledBy(poise, rules, old(State()), amount)
      ensures reels == Reels(poise, old(State()), amount)
    {
      if staggered != 0 {
        return false;
      }
      meter := meter + amount;
      if meter >= poise {
        meter := 0.0;
        staggered := Steps(rules.bossStaggerMs);
        return true;
      }
      return false;
    }

    /** Ten times a strike's kick put in. */
    method Strike(kick: real) returns (reels: bool)
      modifies this
      ensures State() == FilledBy(poise, rules, old(State()), kick * 10.0)
      ensures reels == Reels(poise, old(State()), kick * 10.0)
    {
      reels := Add(kick * 10.0);
    }

    method PerfectBlock() returns (reels: bool)
      modifies this
      ensures State() == FilledBy(poise, rules, old(State()), rules.perfectBlockPoise)
      ensures reels == Reels(poise, old(State()), rules.perfectBlockPoise)
    {
      reels := Add(rules.perfectBlockPoise);
    }

    method Step()
      modifies this
      ensures State() == Drained(rules, old(State()))
    {
      if staggered != 0 {
        staggered := staggered - 1;
      } else {
        var left := meter - rules.bossPoiseDecay / 60.0;
        meter := if left < 0.0 then 0.0 else left;
      }
    }
  }

  // Runs -------------------------------------------------------------------------------------

  datatype BossOp = Fill(amount: real) | Tick

  function BossAfter(poise: real, rules: Rules, run: seq<BossOp>, k: nat): BossState
    requires k <= |run|
  {
    if k == 0 then BossState(0.0, 0)
    else
      var b := BossAfter(poise, rules, run, k - 1);
      match run[k - 1]
      case Fill(amount) => FilledBy(poise, rules, b, amount)
      case Tick => Drained(rules, b)
  }

  ghost predicate ReelsAt(poise: real, rules: Rules, run: seq<BossOp>, k: nat) {
    1 <= k <= |run| && run[k - 1].Fill? && Reels(poise, BossAfter(poise, rules, run, k - 1), run[k - 1].amount)
  }

  /** What the run's reels cost so far, a poise each. */
  ghost function Paid(poise: real, rules: Rules, run: seq<BossOp>, k: nat): real
    requires k <= |run|
  {
    if k == 0 then 0.0
    else Paid(poise, rules, run, k - 1) + if ReelsAt(poise, rules, run, k) then poise else 0.0
  }

  ghost function ReelCount(poise: real, rules: Rules, run: seq<BossOp>, k: nat): nat
    requires k <= |run|
  {
    if k == 0 then 0
    else ReelCount(poise, rules, run, k - 1) + if ReelsAt(poise, rules, run, k) then 1 else 0
  }

  /** What was added while it wasn't reeling. */
  ghost function Taken(poise: real, rules: Rules, run: seq<BossOp>, k: nat): real
    requires k <= |run|
  {
    if k == 0 then 0.0
    else
      Taken(poise, rules, run, k - 1)
      + if run[k - 1].Fill? && BossAfter(poise, rules, run, k - 1).staggered == 0 then run[k - 1].amount else 0.0
  }

  ghost function Added(run: seq<BossOp>, k: nat): real
    requires k <= |run|
  {
    if k == 0 then 0.0 else Added(run, k - 1) + if run[k - 1].Fill? then run[k - 1].amount else 0.0
  }

  ghost function Ticks(run: seq<BossOp>, i: nat, k: nat): nat
    requires i <= k <= |run|
  {
    if k == i then 0 else Ticks(run, i, k - 1) + if run[k - 1].Tick? then 1 else 0
  }

  ghost predicate Ordinary(poise: real, rules: Rules, run: seq<BossOp>) {
    0.0 < poise && 0.0 <= rules.bossPoiseDecay && forall i :: 0 <= i < |run| && run[i].Fill? ==> 0.0 <= run[i].amount
  }

  lemma {:induction false} PaidIs(poise: real, rules: Rules, run: seq<BossOp>, k: nat)
    requires k <= |run|
    ensures Paid(poise, rules, run, k) == poise * ReelCount(poise, rules, run, k) as real
  {
    hide BossAfter, ReelsAt;
    if k > 0 { PaidIs(poise, rules, run, k - 1); }
  }

  /** Reels are paid for: a poise for each so far and what the meter holds never
      exceed what was added while it wasn't reeling; and the meter stays in [0, poise). */
  lemma {:induction false} ReelsArePaidFor(poise: real, rules: Rules, run: seq<BossOp>, k: nat)
    requires Ordinary(poise, rules, run) && k <= |run|
    ensures poise * ReelCount(poise, rules, run, k) as real + BossAfter(poise, rules, run, k).meter
      <= Taken(poise, rules, run, k) <= Added(run, k)
    ensures 0.0 <= BossAfter(poise, rules, run, k).meter < poise
  {
    PaidIs(poise, rules, run, k);
    MeterIsPaidFor(poise, rules, run, k);
  }

  lemma {:induction false} MeterIsPaidFor(poise: real, rules: Rules, run: seq<BossOp>, k: nat)
    requires Ordinary(poise, rules, run) && k <= |run|
    ensures Paid(poise, rules, run, k)
      + BossAfter(poise, rules, run, k).meter <= Taken(poise, rules, run, k) <= Added(run, k)
    ensures 0.0 <= BossAfter(poise, rules, run, k).meter < poise
  {
    if k > 0 { MeterIsPaidFor(poise, rules, run, k - 1); }
  }

  /** Nothing builds while it reels: the meter is empty until the reel's end. */
  lemma {:induction false} NothingBuildsWhileReeling(poise: real, rules: Rules, run: seq<BossOp>, k: nat)
    requires k <= |run| && BossAfter(poise, rules, run, k).staggered != 0
    ensures BossAfter(poise, rules, run, k).meter == 0.0
  {
    if k > 0 && BossAfter(poise, rules, run, k - 1).staggered != 0 {
      NothingBuildsWhileReeling(poise, rules, run, k - 1);
    }
  }

  lemma {:induction false} ReelingGoesOn(poise: real, rules: Rules, run: seq<BossOp>, i: nat, k: nat)
    requires ReelsAt(poise, rules, run, i) && i <= k <= |run|
    requires Steps(rules.bossStaggerMs) >= 0
    ensures BossAfter(poise, rules, run, k).staggered >= Steps(rules.bossStaggerMs) - Ticks(run, i, k)
    ensures BossAfter(poise, rules, run, k).staggered >= 0
    decreases k
  {
    if i < k { ReelingGoesOn(poise, rules, run, i, k - 1); }
  }

  /** Two reels are at least a reel's length of the boss's own steps apart. */
  lemma ReelsApart(poise: real, rules: Rules, run: seq<BossOp>, i: nat, j: nat)
    requires i < j && ReelsAt(poise, rules, run, i) && ReelsAt(poise, rules, run, j)
    ensures Ticks(run, i, j) >= Steps(rules.bossStaggerMs)
  {
    if Steps(rules.bossStaggerMs) >= 0 {
      ReelingGoesOn(poise, rules, run, i, j - 1);
    }
  }
}
