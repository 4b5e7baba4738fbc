/** A run in which a volley that was stopped comes back: its target goes a step
    after it was struck, and then late steering reaches back to before that. */
module Forgotten {
  import opened Basics
  import opened Balance
  import opened Rest
  import opened Stops
  import opened Fights
  import opened RollbackRuns
  import opened StoppedRewinds
  import opened Encounters

  /** Gear that hits twice, a second apart. */
  const TWICE := Gear(1000.0, 0.0, Bump, 2, 1000.0, None)

  const CONFIG := Config(RulesOf(0.0), map[1 := TWICE], false, {})

  const INFO := PlayerInfo("p", 0, 0, false, CONFIG)

  /** Still, with nothing buffered, and one volley under way. */
  ghost predicate Striking(s: DotState, target: Option<string>, left: int) {
    Still(s) && s.pending == None && |s.volleys| == 1 && s.volleys[0].target == target && s.volleys[0].left == left
  }

  /** A press at rest strikes, and leaves a volley. */
  lemma PressStrikes(m: Maths, s: DotState, target: Option<string>)
    requires m.Valid() && AtRest(s) && Cool(s.cool, 1) == 0
    ensures var o := Acting(m, CONFIG, s, [Strike(1, target)]);
      Striking(o.s, target, 59)
  {
    hide CoolAfter, Length, Around, Tier;
    var press := Strike(1, target);
    assert [press][1..] == [];
    var p := DoAct(CONFIG, s, press).s;
    assert DoActs(CONFIG, s, [press]) == Out(p, []);
    LengthAlong(m, 0.0);
    assert StrikeCheck(m, CONFIG, p, 1) == None;
    StruckFromRest(m, p, target);
    var q := StrikeNow(m, CONFIG, p, 1, target).s;
    OneCountsDown(m, q, target, 60);
  }

  lemma StruckFromRest(m: Maths, s: DotState, target: Option<string>)
    requires Still(s) && s.volleys == []
    ensures Striking(StrikeNow(m, CONFIG, s, 1, target).s, target, 60)
  {
    hide CoolAfter, Tier, Around;
  }

  lemma OneCountsDown(m: Maths, s: DotState, target: Option<string>, left: int)
    requires Striking(s, target, left) && left > 1
    ensures Striking(Volleys(m, CONFIG, s).s, target, left - 1) && Volleys(m, CONFIG, s).events == []
  {
    var v := s.volleys[0];
    assert s.volleys[1..] == [];
    assert VolleysNext(CONFIG, s.volleys) == VolleyNext(CONFIG, v) + VolleysNext(CONFIG, []);
    assert VolleysHit(CONFIG, s.volleys) == VolleyHits(CONFIG, v) + VolleysHit(CONFIG, []);
    assert VolleyKicks(m, CONFIG, s, s.volleys) == VolleyKicks(m, CONFIG, s, []);
  }

  /** The step of the press. */
  lemma FirstStep(m: Maths, s: DotState, target: Option<string>)
    requires m.Valid() && AtRest(s) && s.cool == map[]
    ensures Striking(Step(m, CONFIG, s, 0, [Strike(1, target)], []).s, target, 59)
  {
    hide Opening, Acting, Physics, Still;
    OpeningAtRest(m, CONFIG, s);
    OpeningCool(m, s);
    var s1 := Opening(m, CONFIG, s).s;
    PressStrikes(m, s1, target);
    StaysStill(m, CONFIG, 0.0, Acting(m, CONFIG, s1, [Strike(1, target)]).s);
  }

  lemma OpeningCool(m: Maths, s: DotState)
    requires s.cool == map[]
    ensures Opening(m, CONFIG, s).s.cool == map[]
  {
    hide OrbitNext, TimedDebuffs, TimedGuard, Advance, Reeling;
  }

  /** The step after it: nothing happens, and the volley goes on. */
  lemma SecondStep(m: Maths, s: DotState, target: Option<string>)
    requires m.Valid() && Striking(s, target, 59)
    ensures Striking(Step(m, CONFIG, s, 0, [], []).s, target, 58) && Step(m, CONFIG, s, 0, [], []).events == []
  {
    hide Opening, Volleys, Physics, Still;
    OpeningStill(m, CONFIG, s);
    var s1 := Opening(m, CONFIG, s).s;
    OneCountsDown(m, s1, target, 59);
    StaysStill(m, CONFIG, 0.0, Volleys(m, CONFIG, s1).s);
  }

  /** Joined with the strike that opened the fight; a step, a quiet step, the
      target gone, and other keys held since the second step. */
  function Ops(target: Option<string>): seq<Op> {
    [StepOp(1, [], {}), StepOp(2, [], {}), StopOp(target), MessageOp(Message(None, Some(2), Some(8), NoAsk))]
  }

  lemma TwoSteps(m: Maths, p0: PlayerState, target: Option<string>)
    requires m.Valid() && p0.acts == [Strike(1, target)] && p0.keys == 0 && p0.flee == None && p0.history == []
    requires AtRest(p0.dot) && p0.dot.cool == map[]
    ensures var p := PlayerAt(m, INFO, p0, Ops(target), 2);
      && |p.history| == 2 && p.history[0].step == 1 && p.history[1].step == 2 && Quiet(p.history[1])
      && |p.history[1].snap.volleys| == 1 && p.history[1].snap.volleys[0].target == target
      && p.history[1].snap.volleys[0].left == 59 && p.keys == 0
  {
    hide Step, SnapshotOf, Striking, AtRest, Apply;
    var p1 := Apply(m, INFO, p0, StepOp(1, [], {}));
    var p2 := Apply(m, INFO, p1, StepOp(2, [], {}));
    FirstStep(m, p0.dot, target);
    OneStepRun(m, p0, 1);
    SecondStep(m, p1.dot, target);
    OneStepRun(m, p1, 2);
    SnapVolleys(p1.dot, target);
    assert PlayerAt(m, INFO, p0, Ops(target), 1) == p1;
    assert PlayerAt(m, INFO, p0, Ops(target), 2) == p2;
  }

  lemma OneStepRun(m: Maths, p: PlayerState, n: nat)
    requires n > 0 && |p.history| < REWIND_STEPS
    ensures var q := Apply(m, INFO, p, StepOp(n, [], {})); var o := Step(m, CONFIG, p.dot, p.keys, p.acts, []);
      && q.dot == o.s && q.acts == [] && q.keys == p.keys && |q.history| == |p.history| + 1
      && q.history[..|p.history|] == p.history
      && q.history[|p.history|].step == n && q.history[|p.history|].snap == SnapshotOf(p.dot)
      && (o.events == [] ==> Quiet(q.history[|p.history|]))
  {
    hide Step, SnapshotOf;
  }

  lemma SnapVolleys(s: DotState, target: Option<string>)
    requires Striking(s, target, 59)
    ensures var v := SnapshotOf(s).volleys; |v| == 1 && v[0].target == target && v[0].left == 59
  {
  }

  /** Once it is stopped nothing of the volley is left; after the late keys it is
      under way again. */
  lemma StoppedVolleyComesBack(m: Maths, seed: int, target: Option<string>)
    requires m.Valid()
    ensures var p0 := JoiningPlayer(m, INFO, seed, Some(Strike(1, target)));
      && NoneAt(PlayerAt(m, INFO, p0, Ops(target), 3).dot.volleys, target)
      && !NoneAt(PlayerAt(m, INFO, p0, Ops(target), 4).dot.volleys, target)
  {
    hide Start, Rewind, Apply, NoneAt, Flying, AtRest, StoppedThenRewound;
    var p0 := JoiningPlayer(m, INFO, seed, Some(Strike(1, target)));
    StartsAtRest(m, CONFIG, seed);
    StartsCool(m, seed);
    TwoSteps(m, p0, target);
    var p := PlayerAt(m, INFO, p0, Ops(target), 2);
    LastTwo(m, p0, p, target);
    LastWindow(p);
    var r := Revision(Some(8 as Keys), None);
    assert From(p.history, 2)[0] == p.history[1];
    IsFlying(p.history[1].snap.volleys, target, 1, 0);
    StopForgotten(m, INFO, p, target, 2, r);
    FlyingIsSome(StoppedThenRewound(m, INFO, p, target, 2, r).p.dot.volleys, target, 0);
  }

  lemma StartsCool(m: Maths, seed: int)
    ensures Start(m, CONFIG, seed).cool == map[]
  {
    hide Advance, RadiusAt, Around;
  }

  /** The stop and the message as the run's last two. */
  lemma LastTwo(m: Maths, p0: PlayerState, p: PlayerState, target: Option<string>)
    requires p == PlayerAt(m, INFO, p0, Ops(target), 2) && p.keys == 0
    ensures PlayerAt(m, INFO, p0, Ops(target), 3) == p.(dot := Cancelled(p.dot, target))
    ensures PlayerAt(m, INFO, p0, Ops(target), 4).dot
      == StoppedThenRewound(m, INFO, p, target, 2, Revision(Some(8 as Keys), None)).p.dot
  {
    hide Rewind, PlayerStep, Cancelled, TakeMessage;
    var p3 := p.(dot := Cancelled(p.dot, target));
    assert Ops(target)[2] == StopOp(target);
    assert PlayerAt(m, INFO, p0, Ops(target), 3) == Apply(m, INFO, p, StopOp(target)) == p3;
    LateKeys(m, p3);
  }

  lemma LateKeys(m: Maths, p: PlayerState)
    requires p.keys == 0
    ensures TakeMessage(m, INFO, p, Message(None, Some(2), Some(8), NoAsk)).p.dot
      == Rewind(m, INFO, p, 2, Revision(Some(8 as Keys), None)).p.dot
  {
    hide Rewind;
    assert Masked(8) == 8;
  }

  lemma LastWindow(p: PlayerState)
    requires |p.history| == 2 && p.history[0].step == 1 && p.history[1].step == 2 && Quiet(p.history[1])
    ensures From(p.history, 2) == [p.history[1]] && CanRewind(p, 2) && Clean(p.history, 2)
  {
    assert p.history[1..] == [p.history[1]] && [p.history[1]][1..] == [];
    assert From(p.history[1..], 2) == [p.history[1]] + From([], 2);
  }
}
