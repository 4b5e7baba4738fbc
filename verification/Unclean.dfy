/** A rewind over a step that has gone to the rules breaks the history's
    consistency: a step with a refused block, and steering that arrives late. */
module Unclean {
  import opened Basics
  import opened Balance
  import opened Rest
  import opened Snapshots
  import opened Fights
  import opened Rollback

  /** A push that takes a dot half way to the rim in a step. */
  const CONFIG := ConfigOf(1800.0)

  const INFO := PlayerInfo("p", 0, 0, false, CONFIG)

  lemma BlockRefused(m: Maths, s: DotState)
    requires AtRest(s)
    ensures Acting(m, CONFIG, s, [Block]) == Out(s, [Refused(Block, NoShield)])
  {
    assert [Block][1..] == [];
    assert DoActs(CONFIG, s, [Block]) == Out(s, [Refused(Block, NoShield)]);
  }

  /** Steered right for a step from rest, the dot is outside its core; not steered, inside. */
  lemma EndsInside(m: Maths, s: DotState, keys: Keys)
    requires m.Valid() && AtRest(s) && (keys == 0 || keys == RIGHT)
    ensures Physics(m, CONFIG, s, keys).s.feats.inside == (keys == 0)
    ensures Physics(m, CONFIG, s, keys).events == []
  {
    hide Drifted, Length, Reflected, Bounced, IntoStagger, Fade;
    Drifts(m, CONFIG, 1800.0, s, keys);
    var s1 := Drifted(m, CONFIG, s, keys);
    LengthAlong(m, if keys == RIGHT then 0.5 else 0.0);
  }

  lemma StepFromRest(m: Maths, s: DotState, keys: Keys)
    requires m.Valid() && AtRest(s) && (keys == 0 || keys == RIGHT)
    ensures Step(m, CONFIG, s, keys, [Block], []).s.feats.inside == (keys == 0)
    ensures Step(m, CONFIG, s, keys, [Block], []).events == [Refused(Block, NoShield)]
  {
    hide Opening, Acting, Physics;
    OpeningAtRest(m, CONFIG, s);
    var s1 := Opening(m, CONFIG, s).s;
    BlockRefused(m, s1);
    EndsInside(m, s1, keys);
  }

  lemma RestoredAtRest(scratch: DotState, s: DotState)
    requires AtRest(s)
    ensures AtRest(Restored(scratch, SnapshotOf(s)))
  {
  }

  const REFUSED := CallRefused("p", OfAct(Block, NoShield))

  lemma RefusalReported(bosses: set<string>)
    ensures Reportable(INFO, bosses, false, [Refused(Block, NoShield)], []) == Report([REFUSED], false)
  {
    assert [Refused(Block, NoShield)][1..] == [];
  }

  /** A player at rest who has asked for a block without a shield. */
  ghost predicate AsksToBlock(p: PlayerState) {
    AtRest(p.dot) && p.keys == 0 && p.acts == [Block] && p.flee == None && !p.sealed && p.history == []
  }

  lemma StepRefuses(m: Maths, p: PlayerState)
    requires m.Valid() && AsksToBlock(p)
    ensures var q := PlayerStep(m, INFO, p, 1, [], {}).p;
      && q.history == [Entry(1, SnapshotOf(p.dot), 0, [Block], [], [REFUSED])]
      && q.dot == Step(m, CONFIG, p.dot, 0, [Block], []).s && q.dot.feats.inside
  {
    hide Step, Reportable, SnapshotOf;
    StepFromRest(m, p.dot, 0);
    RefusalReported({});
  }

  lemma RewoundSteers(m: Maths, q: PlayerState, s: DotState)
    requires m.Valid() && AtRest(s)
    requires q.history == [Entry(1, SnapshotOf(s), 0, [Block], [], [REFUSED])]
    ensures var o := Rewind(m, INFO, q, 1, Revision(Some(RIGHT), None));
      && o.done && o.p.dot.feats == q.dot.feats
      && |o.p.history| == 1 && o.p.history[0].keys == RIGHT && o.p.history[0].acts == [Block]
      && o.p.history[0].blows == []
      && o.p.history[0].snap == SnapshotOf(Restored(q.scratch, SnapshotOf(s)))
  {
    hide Step, SnapshotOf, Restored;
    var e := q.history[0];
    assert q.history[1..] == [];
    assert From(q.history, 1) == [e];
    assert !Quiet(From(q.history, 1)[0]);
    var start := Restored(q.scratch, SnapshotOf(s));
    assert ReplayAll(m, INFO, start, q.sealed, q.history, 1, Revision(Some(RIGHT), None), false).history
      == ReplayOne(m, INFO, start, q.sealed, e, Revision(Some(RIGHT), None), false).history;
  }

  /** A rewind over a step that has gone to the rules breaks the history: after
      it the entry kept no longer replays to the dot, which is where the replay
      put it but takes itself to be in its core still. */
  lemma UncleanRewindBreaksHistory(m: Maths, p: PlayerState, scratch: DotState)
    requires m.Valid() && AsksToBlock(p)
    ensures var q := PlayerStep(m, INFO, p, 1, [], {}).p;
      var o := Rewind(m, INFO, q, 1, Revision(Some(RIGHT), None));
      Consistent(m, INFO, q, scratch) && o.done && !Consistent(m, INFO, o.p, scratch)
  {
    hide Step, Rewind, PlayerStep, SnapshotOf, Restored;
    var q := PlayerStep(m, INFO, p, 1, [], {}).p;
    StepRefuses(m, p);
    RewoundSteers(m, q, p.dot);
    FirstStepConsistent(m, p, q, scratch);
    var o := Rewind(m, INFO, q, 1, Revision(Some(RIGHT), None));
    var again := Restored(scratch, o.p.history[0].snap);
    RestoredAtRest(q.scratch, p.dot);
    RestoredAtRest(scratch, Restored(q.scratch, SnapshotOf(p.dot)));
    StepFromRest(m, again, RIGHT);
    OtherFeats(Step(m, CONFIG, again, RIGHT, [Block], []).s, o.p.dot);
    assert !ConsistentAt(m, INFO, o.p, scratch, 0);
  }

  lemma OtherFeats(a: DotState, b: DotState)
    requires a.feats != b.feats
    ensures SnapshotOf(a) != SnapshotOf(b)
  {
  }

  lemma FirstStepConsistent(m: Maths, p: PlayerState, q: PlayerState, scratch: DotState)
    requires q.history == [Entry(1, SnapshotOf(p.dot), 0, [Block], [], [REFUSED])]
    requires q.dot == Step(m, CONFIG, p.dot, 0, [Block], []).s
    ensures Consistent(m, INFO, q, scratch)
  {
    hide Step, SnapshotOf, Restored;
    SnapshotsAreSnapshots(p.dot);
    SnapshotRestored(scratch, SnapshotOf(p.dot));
    StepLineAlike(m, INFO, Restored(scratch, SnapshotOf(p.dot)), p.dot, 0, [Block], []);
  }
}
