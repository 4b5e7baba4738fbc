/** Over every run of steps, inputs and stops, with whatever rewinds those bring: a
    player's dot, and every snapshot kept of it, is in the disc. */
module DiscRuns {
  import opened Basics
  import opened Balance
  import opened Runs
  import opened Staggers
  import opened Disc
  import opened Rim
  import opened Fights
  import opened RollbackRuns
  import opened Encounters
  import opened Overdue
  import opened FighterRuns

  /** In the disc, and where staggers last a step, short of the rim or staggered. */
  ghost predicate Safe(m: Maths, cfg: Config, s: DotState) {
    InDisc(m, s) && (Lasts(cfg) >= 1 ==> OffRim(m, s))
  }

  /** The same of a snapshot: it is of nothing but the place, movement and footing. */
  ghost predicate SafeSnap(m: Maths, cfg: Config, snap: Snapshot) {
    forall other: DotState :: Safe(m, cfg, Restored(other, snap))
  }

  ghost predicate AllSafe(m: Maths, cfg: Config, es: seq<Entry>) {
    forall i :: 0 <= i < |es| ==> SafeSnap(m, cfg, es[i].snap)
  }

  ghost predicate PlayerSafe(m: Maths, cfg: Config, p: PlayerState) {
    Safe(m, cfg, p.dot) && AllSafe(m, cfg, p.history)
  }

  lemma SafeAlike(m: Maths, cfg: Config, s: DotState, t: DotState)
    requires Safe(m, cfg, s) && t.motion == s.motion && t.footing == s.footing
    ensures Safe(m, cfg, t)
  {
    hide Dist;
  }

  lemma SnapSafe(m: Maths, cfg: Config, s: DotState)
    requires Safe(m, cfg, s)
    ensures SafeSnap(m, cfg, SnapshotOf(s))
  {
    hide Safe;
    forall other: DotState ensures Safe(m, cfg, Restored(other, SnapshotOf(s))) {
      SafeAlike(m, cfg, s, Restored(other, SnapshotOf(s)));
    }
  }

  lemma StepSafe(m: Maths, cfg: Config, s: DotState, i: Input)
    requires m.Valid() && Safe(m, cfg, s)
    ensures Safe(m, cfg, StepOn(m, cfg, s, i).s)
  {
    hide StepOn, InDisc, Dist;
    StepKeepsIn(m, cfg, s, i);
    AtMostOne(m, StepOn(m, cfg, s, i).s);
  }

  lemma OneSafe(m: Maths, info: PlayerInfo, s: DotState, sealed: bool, e: Entry, r: Revision, clean: bool)
    requires m.Valid() && Safe(m, info.cfg, s)
    ensures var one := ReplayOne(m, info, s, sealed, e, r, clean);
      |one.history| == 1 && SafeSnap(m, info.cfg, one.history[0].snap) && Safe(m, info.cfg, one.scratch)
  {
    hide Step, Reportable, SnapshotOf, Safe, SafeSnap;
    var e1 := Revised(e, r);
    SnapSafe(m, info.cfg, s);
    StepSafe(m, info.cfg, s, Input(e1.keys, e1.acts, e1.blows));
  }

  lemma {:induction false} ReplaySafe(m: Maths, info: PlayerInfo, s: DotState, sealed: bool, es: seq<Entry>, at: int,
                                      r: Revision, clean: bool)
    requires m.Valid() && Safe(m, info.cfg, s) && AllSafe(m, info.cfg, es)
    ensures var rep := ReplayAll(m, info, s, sealed, es, at, r, clean);
      AllSafe(m, info.cfg, rep.history) && Safe(m, info.cfg, rep.scratch)
    decreases |es|
  {
    hide ReplayOne, Safe, SafeSnap;
    if es != [] {
      if es[0].step < at {
        ReplaySafe(m, info, s, sealed, es[1..], at, r, clean);
      } else {
        OneSafe(m, info, s, sealed, es[0], r, clean);
        var one := ReplayOne(m, info, s, sealed, es[0], r, clean);
        ReplaySafe(m, info, one.scratch, one.sealed, es[1..], at, r.(act := None), clean);
      }
    }
  }

  lemma {:induction false} WindowSafe(m: Maths, cfg: Config, es: seq<Entry>, at: int)
    requires AllSafe(m, cfg, es)
    ensures AllSafe(m, cfg, From(es, at))
    decreases |es|
  {
    hide SafeSnap;
    if es != [] { WindowSafe(m, cfg, es[1..], at); }
  }

  /** A rewind over any window, clean or not. */
  lemma RewindSafe(m: Maths, info: PlayerInfo, p: PlayerState, at: int, r: Revision)
    requires m.Valid() && PlayerSafe(m, info.cfg, p)
    ensures PlayerSafe(m, info.cfg, Rewind(m, info, p, at, r).p)
  {
    hide ReplayAll, From, Clean, Safe, AllSafe, SnapshotOf, Restored;
    if CanRewind(p, at) {
      WindowNotEmpty(p.history, at);
      WindowSafe(m, info.cfg, p.history, at);
      var start := Restored(p.scratch, From(p.history, at)[0].snap);
      FirstSafe(m, info.cfg, From(p.history, at), p.scratch);
      ReplaySafe(m, info, start, p.sealed, p.history, at, r, Clean(p.history, at));
      var s := ReplayAll(m, info, start, p.sealed, p.history, at, r, Clean(p.history, at)).scratch;
      TakenSafe(m, info.cfg, s, p.dot);
    }
  }

  lemma FirstSafe(m: Maths, cfg: Config, es: seq<Entry>, other: DotState)
    requires es != [] && AllSafe(m, cfg, es)
    ensures Safe(m, cfg, Restored(other, es[0].snap))
  {
    hide Safe;
    assert SafeSnap(m, cfg, es[0].snap);
  }

  lemma TakenSafe(m: Maths, cfg: Config, s: DotState, dot: DotState)
    requires Safe(m, cfg, s)
    ensures Safe(m, cfg, Restored(dot, SnapshotOf(s))) && Safe(m, cfg, dot.(motion := s.motion, footing := s.footing))
  {
    hide Safe;
    SafeAlike(m, cfg, s, Restored(dot, SnapshotOf(s)));
    SafeAlike(m, cfg, s, dot.(motion := s.motion, footing := s.footing));
  }

  lemma MessageSafe(m: Maths, info: PlayerInfo, p: PlayerState, msg: Message)
    requires m.Valid() && PlayerSafe(m, info.cfg, p)
    ensures PlayerSafe(m, info.cfg, TakeMessage(m, info, p, msg).p)
  {
    hide Rewind, Safe, AllSafe, TakeAsk, Masked;
    var p1 := Numbered(p, msg.seqNo);
    if msg.keys.Some? && msg.at.Some? {
      RewindSafe(m, info, p1, msg.at.value, Revision(Some(Masked(msg.keys.value)), None));
    }
    var k := if msg.keys.Some? then TakeKeys(m, info, p1, msg.at, Masked(msg.keys.value)) else Took(p1, []);
    AskSafe(m, info, k.p, msg.at, msg.ask);
  }

  lemma AskSafe(m: Maths, info: PlayerInfo, p: PlayerState, at: Option<int>, ask: Ask)
    requires m.Valid() && PlayerSafe(m, info.cfg, p)
    ensures PlayerSafe(m, info.cfg, TakeAsk(m, info, p, at, ask).p)
  {
    hide Rewind, Safe, AllSafe;
    if ActOf(ask).Some? && at.Some? { RewindSafe(m, info, p, at.value, Revision(None, Some(ActOf(ask).value))); }
  }

  lemma OpSafe(m: Maths, info: PlayerInfo, p: PlayerState, op: Op)
    requires m.Valid() && PlayerSafe(m, info.cfg, p)
    ensures PlayerSafe(m, info.cfg, Apply(m, info, p, op))
  {
    hide Step, Reportable, Safe, SafeSnap, SnapshotOf, TakeMessage, FleeCalls, CancelVolleys;
    match op
    case StepOp(n, mine, bosses) =>
      StepSafe(m, info.cfg, p.dot, Input(p.keys, p.acts, BlowsOf(mine)));
      SnapSafe(m, info.cfg, p.dot);
    case MessageOp(msg) => MessageSafe(m, info, p, msg);
    case StopOp(target) => SafeAlike(m, info.cfg, p.dot, Cancelled(p.dot, target));
  }

  /** The disc invariant of a player: over every run of steps, inputs and stops,
      rewinds clean or not, the dot and every snapshot kept are in the disc, and
      where a stagger lasts at least a step, short of the rim or staggered. */
  lemma {:induction false} PlayerStaysInDisc(m: Maths, info: PlayerInfo, p0: PlayerState, ops: seq<Op>, k: nat)
    requires m.Valid() && PlayerSafe(m, info.cfg, p0) && k <= |ops|
    ensures PlayerSafe(m, info.cfg, PlayerAt(m, info, p0, ops, k))
  {
    hide PlayerSafe, Apply;
    if k > 0 {
      PlayerStaysInDisc(m, info, p0, ops, k - 1);
      OpSafe(m, info, PlayerAt(m, info, p0, ops, k - 1), ops[k - 1]);
    }
  }

  lemma JoinsInDisc(m: Maths, info: PlayerInfo, seed: int, opening: Option<Act>)
    requires m.Valid()
    ensures PlayerSafe(m, info.cfg, JoiningPlayer(m, info, seed, opening))
  {
    hide Start, Safe;
    StartsSafe(m, info.cfg, seed);
  }

  lemma StartsSafe(m: Maths, cfg: Config, seed: int)
    requires m.Valid()
    ensures Safe(m, cfg, Start(m, cfg, seed))
  {
    hide Start, InDisc, Length, Norm2, Square;
    StartInDisc(m, cfg, seed);
    StartAtCentre(m, cfg, seed);
    CentreShort(m);
  }

  lemma CentreShort(m: Maths)
    requires m.Valid()
    ensures Length(m, 0.0, 0.0) < 1.0
  {
    LengthBelow(m, 0.0, 0.0, 1.0);
  }

  /** And so of everyone in an encounter, from when they join to when they leave:
      whatever the others, the NPCs and the rules do. */
  lemma EveryoneStaysInDisc(m: Maths, e0: Encounter, run: seq<Happening>, k: nat, pid: string)
    requires m.Valid() && k <= |run| && Found(e0, pid).Some?
    requires PlayerSafe(m, Found(e0, pid).value.info.cfg, Found(e0, pid).value.p)
    requires forall i :: 0 <= i < k ==> run[i] != PlayerLeaves(pid)
    ensures var f := Found(EncounterAt(m, e0, run, k), pid); f.Some? && PlayerSafe(m, f.value.info.cfg, f.value.p)
  {
    hide PlayerSafe, EncounterAt;
    FighterHasItsRun(m, e0, run, k, pid);
    var f, ops := Found(e0, pid).value, OpsAt(m, e0, run, k, pid);
    PlayerStaysInDisc(m, f.info, f.p, ops, |ops|);
  }
}
