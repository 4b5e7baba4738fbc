/** What late keys over a window that isn't clean do to the history: only its last
    entry can come not to replay to what follows it, and exactly when it does. */
module UncleanRewinds {
  import opened Basics
  import opened Balance
  import opened Snapshots
  import opened Fights
  import opened Rollback
  import opened RollbackRuns
  import opened Published

  /** Where an entry leads when replayed on some dot. */
  function LeadsTo(m: Maths, info: PlayerInfo, other: DotState, e: Entry): Snapshot {
    SnapshotOf(Step(m, info.cfg, Restored(other, e.snap), e.keys, e.acts, e.blows).s)
  }

  /** The i-th entry leads to the next one's snapshot, or the last to a given one. */
  ghost predicate LeadsOn(m: Maths, info: PlayerInfo, other: DotState, es: seq<Entry>, end: Snapshot, i: nat)
    requires i < |es|
  {
    LeadsTo(m, info, other, es[i]) == if i + 1 < |es| then es[i + 1].snap else end
  }

  ghost predicate Chain(m: Maths, info: PlayerInfo, other: DotState, es: seq<Entry>, end: Snapshot) {
    forall i :: 0 <= i < |es| ==> LeadsOn(m, info, other, es, end, i)
  }

  lemma ChainJoin(m: Maths, info: PlayerInfo, other: DotState, a: seq<Entry>, b: seq<Entry>, end: Snapshot)
    requires b != [] && Chain(m, info, other, a, b[0].snap) && Chain(m, info, other, b, end)
    ensures Chain(m, info, other, a + b, end)
  {
    hide LeadsTo;
    var c := a + b;
    forall i | 0 <= i < |c| ensures LeadsOn(m, info, other, c, end, i) {
      if i < |a| {
        assert LeadsOn(m, info, other, a, b[0].snap, i);
        if i + 1 == |a| { assert c[i + 1] == b[0]; }
      } else {
        assert LeadsOn(m, info, other, b, end, i - |a|);
      }
    }
  }

  lemma OneLeadsOn(m: Maths, info: PlayerInfo, other: DotState, s: DotState, sealed: bool, e: Entry, r: Revision,
                   clean: bool)
    ensures var one := ReplayOne(m, info, s, sealed, e, r, clean);
      |one.history| == 1 && one.history[0].snap == SnapshotOf(s)
        && LeadsTo(m, info, other, one.history[0]) == SnapshotOf(one.scratch)
  {
    hide Step, Reportable;
    var e1 := Revised(e, r);
    SnapshotsAreSnapshots(s);
    SnapshotRestored(other, SnapshotOf(s));
    StepLineAlike(m, info, Restored(other, SnapshotOf(s)), s, e1.keys, e1.acts, e1.blows);
  }

  /** A replayed window is a chain from where it started to where it got. */
  lemma {:induction false} ReplayChains(m: Maths, info: PlayerInfo, other: DotState, s: DotState, sealed: bool,
                                        es: seq<Entry>, at: int, r: Revision, clean: bool)
    requires forall i :: 0 <= i < |es| ==> es[i].step >= at
    ensures var rep := ReplayAll(m, info, s, sealed, es, at, r, clean);
      |rep.history| == |es| && Chain(m, info, other, rep.history, SnapshotOf(rep.scratch))
      && (es != [] ==> rep.history[0].snap == SnapshotOf(s))
    decreases |es|
  {
    hide ReplayOne, LeadsTo, SnapshotOf, Chain;
    if es == [] {
      EmptyChain(m, info, other, SnapshotOf(s));
    } else {
      OneLeadsOn(m, info, other, s, sealed, es[0], r, clean);
      var one := ReplayOne(m, info, s, sealed, es[0], r, clean);
      ReplayChains(m, info, other, one.scratch, one.sealed, es[1..], at, r.(act := None), clean);
      var rest := ReplayAll(m, info, one.scratch, one.sealed, es[1..], at, r.(act := None), clean);
      OneChain(m, info, other, one.history, SnapshotOf(one.scratch));
      if es[1..] == [] {
        assert one.history + rest.history == one.history;
      } else {
        ChainJoin(m, info, other, one.history, rest.history, SnapshotOf(rest.scratch));
      }
    }
  }

  lemma EmptyChain(m: Maths, info: PlayerInfo, other: DotState, end: Snapshot)
    ensures Chain(m, info, other, [], end)
  {
  }

  lemma OneChain(m: Maths, info: PlayerInfo, other: DotState, es: seq<Entry>, end: Snapshot)
    requires |es| == 1 && LeadsTo(m, info, other, es[0]) == end
    ensures Chain(m, info, other, es, end)
  {
  }

  /** The same place and movement, so alike exactly when the rest is the same. */
  lemma AlikeIsSameKept(dot: DotState, s: DotState)
    ensures SnapshotOf(dot.(motion := s.motion, footing := s.footing)) == SnapshotOf(s) <==> SameKept(dot, s)
  {
  }

  lemma WindowReplayed(m: Maths, info: PlayerInfo, p: PlayerState, at: int, r: Revision, clean: bool, other: DotState)
    returns (kept: seq<Entry>)
    requires CanRewind(p, at) && Ordered(p.history) && AllTaken(p.history)
    ensures From(p.history, at) != [] && p.history == kept + From(p.history, at)
    ensures var w := From(p.history, at);
      var rep := ReplayAll(m, info, Restored(p.scratch, w[0].snap), p.sealed, p.history, at, r, clean);
      && |rep.history| == |p.history| && rep.history[..|kept|] == kept && rep.history[|kept|].snap == w[0].snap
      && Chain(m, info, other, rep.history[|kept|..], SnapshotOf(rep.scratch))
  {
    hide ReplayAll, From, Chain, Restored, SnapshotOf;
    WindowNotEmpty(p.history, at);
    FromIsSuffix(p.history, at);
    var w := From(p.history, at);
    kept := p.history[..|p.history| - |w|];
    assert p.history == kept + w;
    var start := Restored(p.scratch, w[0].snap);
    assert w[0] == p.history[|kept|];
    SnapshotRestored(p.scratch, w[0].snap);
    ReplayChains(m, info, other, start, p.sealed, w, at, r, clean);
    ReplaySkips(m, info, start, p.sealed, kept, w, at, r, clean);
  }

  /** Late keys over a window that isn't clean, in a history that was consistent up
      to its last entry: every entry but the last still replays to the next, and
      the last to the dot if and only if the replay left what a rewind keeps as it
      happened (well, guard, feats, cooldowns, debuffs, buffer and volleys). */
  lemma UncleanConsistentExactlyWhen(m: Maths, info: PlayerInfo, p: PlayerState, at: int, keys: Keys, other: DotState)
    requires CanRewind(p, at) && !Clean(p.history, at) && Ordered(p.history) && AllTaken(p.history)
    requires Consistent(m, info, p, other)
    ensures var r := Revision(Some(keys), None); var q := Rewind(m, info, p, at, r).p;
      && |q.history| == |p.history|
      && (forall i :: 0 <= i < |q.history| - 1 ==> ConsistentAt(m, info, q, other, i))
      && (Consistent(m, info, q, other) <==> SameKept(p.dot, Replayed(m, info, p, at, r)))
  {
    hide ReplayAll, From, Clean, Restored, SnapshotOf, Step, SameKept;
    var r := Revision(Some(keys), None);
    var kept := WindowReplayed(m, info, p, at, r, false, other);
    var w := From(p.history, at);
    var rep := ReplayAll(m, info, Restored(p.scratch, w[0].snap), p.sealed, p.history, at, r, false);
    var q := Rewind(m, info, p, at, r).p;
    var h := rep.history;
    assert h == kept + h[|kept|..];
    KeptChain(m, info, other, p, kept, w);
    ChainJoin(m, info, other, kept, h[|kept|..], SnapshotOf(rep.scratch));
    AlikeIsSameKept(p.dot, rep.scratch);
    ChainIsConsistent(m, info, other, q, SnapshotOf(rep.scratch));
  }

  lemma KeptChain(m: Maths, info: PlayerInfo, other: DotState, p: PlayerState, kept: seq<Entry>, w: seq<Entry>)
    requires w != [] && p.history == kept + w && Consistent(m, info, p, other)
    ensures Chain(m, info, other, kept, w[0].snap)
  {
    hide Step, SnapshotOf, Restored;
    forall i | 0 <= i < |kept| ensures LeadsOn(m, info, other, kept, w[0].snap, i) {
      assert ConsistentAt(m, info, p, other, i);
      assert p.history[i] == kept[i];
      assert p.history[i + 1] == if i + 1 < |kept| then kept[i + 1] else w[0];
    }
  }

  lemma ChainIsConsistent(m: Maths, info: PlayerInfo, other: DotState, q: PlayerState, end: Snapshot)
    requires q.history != [] && Chain(m, info, other, q.history, end)
    ensures forall i :: 0 <= i < |q.history| - 1 ==> ConsistentAt(m, info, q, other, i)
    ensures Consistent(m, info, q, other) <==> SnapshotOf(q.dot) == end
  {
    hide Step, SnapshotOf, Restored;
    var last := |q.history| - 1;
    forall i | 0 <= i < last ensures ConsistentAt(m, info, q, other, i) {
      assert LeadsOn(m, info, other, q.history, end, i);
    }
    assert LeadsOn(m, info, other, q.history, end, last);
    assert ConsistentAt(m, info, q, other, last) <==> SnapshotOf(q.dot) == end;
  }

  // Late acts over whole runs ------------------------------------------------------------------

  /** A message's act, with no other keys, for a step in a window that isn't clean. */
  predicate TooLate(p: PlayerState, op: Op) {
    && op.MessageOp? && ActOf(op.msg.ask).Some? && (op.msg.keys.Some? ==> Masked(op.msg.keys.value) == p.keys)
    && op.msg.at.Some? && CanRewind(p, op.msg.at.value) && !Clean(p.history, op.msg.at.value)
  }

  /** The same message without its step. */
  function Undated(p: PlayerState, op: Op): Op {
    if TooLate(p, op) then MessageOp(op.msg.(at := None)) else op
  }

  /** A run with the step taken out of every message that comes too late for it. */
  function UndatedRun(m: Maths, info: PlayerInfo, p0: PlayerState, ops: seq<Op>): (r: seq<Op>)
    ensures |r| == |ops|
    decreases |ops|
  {
    hide Apply, Undated;
    if ops == [] then []
    else [Undated(p0, ops[0])] + UndatedRun(m, info, Apply(m, info, p0, ops[0]), ops[1..])
  }

  lemma NextStep(m: Maths, info: PlayerInfo, p: PlayerState, act: Act)
    ensures TakeAct(m, info, p, None, act) == Took(p.(acts := p.acts + [act]), [])
  {
  }

  lemma TooLateIsUndated(m: Maths, info: PlayerInfo, p: PlayerState, op: Op)
    ensures Apply(m, info, p, Undated(p, op)) == Apply(m, info, p, op)
    ensures HandedOn(m, info, p, Undated(p, op)) == HandedOn(m, info, p, op)
  {
    hide Rewind, PlayerStep, DotCalls, Clean, Masked, TakeAct;
    if TooLate(p, op) {
      var q, msg := Numbered(p, op.msg.seqNo), op.msg;
      UncleanActWaits(m, info, q, msg.at.value, ActOf(msg.ask).value);
      assert TakeAct(m, info, q, msg.at, ActOf(msg.ask).value) == TakeAct(m, info, q, None, ActOf(msg.ask).value) by {
        NextStep(m, info, q, ActOf(msg.ask).value);
      }
      assert q.(keys := q.keys) == q;
    }
  }

  /** In every run, an act too late for its window is an act of the next step: take
      the step out of every such message, and the player and all that is handed on
      are the same throughout. */
  lemma {:induction false} LateActsWait(m: Maths, info: PlayerInfo, p0: PlayerState, ops: seq<Op>, k: nat)
    requires k <= |ops|
    ensures var r := UndatedRun(m, info, p0, ops);
      PlayerAt(m, info, p0, r, k) == PlayerAt(m, info, p0, ops, k)
        && ToldBy(m, info, p0, r, k) == ToldBy(m, info, p0, ops, k)
  {
    hide Apply, HandedOn, Undated;
    if k > 0 {
      LateActsWait(m, info, p0, ops, k - 1);
      UndatedAt(m, info, p0, ops, k - 1);
      TooLateIsUndated(m, info, PlayerAt(m, info, p0, ops, k - 1), ops[k - 1]);
    }
  }

  lemma {:induction false} UndatedAt(m: Maths, info: PlayerInfo, p0: PlayerState, ops: seq<Op>, k: nat)
    requires k < |ops|
    ensures UndatedRun(m, info, p0, ops)[k] == Undated(PlayerAt(m, info, p0, ops, k), ops[k])
    decreases k
  {
    hide Apply, Undated;
    if k > 0 {
      UndatedAt(m, info, Apply(m, info, p0, ops[0]), ops[1..], k - 1);
      OneLater(m, info, p0, ops, k);
    }
  }

  /** A run's player after k operations, told from the one after its first. */
  lemma {:induction false} OneLater(m: Maths, info: PlayerInfo, p0: PlayerState, ops: seq<Op>, k: nat)
    requires 1 <= k <= |ops|
    ensures PlayerAt(m, info, p0, ops, k) == PlayerAt(m, info, Apply(m, info, p0, ops[0]), ops[1..], k - 1)
    decreases k
  {
    hide Apply;
    if k > 1 { OneLater(m, info, p0, ops, k - 1); }
  }
}
