/** The oldest snapshot kept of a player is what's published; it's out of every late
    input's reach. */
module Published {
  import opened Basics
  import opened Balance
  import opened Snapshots
  import opened Fights
  import opened RollbackRuns

  /** The published snapshot: the oldest kept, or the dot's own before its first step. */
  function OldestSnap(p: PlayerState): Snapshot {
    if p.history != [] then p.history[0].snap else SnapshotOf(p.dot)
  }

  /** Every snapshot in the entries was taken from a dot. */
  ghost predicate AllTaken(entries: seq<Entry>) {
    forall i :: 0 <= i < |entries| ==> IsSnapshot(entries[i].snap)
  }

  lemma ReplayOneTaken(m: Maths, info: PlayerInfo, scratch: DotState, sealed: bool, e: Entry, r: Revision, clean: bool)
    ensures var one := ReplayOne(m, info, scratch, sealed, e, r, clean);
      |one.history| == 1 && one.history[0].snap == SnapshotOf(scratch) && IsSnapshot(one.history[0].snap)
  {
    hide Step, Reportable, SnapshotOf, IsSnapshot;
    SnapshotsAreSnapshots(scratch);
  }

  lemma {:induction false} ReplayTaken(m: Maths, info: PlayerInfo, scratch: DotState, sealed: bool, es: seq<Entry>,
                                       at: int, r: Revision, clean: bool)
    requires AllTaken(es)
    ensures AllTaken(ReplayAll(m, info, scratch, sealed, es, at, r, clean).history)
    decreases |es|
  {
    hide ReplayOne, IsSnapshot;
    if es != [] {
      assert AllTaken(es[1..]);
      if es[0].step < at {
        ReplayTaken(m, info, scratch, sealed, es[1..], at, r, clean);
      } else {
        ReplayOneTaken(m, info, scratch, sealed, es[0], r, clean);
        var one := ReplayOne(m, info, scratch, sealed, es[0], r, clean);
        ReplayTaken(m, info, one.scratch, one.sealed, es[1..], at, r.(act := None), clean);
      }
    }
  }

  lemma ReplayKeepsOldest(m: Maths, info: PlayerInfo, scratch: DotState, sealed: bool, es: seq<Entry>, at: int,
                          r: Revision, clean: bool)
    requires es != [] && (es[0].step >= at ==> SnapshotOf(scratch) == es[0].snap)
    ensures var h := ReplayAll(m, info, scratch, sealed, es, at, r, clean).history; h != [] && h[0].snap == es[0].snap
  {
    hide ReplayOne, SnapshotOf;
    if es[0].step >= at { ReplayOneTaken(m, info, scratch, sealed, es[0], r, clean); }
  }

  lemma FirstOfWindow(history: seq<Entry>, at: int)
    requires history != [] && history[0].step >= at
    ensures From(history, at) != [] && From(history, at)[0] == history[0]
  {
  }

  /** No rewind, clean or not, changes the window's oldest snapshot. */
  lemma RewindKeepsOldest(m: Maths, info: PlayerInfo, p: PlayerState, at: int, r: Revision)
    requires AllTaken(p.history)
    ensures var o := Rewind(m, info, p, at, r).p; AllTaken(o.history) && OldestSnap(o) == OldestSnap(p)
  {
    hide ReplayAll, Restored, SnapshotOf, Clean, From, IsSnapshot;
    if CanRewind(p, at) {
      WindowNotEmpty(p.history, at);
      var clean := Clean(p.history, at);
      var first := From(p.history, at)[0].snap;
      var start := Restored(p.scratch, first);
      ReplayTaken(m, info, start, p.sealed, p.history, at, r, clean);
      SnapshotRestored(p.scratch, first);
      if p.history[0].step >= at { FirstOfWindow(p.history, at); }
      ReplayKeepsOldest(m, info, start, p.sealed, p.history, at, r, clean);
    }
  }

  ghost predicate SamePublished(p: PlayerState, q: PlayerState) {
    AllTaken(q.history) && OldestSnap(q) == OldestSnap(p)
  }

  lemma TakeKeysPublishes(m: Maths, info: PlayerInfo, p: PlayerState, at: Option<int>, keys: Keys)
    requires AllTaken(p.history)
    ensures SamePublished(p, TakeKeys(m, info, p, at, keys).p)
  {
    hide Rewind, AllTaken, SnapshotOf;
    if at.Some? { RewindKeepsOldest(m, info, p, at.value, Revision(Some(keys), None)); }
  }

  lemma TakeAskPublishes(m: Maths, info: PlayerInfo, p: PlayerState, at: Option<int>, ask: Ask)
    requires AllTaken(p.history)
    ensures SamePublished(p, TakeAsk(m, info, p, at, ask).p)
  {
    hide Rewind, AllTaken, SnapshotOf, TakeAct;
    if ActOf(ask).Some? {
      TakeActPublishes(m, info, p, at, ActOf(ask).value);
    } else {
      OtherAsk(m, info, p, at, ask);
    }
  }

  lemma TakeActPublishes(m: Maths, info: PlayerInfo, p: PlayerState, at: Option<int>, act: Act)
    requires AllTaken(p.history)
    ensures SamePublished(p, TakeAct(m, info, p, at, act).p)
  {
    hide Rewind, AllTaken, SnapshotOf;
    if at.Some? { RewindKeepsOldest(m, info, p, at.value, Revision(None, Some(act))); }
  }

  lemma MessagePublishes(m: Maths, info: PlayerInfo, p: PlayerState, msg: Message)
    requires AllTaken(p.history)
    ensures SamePublished(p, TakeMessage(m, info, p, msg).p)
  {
    hide TakeKeys, TakeAsk, AllTaken, SnapshotOf, Masked;
    var p1 := Numbered(p, msg.seqNo);
    if msg.keys.Some? {
      TakeKeysPublishes(m, info, p1, msg.at, Masked(msg.keys.value));
      TakeAskPublishes(m, info, TakeKeys(m, info, p1, msg.at, Masked(msg.keys.value)).p, msg.at, msg.ask);
    } else {
      TakeAskPublishes(m, info, p1, msg.at, msg.ask);
    }
  }

  lemma StepTaken(m: Maths, info: PlayerInfo, p: PlayerState, n: int, mine: seq<Incoming>, bosses: set<string>)
    requires AllTaken(p.history)
    ensures AllTaken(PlayerStep(m, info, p, n, mine, bosses).p.history)
  {
    hide Step, Reportable, FleeCalls, BlowsOf, SnapshotOf, IsSnapshot;
    SnapshotsAreSnapshots(p.dot);
  }

  lemma {:induction false} RunTaken(m: Maths, info: PlayerInfo, p0: PlayerState, ops: seq<Op>, k: nat)
    requires p0.history == [] && k <= |ops|
    ensures AllTaken(PlayerAt(m, info, p0, ops, k).history)
  {
    hide PlayerStep, TakeMessage, IsSnapshot;
    if k > 0 {
      RunTaken(m, info, p0, ops, k - 1);
      var p := PlayerAt(m, info, p0, ops, k - 1);
      match ops[k - 1]
      case StepOp(n, mine, bosses) => StepTaken(m, info, p, n, mine, bosses);
      case MessageOp(msg) => MessagePublishes(m, info, p, msg);
      case StopOp(_) =>
    }
  }

  /** In every run, no input, however late, changes what is published of the dot:
      the oldest snapshot kept, or before its first step the dot as it stands. */
  lemma NoInputChangesThePublished(m: Maths, info: PlayerInfo, p0: PlayerState, ops: seq<Op>, k: nat, msg: Message)
    requires p0.history == [] && k <= |ops|
    ensures var p := PlayerAt(m, info, p0, ops, k); OldestSnap(TakeMessage(m, info, p, msg).p) == OldestSnap(p)
  {
    hide TakeMessage, Apply, AllTaken, OldestSnap;
    RunTaken(m, info, p0, ops, k);
    MessagePublishes(m, info, PlayerAt(m, info, p0, ops, k), msg);
  }
}
