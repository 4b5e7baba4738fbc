/** Within an encounter, each player has a run of its own: its steps with the blows
    that fell on it, its inputs, and the volleys stopped. What is proved of such
    runs holds in every encounter. */
module FighterRuns {
  import opened Basics
  import opened Balance
  import opened Fights
  import opened RollbackRuns
  import opened StepOrder
  import opened Encounters
  import opened Overdue

  /** A player in the fight. */
  function Found(e: Encounter, pid: string): Option<Fighter> {
    var k := PlayerIndex(e.fighters, pid);
    if k == None then None else Some(e.fighters[k.value])
  }

  /** What a number of steps are to a player. */
  function StepOps(m: Maths, e: Encounter, roll: Roll, k: nat, pid: string): seq<Op> {
    if k == 0 then []
    else
      var at := RunSteps(m, e, roll, k - 1).e;
      StepOps(m, e, roll, k - 1, pid)
        + [StepOp(at.step + 1, Mine(LandingsOf(at, at.step + 1, roll), pid), BossNids(at.npcs))]
  }

  /** What a happening is to a player. */
  function OpsOf(m: Maths, e: Encounter, h: Happening, pid: string): seq<Op> {
    match h
    case Tick(roll, now) => StepOps(m, e.(late := []), roll, ToRun(e, now), pid)
    case StrikeDone(who, target, reply) => StrikeOps(e, who, target, reply, pid)
    case InputTaken(who, msg) => if who == pid then [MessageOp(msg)] else []
    case NpcLeaves(nid) => [StopOp(Some("npc:" + nid))]
    case _ => []
  }

  /** A strike that stops volleys: the striker's own at a target now gone, everyone's at an NPC killed. */
  function StrikeOps(e: Encounter, who: string, target: string, reply: StrikeReply, pid: string): seq<Op> {
    var npc := StruckNpc(e.npcs, target);
    if PlayerIndex(e.fighters, who) == None then []
    else if reply.gone then (if who == pid then [StopOp(Some(target))] else [])
    else if npc.Some? && reply.killed then [StopOp(Some("npc:" + e.npcs[npc.value].nid))]
    else []
  }

  /** The player after some operations. */
  function AfterOps(m: Maths, f: Fighter, ops: seq<Op>): Fighter {
    f.(p := PlayerAt(m, f.info, f.p, ops, |ops|))
  }

  lemma {:induction false} PlayerAtConcat(m: Maths, info: PlayerInfo, p: PlayerState, a: seq<Op>, b: seq<Op>, k: nat)
    requires k <= |b|
    ensures PlayerAt(m, info, p, a + b, |a| + k) == PlayerAt(m, info, PlayerAt(m, info, p, a, |a|), b, k)
    decreases k
  {
    hide Apply;
    if k == 0 {
      PlayerAtPrefix(m, info, p, a, b, |a|);
    } else {
      PlayerAtConcat(m, info, p, a, b, k - 1);
      assert (a + b)[|a| + k - 1] == b[k - 1];
    }
  }

  lemma {:induction false} PlayerAtPrefix(m: Maths, info: PlayerInfo, p: PlayerState, a: seq<Op>, b: seq<Op>, k: nat)
    requires k <= |a|
    ensures PlayerAt(m, info, p, a + b, k) == PlayerAt(m, info, p, a, k)
    decreases k
  {
    hide Apply;
    if k > 0 { PlayerAtPrefix(m, info, p, a, b, k - 1); }
  }

  lemma AfterBoth(m: Maths, f: Fighter, a: seq<Op>, b: seq<Op>)
    ensures AfterOps(m, f, a + b) == AfterOps(m, AfterOps(m, f, a), b)
  {
    hide PlayerAt;
    PlayerAtConcat(m, f.info, f.p, a, b, |b|);
  }

  lemma AfterNone(m: Maths, f: Fighter)
    ensures AfterOps(m, f, []) == f
  {
  }

  lemma AfterOne(m: Maths, f: Fighter, op: Op)
    ensures AfterOps(m, f, [op]) == f.(p := Apply(m, f.info, f.p, op))
  {
    hide Apply;
    assert PlayerAt(m, f.info, f.p, [op], 0) == f.p;
  }

  // One happening --------------------------------------------------------------------------------

  /** The same players in the same places. */
  ghost predicate SameInfos(a: seq<Fighter>, b: seq<Fighter>) {
    |a| == |b| && forall i :: 0 <= i < |a| ==> a[i].info == b[i].info
  }

  lemma IndexIs(fighters: seq<Fighter>, pid: string, k: nat)
    requires k < |fighters| && fighters[k].info.pid == pid
    requires forall i :: 0 <= i < k ==> fighters[i].info.pid != pid
    ensures PlayerIndex(fighters, pid) == Some(k)
  {
    hide PlayerIndex;
  }

  lemma NotThere(fighters: seq<Fighter>, pid: string)
    requires forall i :: 0 <= i < |fighters| ==> fighters[i].info.pid != pid
    ensures PlayerIndex(fighters, pid) == None
  {
    hide PlayerIndex;
  }

  lemma SamePlace(a: seq<Fighter>, b: seq<Fighter>, pid: string)
    requires SameInfos(a, b)
    ensures PlayerIndex(a, pid) == PlayerIndex(b, pid)
  {
    hide PlayerIndex;
    assert forall i :: 0 <= i < |b| ==> b[i].info == a[i].info;
    var k := PlayerIndex(a, pid);
    if k.Some? { IndexIs(b, pid, k.value); } else { NotThere(b, pid); }
  }

  lemma StepOfFighter(m: Maths, e: Encounter, n: int, roll: Roll, pid: string)
    requires Found(e, pid).Some?
    ensures Found(EncounterNext(m, e, n, roll), pid) ==
      Some(AfterOps(m, Found(e, pid).value, [StepOp(n, Mine(LandingsOf(e, n, roll), pid), BossNids(e.npcs))]))
  {
    hide PlayerStep, PlayerIndex, LandingsOf, Mine, BossNids, NpcsNext, FightersNext, AfterOps;
    var o := EncounterNext(m, e, n, roll);
    SamePlace(e.fighters, o.fighters, pid);
    AfterOne(m, Found(e, pid).value, StepOp(n, Mine(LandingsOf(e, n, roll), pid), BossNids(e.npcs)));
  }

  lemma {:induction false} StepsOfFighter(m: Maths, e: Encounter, roll: Roll, k: nat, pid: string)
    requires Found(e, pid).Some?
    ensures Found(RunSteps(m, e, roll, k).e, pid) == Some(AfterOps(m, Found(e, pid).value, StepOps(m, e, roll, k, pid)))
    decreases k
  {
    hide Found, AfterOps, EncounterNext, StepCalls, LandingsOf, Mine, BossNids;
    if k == 0 {
      AfterNone(m, Found(e, pid).value);
    } else {
      var at := RunSteps(m, e, roll, k - 1).e;
      StepsOfFighter(m, e, roll, k - 1, pid);
      StepOfFighter(m, at, at.step + 1, roll, pid);
      AfterBoth(m, Found(e, pid).value, StepOps(m, e, roll, k - 1, pid),
                [StepOp(at.step + 1, Mine(LandingsOf(at, at.step + 1, roll), pid), BossNids(at.npcs))]);
    }
  }

  /** The fighters are all that finding a player looks at. */
  lemma FoundIn(a: Encounter, b: Encounter, pid: string)
    requires a.fighters == b.fighters
    ensures Found(a, pid) == Found(b, pid)
  {
    hide PlayerIndex;
  }

  lemma TickOfFighter(m: Maths, e: Encounter, roll: Roll, now: int, pid: string)
    requires Found(e, pid).Some?
    ensures Found(Ticked(m, e, roll, now).e, pid)
      == Some(AfterOps(m, Found(e, pid).value, OpsOf(m, e, Tick(roll, now), pid)))
  {
    hide Found, AfterOps, RunSteps, StepOps, NpcsSkipped, ToRun;
    var e1 := e.(late := []);
    FoundIn(e, e1, pid);
    StepsOfFighter(m, e1, roll, ToRun(e, now), pid);
    FoundIn(RunSteps(m, e1, roll, ToRun(e, now)).e, Ticked(m, e, roll, now).e, pid);
  }

  lemma StopOfFighter(m: Maths, e: Encounter, target: Option<string>, pid: string)
    requires Found(e, pid).Some?
    ensures Found(e.(fighters := AllCancelled(e.fighters, target)), pid)
      == Some(AfterOps(m, Found(e, pid).value, [StopOp(target)]))
  {
    hide PlayerIndex, AllCancelled, AfterOps, Cancelled;
    SamePlace(e.fighters, AllCancelled(e.fighters, target), pid);
    AfterOne(m, Found(e, pid).value, StopOp(target));
  }

  /** One player changed, the rest as they were. */
  lemma OneChanged(e: Encounter, k: nat, f: Fighter, pid: string)
    requires k < |e.fighters| && f.info == e.fighters[k].info && PlayerIndex(e.fighters, f.info.pid) == Some(k)
    ensures Found(e.(fighters := e.fighters[k := f]), pid) == if pid == f.info.pid then Some(f) else Found(e, pid)
  {
    hide PlayerIndex;
    SamePlace(e.fighters, e.fighters[k := f], pid);
  }

  lemma StrikeOfFighter(m: Maths, e: Encounter, who: string, target: string, reply: StrikeReply, pid: string)
    requires Found(e, pid).Some?
    ensures Found(EncounterStruck(e, who, target, reply), pid) ==
      Some(AfterOps(m, Found(e, pid).value, StrikeOps(e, who, target, reply, pid)))
  {
    hide PlayerIndex, AfterOps, NpcStruck, Cancelled, AllCancelled, IndexOf, Found, Without;
    AfterNone(m, Found(e, pid).value);
    var k, npc := PlayerIndex(e.fighters, who), StruckNpc(e.npcs, target);
    var o := EncounterStruck(e, who, target, reply);
    if k == None {
    } else if reply.gone {
      OneChanged(e, k.value, FighterCancelled(e.fighters[k.value], Some(target)), pid);
      if who == pid {
        FoundAt(e, pid);
        AfterOne(m, e.fighters[k.value], StopOp(Some(target)));
      }
    } else if npc.Some? && reply.killed {
      var t := Some("npc:" + e.npcs[npc.value].nid);
      StopOfFighter(m, e, t, pid);
      FoundIn(e.(fighters := AllCancelled(e.fighters, t)), o, pid);
    } else {
      FoundIn(e, o, pid);
    }
  }

  lemma FoundAt(e: Encounter, pid: string)
    ensures var k := PlayerIndex(e.fighters, pid);
      Found(e, pid) == if k == None then None else Some(e.fighters[k.value])
  {
    hide PlayerIndex;
  }

  lemma InputOfFighter(m: Maths, e: Encounter, who: string, msg: Message, pid: string)
    requires Found(e, pid).Some?
    ensures Found(EncounterInput(m, e, who, msg), pid) ==
      Some(AfterOps(m, Found(e, pid).value, if who == pid then [MessageOp(msg)] else []))
  {
    hide PlayerIndex, AfterOps, TakeMessage, Found;
    AfterNone(m, Found(e, pid).value);
    var k := PlayerIndex(e.fighters, who);
    var o := EncounterInput(m, e, who, msg);
    if k.Some? {
      var f := e.fighters[k.value];
      var g := f.(p := TakeMessage(m, f.info, f.p, msg).p);
      OneChanged(e, k.value, g, pid);
      FoundIn(e.(fighters := e.fighters[k.value := g]), o, pid);
      FoundAt(e, pid);
      AfterOne(m, f, MessageOp(msg));
    } else {
      FoundAt(e, pid);
    }
  }

  lemma JoinOfFighter(e: Encounter, f: Fighter, pid: string)
    requires Found(e, pid).Some?
    ensures Found(e.(fighters := e.fighters + [f]), pid) == Found(e, pid)
  {
    hide PlayerIndex;
    var more := e.fighters + [f];
    IndexIs(more, pid, PlayerIndex(e.fighters, pid).value);
  }

  lemma LeaveOfFighter(e: Encounter, who: string, pid: string)
    requires Found(e, pid).Some? && who != pid
    ensures Found(PlayerDropped(e, who), pid) == Found(e, pid)
  {
    hide PlayerIndex;
    var k := PlayerIndex(e.fighters, who);
    if k.Some? {
      var rest := Without(e.fighters, k.value);
      var i := PlayerIndex(e.fighters, pid).value;
      assert i != k.value;
      IndexIs(rest, pid, if i < k.value then i else i - 1);
    }
  }

  /** Whatever happens in an encounter is, to a player who stays, these operations. */
  lemma HappeningOfFighter(m: Maths, e: Encounter, h: Happening, pid: string)
    requires Found(e, pid).Some? && h != PlayerLeaves(pid)
    ensures Found(After(m, e, h), pid) == Some(AfterOps(m, Found(e, pid).value, OpsOf(m, e, h, pid)))
  {
    hide Found, AfterOps, Ticked, EncounterStruck, EncounterInput, StrikeOps, StepOps, JoiningNpc, AllCancelled,
      PlayerDropped, NpcPoised, IndexOf, Without;
    AfterNone(m, Found(e, pid).value);
    match h
    case Tick(roll, now) => TickOfFighter(m, e, roll, now, pid);
    case StrikeDone(who, target, reply) => StrikeOfFighter(m, e, who, target, reply, pid);
    case BlockedPerfectly(nid) => FoundIn(e, After(m, e, h), pid);
    case InputTaken(who, msg) => InputOfFighter(m, e, who, msg, pid);
    case NpcJoins(_, _, _, _, _) => FoundIn(e, After(m, e, h), pid);
    case NpcLeaves(nid) =>
      StopOfFighter(m, e, Some("npc:" + nid), pid);
      FoundIn(e.(fighters := AllCancelled(e.fighters, Some("npc:" + nid))), After(m, e, h), pid);
    case PlayerJoins(f) => JoinOfFighter(e, f, pid);
    case PlayerLeaves(who) => LeaveOfFighter(e, who, pid);
  }

  // Whole runs -----------------------------------------------------------------------------------

  /** What the first k happenings of a run are to a player. */
  function OpsAt(m: Maths, e0: Encounter, run: seq<Happening>, k: nat, pid: string): seq<Op>
    requires k <= |run|
  {
    if k == 0 then [] else OpsAt(m, e0, run, k - 1, pid) + OpsOf(m, EncounterAt(m, e0, run, k - 1), run[k - 1], pid)
  }

  /** In every run of an encounter, a player who stays stands as after its own run
      of steps, inputs and stops. */
  lemma {:induction false} FighterHasItsRun(m: Maths, e0: Encounter, run: seq<Happening>, k: nat, pid: string)
    requires k <= |run| && Found(e0, pid).Some?
    requires forall i :: 0 <= i < k ==> run[i] != PlayerLeaves(pid)
    ensures Found(EncounterAt(m, e0, run, k), pid) == Some(AfterOps(m, Found(e0, pid).value, OpsAt(m, e0, run, k, pid)))
  {
    hide Found, AfterOps, After, OpsOf;
    if k == 0 {
      AfterNone(m, Found(e0, pid).value);
    } else {
      FighterHasItsRun(m, e0, run, k - 1, pid);
      var e := EncounterAt(m, e0, run, k - 1);
      HappeningOfFighter(m, e, run[k - 1], pid);
      AfterBoth(m, Found(e0, pid).value, OpsAt(m, e0, run, k - 1, pid), OpsOf(m, e, run[k - 1], pid));
    }
  }

  // In order -------------------------------------------------------------------------------------

  /** The steps among some operations are in order, after one step and up to another. */
  ghost predicate Between(ops: seq<Op>, lo: int, hi: int) {
    InOrder(ops) && forall i :: 0 <= i < |ops| && ops[i].StepOp? ==> lo < ops[i].n <= hi
  }

  lemma BetweenBoth(a: seq<Op>, b: seq<Op>, lo: int, mid: int, hi: int)
    requires lo <= mid <= hi && Between(a, lo, mid) && Between(b, mid, hi)
    ensures Between(a + b, lo, hi)
  {
    var ops := a + b;
    forall i, j | 0 <= i < j < |ops| && ops[i].StepOp? && ops[j].StepOp? ensures ops[i].n < ops[j].n {
      if j < |a| { assert a[i].n < a[j].n; }
      else if i >= |a| { assert b[i - |a|].n < b[j - |a|].n; }
      else { assert a[i].n <= mid < b[j - |a|].n; }
    }
    forall i | 0 <= i < |ops| && ops[i].StepOp? ensures lo < ops[i].n <= hi {
      if i < |a| { assert lo < a[i].n <= mid; } else { assert mid < b[i - |a|].n <= hi; }
    }
  }

  lemma {:induction false} StepsInOrder(m: Maths, e: Encounter, roll: Roll, k: nat, pid: string)
    ensures RunSteps(m, e, roll, k).e.step == e.step + k
    ensures Between(StepOps(m, e, roll, k, pid), e.step, e.step + k)
    decreases k
  {
    hide EncounterNext, StepCalls, LandingsOf, Mine, BossNids, InOrder;
    if k == 0 {
      NothingInOrder();
    } else {
      StepsInOrder(m, e, roll, k - 1, pid);
      var at := RunSteps(m, e, roll, k - 1).e;
      OneStepOn(m, at, roll);
      var last := StepOp(at.step + 1, Mine(LandingsOf(at, at.step + 1, roll), pid), BossNids(at.npcs));
      OneInOrder(last);
      BetweenBoth(StepOps(m, e, roll, k - 1, pid), [last], e.step, e.step + k - 1, e.step + k);
    }
  }

  lemma NothingInOrder()
    ensures InOrder([])
  {
  }

  lemma OneInOrder(op: Op)
    ensures InOrder([op])
  {
  }

  lemma HappeningInOrder(m: Maths, e: Encounter, h: Happening, pid: string)
    ensures e.step <= After(m, e, h).step
    ensures Between(OpsOf(m, e, h, pid), e.step, After(m, e, h).step)
  {
    hide RunSteps, StepOps, TakeMessage, AllCancelled, NpcStruck, NpcPoised, JoiningNpc, NpcsSkipped;
    if h.Tick? { StepsInOrder(m, e.(late := []), h.roll, ToRun(e, h.now), pid); }
  }

  lemma {:induction false} RunInOrder(m: Maths, e0: Encounter, run: seq<Happening>, k: nat, pid: string)
    requires k <= |run|
    ensures e0.step <= EncounterAt(m, e0, run, k).step
    ensures Between(OpsAt(m, e0, run, k, pid), e0.step, EncounterAt(m, e0, run, k).step)
  {
    hide After, OpsOf, InOrder;
    if k == 0 {
      NothingInOrder();
    } else {
      RunInOrder(m, e0, run, k - 1, pid);
      var e := EncounterAt(m, e0, run, k - 1);
      HappeningInOrder(m, e, run[k - 1], pid);
      BetweenBoth(OpsAt(m, e0, run, k - 1, pid), OpsOf(m, e, run[k - 1], pid), e0.step, e.step,
                  EncounterAt(m, e0, run, k).step);
    }
  }
}
