/** What an encounter hands on to the rules over a whole run, and what it has still
    to hand on, against what each of its players' own operations told. */
module Handovers {
  import opened Basics
  import opened Balance
  import opened Fights
  import opened Rollback
  import opened RollbackRuns
  import opened Conservation
  import opened StepOrder
  import opened InTimeRuns
  import opened Encounters
  import opened Overdue
  import opened Landings
  import opened FighterRuns
  import opened Sent

  /** The calls of a happening's tick. */
  function TickCalls(m: Maths, e: Encounter, h: Happening): seq<Call> {
    if h.Tick? then Ticked(m, e, h.roll, h.now).calls else []
  }

  /** The calls of every tick among the first k happenings, in order. */
  function CallsAt(m: Maths, e0: Encounter, run: seq<Happening>, k: nat): seq<Call>
    requires k <= |run|
  {
    if k == 0 then [] else CallsAt(m, e0, run, k - 1) + TickCalls(m, EncounterAt(m, e0, run, k - 1), run[k - 1])
  }

  /** What ticks have handed on, and what waits for the next one. */
  function SentAt(m: Maths, e0: Encounter, run: seq<Happening>, k: nat): seq<Call>
    requires k <= |run|
  {
    CallsAt(m, e0, run, k) + EncounterAt(m, e0, run, k).late
  }

  /** What a happening adds to that: its steps' calls, or its rewinds'. */
  function More(m: Maths, e: Encounter, h: Happening): seq<Call> {
    match h
    case Tick(roll, now) => RunSteps(m, e.(late := []), roll, ToRun(e, now)).calls
    case InputTaken(who, msg) =>
      var k := PlayerIndex(e.fighters, who);
      if k == None then [] else TakeMessage(m, e.fighters[k.value].info, e.fighters[k.value].p, msg).late
    case _ => []
  }

  /** A happening loses none of the calls waiting and hands none on twice. */
  lemma SentGrows(m: Maths, e0: Encounter, run: seq<Happening>, k: nat)
    requires k < |run|
    ensures SentAt(m, e0, run, k + 1) == SentAt(m, e0, run, k) + More(m, EncounterAt(m, e0, run, k), run[k])
  {
    hide RunSteps, EncounterAt, TakeMessage, PlayerIndex;
    var e, h := EncounterAt(m, e0, run, k), run[k];
    assert EncounterAt(m, e0, run, k + 1) == After(m, e, h) by { OneAfter(m, e0, run, k); }
    LateAfter(m, e, h);
  }

  lemma OneAfter(m: Maths, e0: Encounter, run: seq<Happening>, k: nat)
    requires k < |run|
    ensures EncounterAt(m, e0, run, k + 1) == After(m, EncounterAt(m, e0, run, k), run[k])
  {
    hide After;
  }

  lemma LateAfter(m: Maths, e: Encounter, h: Happening)
    ensures TickCalls(m, e, h) + After(m, e, h).late == e.late + More(m, e, h)
  {
    hide RunSteps, TakeMessage, PlayerIndex, NpcsSkipped, NpcStruck, AllCancelled, IndexOf, NpcPoised, JoiningNpc;
    if h.Tick? { LateSteps(m, e.(late := []), h.roll, ToRun(e, h.now)); }
  }

  lemma {:induction false} LateSteps(m: Maths, e: Encounter, roll: Roll, k: nat)
    ensures RunSteps(m, e, roll, k).e.late == e.late
    decreases k
  {
    hide StepCalls, EncounterNext;
    if k > 0 {
      LateSteps(m, e, roll, k - 1);
      LateStep(m, RunSteps(m, e, roll, k - 1).e, roll);
    }
  }

  lemma LateStep(m: Maths, e: Encounter, roll: Roll)
    ensures EncounterNext(m, e, e.step + 1, roll).late == e.late
  {
    hide FightersNext, NpcsNext, LandingsOf, BossNids, FirstPid, Infos;
  }

  // No one twice -----------------------------------------------------------------------------

  lemma SameInfosDistinct(a: seq<Fighter>, b: seq<Fighter>)
    requires SameInfos(a, b) && Distinct(a)
    ensures Distinct(b)
  {
    forall i, j | 0 <= i < j < |b| ensures b[i].info.pid != b[j].info.pid {
      assert a[i].info == b[i].info && a[j].info == b[j].info;
    }
  }

  lemma InfosTheSame(a: seq<Fighter>, b: seq<Fighter>, c: seq<Fighter>)
    ensures SameInfos(a, a)
    ensures SameInfos(a, b) && SameInfos(b, c) ==> SameInfos(a, c)
  {
    if SameInfos(a, b) && SameInfos(b, c) {
      forall i | 0 <= i < |a| ensures a[i].info == c[i].info { assert a[i].info == b[i].info; }
    }
  }

  lemma {:induction false} StepsSameInfos(m: Maths, e: Encounter, roll: Roll, k: nat)
    ensures SameInfos(e.fighters, RunSteps(m, e, roll, k).e.fighters)
    decreases k
  {
    hide StepCalls, EncounterNext, SameInfos;
    if k == 0 {
      InfosTheSame(e.fighters, e.fighters, e.fighters);
    } else {
      StepsSameInfos(m, e, roll, k - 1);
      var at := RunSteps(m, e, roll, k - 1).e;
      StepSameInfos(m, at, at.step + 1, roll);
      InfosTheSame(e.fighters, at.fighters, EncounterNext(m, at, at.step + 1, roll).fighters);
    }
  }

  lemma StepSameInfos(m: Maths, e: Encounter, n: int, roll: Roll)
    ensures SameInfos(e.fighters, EncounterNext(m, e, n, roll).fighters)
  {
    hide FightersNext, NpcsNext, LandingsOf, PlayerStep, BossNids, Mine;
  }

  /** A joining player is none of those there. */
  lemma JoinDistinct(fighters: seq<Fighter>, f: Fighter)
    requires Distinct(fighters) && PlayerIndex(fighters, f.info.pid) == None
    ensures Distinct(fighters + [f])
  {
    hide PlayerIndex;
  }

  lemma LeaveDistinct(fighters: seq<Fighter>, k: nat)
    requires Distinct(fighters) && k < |fighters|
    ensures Distinct(Without(fighters, k))
  {
    var rest := Without(fighters, k);
    forall i, j | 0 <= i < j < |rest| ensures rest[i].info.pid != rest[j].info.pid {
      assert rest[i] == fighters[if i < k then i else i + 1] && rest[j] == fighters[if j < k then j else j + 1];
    }
  }

  /** No one is in a fight twice, whatever happens. */
  lemma HappeningKeepsDistinct(m: Maths, e: Encounter, h: Happening)
    requires Distinct(e.fighters) && Happens(e, h)
    ensures Distinct(After(m, e, h).fighters)
  {
    hide Distinct, RunSteps, TakeMessage, PlayerIndex, IndexOf, Without, NpcStruck, NpcPoised, JoiningNpc, AllCancelled;
    var o := After(m, e, h);
    if h.PlayerJoins? {
      JoinDistinct(e.fighters, h.fighter);
    } else if h.PlayerLeaves? {
      var k := PlayerIndex(e.fighters, h.pid);
      if k.Some? { LeaveDistinct(e.fighters, k.value); }
    } else {
      if h.Tick? { StepsSameInfos(m, e.(late := []), h.roll, ToRun(e, h.now)); }
      SameInfosDistinct(e.fighters, o.fighters);
    }
  }

  /** Every happening of a run is one that happens. */
  ghost predicate AllHappen(m: Maths, e0: Encounter, run: seq<Happening>, k: nat)
    requires k <= |run|
  {
    forall i :: 0 <= i < k ==> Happens(EncounterAt(m, e0, run, i), run[i])
  }

  lemma {:induction false} RunKeepsDistinct(m: Maths, e0: Encounter, run: seq<Happening>, k: nat)
    requires k <= |run| && Distinct(e0.fighters) && AllHappen(m, e0, run, k)
    ensures Distinct(EncounterAt(m, e0, run, k).fighters)
    decreases k
  {
    hide Distinct, Happens, After;
    if k > 0 {
      RunKeepsDistinct(m, e0, run, k - 1);
      HappeningKeepsDistinct(m, EncounterAt(m, e0, run, k - 1), run[k - 1]);
    }
  }

  // A step's calls, player by player -----------------------------------------------------------

  /** What a step hands on of a player, if they're among these. */
  function StepOutOf(m: Maths, fighters: seq<Fighter>, n: int, landings: seq<Landing>, bosses: set<string>,
                     pid: string): seq<Call> {
    var k := PlayerIndex(fighters, pid);
    if k == None then []
    else PlayerStep(m, fighters[k.value].info, fighters[k.value].p, n, Mine(landings, pid), bosses).calls
  }

  lemma IndexOfRest(fighters: seq<Fighter>, pid: string)
    requires fighters != []
    ensures fighters[0].info.pid == pid ==> PlayerIndex(fighters, pid) == Some(0)
    ensures fighters[0].info.pid != pid ==>
      var k := PlayerIndex(fighters[1..], pid);
      PlayerIndex(fighters, pid) == if k == None then None else Some(k.value + 1)
  {
  }

  lemma {:induction false} OwnOfPlayers(m: Maths, fighters: seq<Fighter>, n: int, landings: seq<Landing>,
                                        bosses: set<string>, pid: string)
    requires Distinct(fighters)
    ensures Own(pid, PlayerCalls(m, fighters, n, landings, bosses)) == StepOutOf(m, fighters, n, landings, bosses, pid)
    ensures !PoiseFirst(PlayerCalls(m, fighters, n, landings, bosses))
    decreases |fighters|
  {
    hide PlayerStep, Mine, Own, AllOwn, PlayerIndex;
    if fighters == [] {
      NothingOwned(pid);
      NotThere([], pid);
    } else {
      var f := fighters[0];
      var calls := PlayerStep(m, f.info, f.p, n, Mine(landings, f.info.pid), bosses).calls;
      var rest := PlayerCalls(m, fighters[1..], n, landings, bosses);
      assert Distinct(fighters[1..]);
      OwnOfPlayers(m, fighters[1..], n, landings, bosses, pid);
      StepOwn(m, f.info, f.p, n, Mine(landings, f.info.pid), bosses);
      NoPoiseFirst(f.info.pid, calls);
      OwnConcat(pid, calls, rest);
      IndexOfRest(fighters, pid);
      if f.info.pid == pid {
        OwnOfOwn(pid, calls);
        forall i | 0 <= i < |fighters[1..]| ensures fighters[1..][i].info.pid != pid {
          assert fighters[1..][i] == fighters[i + 1];
        }
        NotThere(fighters[1..], pid);
      } else {
        OwnIsNotOthers(f.info.pid, pid, calls);
      }
    }
  }

  lemma NothingOwned(pid: string)
    ensures Own(pid, []) == [] && !PoiseFirst([])
  {
  }

  lemma {:induction false} BossesOwnNone(npcs: seq<NpcState>, pid: string)
    ensures Own(pid, BossCalls(npcs)) == [] && !PoiseFirst(BossCalls(npcs))
    decreases |npcs|
  {
    if npcs != [] {
      BossesOwnNone(npcs[1..], pid);
      OwnConcat(pid, Steadies(npcs[0]), BossCalls(npcs[1..]));
      if Steadies(npcs[0]) != [] { assert Steadies(npcs[0])[1..] == []; }
    }
  }

  lemma OwnOfStep(m: Maths, e: Encounter, n: int, roll: Roll, pid: string)
    requires Distinct(e.fighters)
    ensures Own(pid, StepCalls(m, e, n, roll))
      == StepOutOf(m, e.fighters, n, LandingsOf(e, n, roll), BossNids(e.npcs), pid)
    ensures !PoiseFirst(StepCalls(m, e, n, roll))
  {
    hide PlayerCalls, BossCalls, Own, LandingsOf, BossNids, StepOutOf;
    OwnOfPlayers(m, e.fighters, n, LandingsOf(e, n, roll), BossNids(e.npcs), pid);
    BossesOwnNone(e.npcs, pid);
    OwnConcat(pid, PlayerCalls(m, e.fighters, n, LandingsOf(e, n, roll), BossNids(e.npcs)), BossCalls(e.npcs));
  }

  /** What a player's operations hand on, of a player if there is one. */
  function OutOf(m: Maths, f: Option<Fighter>, ops: seq<Op>): seq<Call> {
    if f == None then [] else OutBy(m, f.value.info, f.value.p, ops, |ops|)
  }

  lemma OutOfBoth(m: Maths, f: Fighter, a: seq<Op>, b: seq<Op>)
    ensures OutOf(m, Some(f), a + b) == OutOf(m, Some(f), a) + OutOf(m, Some(AfterOps(m, f, a)), b)
  {
    hide OutBy, PlayerAt;
    OutByConcat(m, f.info, f.p, a, b, |b|);
  }

  lemma OutOfOne(m: Maths, f: Fighter, op: Op)
    ensures OutOf(m, Some(f), [op]) == Gives(m, f.info, f.p, op)
  {
    hide Gives;
    assert OutBy(m, f.info, f.p, [op], 0) == [] && PlayerAt(m, f.info, f.p, [op], 0) == f.p;
  }

  lemma OutOfNone(m: Maths, f: Option<Fighter>)
    ensures OutOf(m, f, []) == []
  {
  }

  lemma StepOutIs(m: Maths, e: Encounter, n: int, roll: Roll, pid: string)
    ensures Found(e, pid) == None ==> StepOutOf(m, e.fighters, n, LandingsOf(e, n, roll), BossNids(e.npcs), pid) == []
    ensures Found(e, pid).Some? ==>
      StepOutOf(m, e.fighters, n, LandingsOf(e, n, roll), BossNids(e.npcs), pid)
        == OutOf(m, Found(e, pid), [StepOp(n, Mine(LandingsOf(e, n, roll), pid), BossNids(e.npcs))])
  {
    hide PlayerStep, PlayerIndex, LandingsOf, Mine, BossNids, OutOf;
    var f := Found(e, pid);
    if f.Some? { OutOfOne(m, f.value, StepOp(n, Mine(LandingsOf(e, n, roll), pid), BossNids(e.npcs))); }
  }

  /** What a step is to a player. */
  function OpOfStep(e: Encounter, roll: Roll, pid: string): Op {
    StepOp(e.step + 1, Mine(LandingsOf(e, e.step + 1, roll), pid), BossNids(e.npcs))
  }

  lemma OwnOfNextStep(m: Maths, at: Encounter, roll: Roll, calls: seq<Call>, f: Option<Fighter>, ops: seq<Op>,
                      pid: string)
    requires Distinct(at.fighters) && Own(pid, calls) == OutOf(m, f, ops) && !PoiseFirst(calls)
    requires Found(at, pid) == if f == None then None else Some(AfterOps(m, f.value, ops))
    ensures var more := calls + StepCalls(m, at, at.step + 1, roll);
      Own(pid, more) == OutOf(m, f, ops + [OpOfStep(at, roll, pid)]) && !PoiseFirst(more)
  {
    hide Own, OutOf, StepCalls, LandingsOf, Mine, BossNids, Found, Distinct, StepOutOf, AfterOps;
    OwnOfStep(m, at, at.step + 1, roll, pid);
    StepOutIs(m, at, at.step + 1, roll, pid);
    OwnConcat(pid, calls, StepCalls(m, at, at.step + 1, roll));
    if f.Some? {
      OutOfBoth(m, f.value, ops, [OpOfStep(at, roll, pid)]);
    } else {
      NoOneOut(m, ops, ops + [OpOfStep(at, roll, pid)]);
    }
  }

  /** The calls of a number of steps are, of each player, what the steps are to them. */
  lemma {:induction false} OwnOfSteps(m: Maths, e: Encounter, roll: Roll, k: nat, pid: string)
    requires Distinct(e.fighters)
    ensures Own(pid, RunSteps(m, e, roll, k).calls) == OutOf(m, Found(e, pid), StepOps(m, e, roll, k, pid))
    ensures Found(RunSteps(m, e, roll, k).e, pid).Some? == Found(e, pid).Some?
    ensures !PoiseFirst(RunSteps(m, e, roll, k).calls)
    decreases k
  {
    hide Own, OutOf, EncounterNext, StepCalls, LandingsOf, Mine, BossNids, Found, Distinct, AfterOps, PoiseFirst;
    if k == 0 {
      NothingOwned(pid);
      OutOfNone(m, Found(e, pid));
    } else {
      var at := RunSteps(m, e, roll, k - 1).e;
      OwnOfSteps(m, e, roll, k - 1, pid);
      StepsSameInfos(m, e, roll, k - 1);
      SameInfosDistinct(e.fighters, at.fighters);
      FoundAfterStep(m, at, at.step + 1, roll, pid);
      if Found(e, pid).Some? { StepsOfFighter(m, e, roll, k - 1, pid); }
      OwnOfNextStep(m, at, roll, RunSteps(m, e, roll, k - 1).calls, Found(e, pid), StepOps(m, e, roll, k - 1, pid),
                    pid);
    }
  }

  lemma NoOneOut(m: Maths, a: seq<Op>, b: seq<Op>)
    ensures OutOf(m, None, a) == [] && OutOf(m, None, b) == []
  {
  }

  lemma FoundAfterStep(m: Maths, e: Encounter, n: int, roll: Roll, pid: string)
    ensures Found(EncounterNext(m, e, n, roll), pid).Some? == Found(e, pid).Some?
  {
    hide PlayerIndex, EncounterNext, SameInfos;
    StepSameInfos(m, e, n, roll);
    SamePlace(e.fighters, EncounterNext(m, e, n, roll).fighters, pid);
  }

  /** What a happening hands on or leaves waiting of a player is what it is to them. */
  lemma OwnOfMore(m: Maths, e: Encounter, h: Happening, pid: string)
    requires Distinct(e.fighters)
    ensures Own(pid, More(m, e, h)) == OutOf(m, Found(e, pid), OpsOf(m, e, h, pid))
    ensures !PoiseFirst(More(m, e, h))
  {
    hide Own, OutOf, RunSteps, StepOps, TakeMessage, Found, Distinct, StrikeOps, ToRun;
    NothingOwned(pid);
    OutOfNone(m, Found(e, pid));
    match h
    case Tick(roll, now) =>
      FoundIn(e, e.(late := []), pid);
      OwnOfSteps(m, e.(late := []), roll, ToRun(e, now), pid);
    case InputTaken(who, msg) => OwnOfInput(m, e, who, msg, pid);
    case StrikeDone(who, target, reply) =>
      StopsOut(m, Found(e, pid), StrikeOps(e, who, target, reply, pid), e, who, target, reply, pid);
    case NpcLeaves(nid) => OneStopOut(m, Found(e, pid), StopOp(Some("npc:" + nid)));
    case _ =>
  }

  lemma OneStopOut(m: Maths, f: Option<Fighter>, op: Op)
    requires op.StopOp?
    ensures OutOf(m, f, [op]) == []
  {
    if f.Some? { OutOfOne(m, f.value, op); }
  }

  lemma StopsOut(m: Maths, f: Option<Fighter>, ops: seq<Op>, e: Encounter, who: string, target: string,
                 reply: StrikeReply, pid: string)
    requires ops == StrikeOps(e, who, target, reply, pid)
    ensures OutOf(m, f, ops) == []
  {
    hide OutOf, PlayerIndex, IndexOf;
    OutOfNone(m, f);
    if ops != [] { OneStopOut(m, f, ops[0]); }
  }

  lemma OwnOfInput(m: Maths, e: Encounter, who: string, msg: Message, pid: string)
    ensures Own(pid, More(m, e, InputTaken(who, msg)))
      == OutOf(m, Found(e, pid), OpsOf(m, e, InputTaken(who, msg), pid))
    ensures !PoiseFirst(More(m, e, InputTaken(who, msg)))
  {
    hide Own, OutOf, AllOwn, TakeMessage, PlayerIndex;
    NothingOwned(pid);
    OutOfNone(m, Found(e, pid));
    var k := PlayerIndex(e.fighters, who);
    if k.Some? {
      var f := e.fighters[k.value];
      MessageOwn(m, f.info, f.p, msg);
      NoPoiseFirst(who, TakeMessage(m, f.info, f.p, msg).late);
      if who == pid {
        OwnOfOwn(pid, TakeMessage(m, f.info, f.p, msg).late);
        OutOfOne(m, f, MessageOp(msg));
      } else {
        OwnIsNotOthers(who, pid, TakeMessage(m, f.info, f.p, msg).late);
      }
    } else if who == pid {
      NoOneOut(m, [MessageOp(msg)], []);
    }
  }

  // Whole runs -------------------------------------------------------------------------------

  /** In every run of an encounter, of a player who stays, what the ticks have
      handed on and what waits is, call by call and in order, what was waiting at
      first and then what their own operations handed on. */
  lemma {:induction false} SentIsOut(m: Maths, e0: Encounter, run: seq<Happening>, k: nat, pid: string)
    requires k <= |run| && Found(e0, pid).Some? && Distinct(e0.fighters) && AllHappen(m, e0, run, k)
    requires forall i :: 0 <= i < k ==> run[i] != PlayerLeaves(pid)
    ensures Own(pid, SentAt(m, e0, run, k)) == Own(pid, e0.late) + OutOf(m, Found(e0, pid), OpsAt(m, e0, run, k, pid))
    decreases k
  {
    hide Own, OutOf, Found, Distinct, After, Happens, OpsOf, More, SentAt;
    if k == 0 {
      SentAtFirst(m, e0, run);
      OutOfNone(m, Found(e0, pid));
    } else {
      SentIsOut(m, e0, run, k - 1, pid);
      var e, h := EncounterAt(m, e0, run, k - 1), run[k - 1];
      var f, a, b := Found(e0, pid).value, OpsAt(m, e0, run, k - 1, pid), OpsOf(m, e, h, pid);
      RunKeepsDistinct(m, e0, run, k - 1);
      SentGrows(m, e0, run, k - 1);
      OwnOfMore(m, e, h, pid);
      OwnConcat(pid, SentAt(m, e0, run, k - 1), More(m, e, h));
      FighterHasItsRun(m, e0, run, k - 1, pid);
      OutOfBoth(m, f, a, b);
    }
  }

  lemma SentAtFirst(m: Maths, e0: Encounter, run: seq<Happening>)
    ensures SentAt(m, e0, run, 0) == e0.late
  {
  }

  /** And of someone who isn't in the fight (left, or not come), nothing more is said. */
  lemma NothingMoreSent(m: Maths, e0: Encounter, run: seq<Happening>, k: nat, pid: string)
    requires k < |run| && Distinct(EncounterAt(m, e0, run, k).fighters)
      && Found(EncounterAt(m, e0, run, k), pid) == None
    ensures Own(pid, SentAt(m, e0, run, k + 1)) == Own(pid, SentAt(m, e0, run, k))
  {
    hide Own, OutOf, Found, Distinct, After, OpsOf, More, SentAt, EncounterAt;
    var e, h := EncounterAt(m, e0, run, k), run[k];
    SentGrows(m, e0, run, k);
    OwnOfMore(m, e, h, pid);
    OwnConcat(pid, SentAt(m, e0, run, k), More(m, e, h));
    NoOneOut(m, OpsOf(m, e, h, pid), []);
  }

  // What it comes to ---------------------------------------------------------------------------

  /** The dot's consequences in all that's been sent of a player are those in what
      was waiting at first, these reports, and these blows that landed before
      they were on their feet: each as often. */
  ghost predicate Accounts(sent: seq<Call>, before: seq<Call>, reports: seq<Call>, landed: seq<Call>) {
    multiset(DotCalls(sent)) == multiset(DotCalls(before)) + multiset(reports) + multiset(landed)
  }

  lemma SentAccounts(m: Maths, f: Fighter, ops: seq<Op>, sent: seq<Call>, before: seq<Call>, reports: seq<Call>)
    requires sent == before + OutOf(m, Some(f), ops)
    requires multiset(reports) == multiset(ToldBy(m, f.info, f.p, ops, |ops|))
    ensures Accounts(sent, before, reports, LandedBy(f.info, ops, |ops|))
  {
    hide OutBy, DotCalls, ToldBy, LandedBy;
    DotCallsConcat(before, OutOf(m, Some(f), ops));
    DotCallsOut(m, f.info, f.p, ops, |ops|);
  }

  /** The player stands as after the run with every input in time, and holds what it does. */
  ghost predicate InTimeAt(m: Maths, f: Fighter, ops: seq<Op>, p: PlayerState) {
    var i := IdealAt(m, f.info, f.p, ops, |ops|);
    Coherent(m, f.info, Line(f.p.dot, f.p.sealed), i.items, p) && p.keys == i.keys && p.acts == i.acts
  }

  /** The reports of the run with every input in time. */
  ghost function InTimeReports(m: Maths, f: Fighter, ops: seq<Op>): seq<Call> {
    Reports(Entries(m, f.info, Line(f.p.dot, f.p.sealed), IdealAt(m, f.info, f.p, ops, |ops|).items))
  }

  /** In every run of an encounter, of a player who stays: their accepted acts are
      each once in an entry ever or waiting; what the ticks have handed on and
      what waits is exactly the reports of all their entries ever; and while every
      rewind carried out for them has a clean window, they stand as after the run
      with every input in time, and that is what that run reports. */
  lemma EncounterRollback(m: Maths, e0: Encounter, run: seq<Happening>, k: nat, pid: string)
    requires k <= |run| && Found(e0, pid).Some? && Found(e0, pid).value.p.history == []
    requires Distinct(e0.fighters) && AllHappen(m, e0, run, k)
    requires forall i :: 0 <= i < k ==> run[i] != PlayerLeaves(pid)
    ensures var f, ops := Found(e0, pid).value, OpsAt(m, e0, run, k, pid);
      var now, gone := Found(EncounterAt(m, e0, run, k), pid), GoneBy(m, f.info, f.p, ops, |ops|);
      var sent, before := Own(pid, SentAt(m, e0, run, k)), Own(pid, e0.late);
      && now.Some? && now.value.info == f.info
      && multiset(ActsIn(gone + now.value.p.history)) + multiset(now.value.p.acts)
        == multiset(f.p.acts) + AcceptedBy(ops, |ops|)
      && Accounts(sent, before, Reports(gone + now.value.p.history), LandedBy(f.info, ops, |ops|))
      && (RewindsClean(m, f.info, f.p, ops) ==>
            InTimeAt(m, f, ops, now.value.p)
              && Accounts(sent, before, InTimeReports(m, f, ops), LandedBy(f.info, ops, |ops|)))
  {
    hide Found, OpsAt, EncounterAt, PlayerAt, Coherent, RunWell, RewindsClean, IdealAt, GoneBy, AcceptedBy, ToldBy,
      InOrder, Entries, Reports, Own, OutOf, SentAt, Accounts, ActsIn, LandedBy, Distinct, AllHappen;
    FighterHasItsRun(m, e0, run, k, pid);
    SentIsOut(m, e0, run, k, pid);
    var f, ops := Found(e0, pid).value, OpsAt(m, e0, run, k, pid);
    var now := Found(EncounterAt(m, e0, run, k), pid).value;
    var sent, before := Own(pid, SentAt(m, e0, run, k)), Own(pid, e0.late);
    NothingLostOrDoubled(m, f.info, f.p, ops, |ops|);
    SentAccounts(m, f, ops, sent, before, Reports(GoneBy(m, f.info, f.p, ops, |ops|) + now.p.history));
    RunInOrder(m, e0, run, k, pid);
    RunWellExactlyWhen(m, f.info, f.p, ops);
    if RewindsClean(m, f.info, f.p, ops) {
      StandsAsInTime(m, f.info, f.p, ops, |ops|);
      SentAccounts(m, f, ops, sent, before, InTimeReports(m, f, ops));
    }
  }
}
