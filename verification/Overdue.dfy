/** The attack clock over whole runs: between steps, no attack is ever overdue. */
module Overdue {
  import opened Basics
  import opened Balance
  import opened Bosses
  import opened Clock
  import opened Fights
  import opened Encounters

  // Nothing overdue ------------------------------------------------------------------------------

  ghost predicate AttacksAhead(attacks: seq<Attack>, step: int) {
    forall i :: 0 <= i < |attacks| ==> Ahead(attacks[i], step)
  }

  /** Between steps no attack is overdue. */
  ghost predicate AllAhead(e: Encounter) {
    forall i :: 0 <= i < |e.npcs| ==> AttacksAhead(e.npcs[i].attacks, e.step)
  }

  lemma StepKeepsAhead(nid: string, attacks: seq<Attack>, step: int, first: Option<string>, roll: Roll)
    requires AttacksAhead(attacks, step)
    ensures AttacksAhead(AttacksNext(nid, attacks, step + 1, first, roll), step + 1)
  {
    var r := AttacksNext(nid, attacks, step + 1, first, roll);
    forall i | 0 <= i < |r| ensures Ahead(r[i], step + 1) {
      KeptAhead(attacks[i], step, first, roll(step + 1, nid, attacks[i].n), step, step, 0);
    }
  }

  lemma SkipKeepsAhead(attacks: seq<Attack>, step: int, target: int)
    requires AttacksAhead(attacks, step) && step <= target
    ensures AttacksAhead(SkippedAll(attacks, target), target)
  {
    forall i | 0 <= i < |attacks| ensures Ahead(SkippedAll(attacks, target)[i], target) {
      KeptAhead(attacks[i], step, None, 0.0, target, step, 0);
    }
  }

  lemma HoldKeepsAhead(attacks: seq<Attack>, step: int, end: int)
    requires AttacksAhead(attacks, step)
    ensures AttacksAhead(HeldAll(attacks, end), step)
  {
    forall i | 0 <= i < |attacks| ensures Ahead(HeldAll(attacks, end)[i], step) {
      KeptAhead(attacks[i], step, None, 0.0, step, end, 0);
    }
  }

  lemma PushKeepsAhead(attacks: seq<Attack>, step: int, more: nat)
    requires AttacksAhead(attacks, step)
    ensures AttacksAhead(PushedAll(attacks, more), step)
  {
    forall i | 0 <= i < |attacks| ensures Ahead(PushedAll(attacks, more)[i], step) {
      KeptAhead(attacks[i], step, None, 0.0, step, step, more);
    }
  }

  lemma StepsPositive(ms: real)
    requires 0.0 <= ms
    ensures 0 <= Steps(ms)
  {
  }

  lemma FillKeepsAhead(npc: NpcState, amount: real, step: int)
    requires AttacksAhead(npc.attacks, step)
    ensures AttacksAhead(NpcFilled(npc, amount, step).attacks, step)
  {
    hide AttacksAhead, FilledBy, Reels;
    if npc.boss.Some? {
      HoldKeepsAhead(npc.attacks, step,
                     step + FilledBy(npc.boss.value.poise, npc.boss.value.rules, npc.boss.value.now, amount).staggered);
    }
  }

  lemma StruckKeepsAhead(npc: NpcState, reply: StrikeReply, step: int)
    requires AttacksAhead(npc.attacks, step) && 0.0 <= reply.staggerMs
    ensures AttacksAhead(NpcStruck(npc, reply, step).attacks, step)
  {
    hide AttacksAhead, NpcFilled, Steps;
    StepsPositive(reply.staggerMs);
    PushKeepsAhead(npc.attacks, step, Steps(reply.staggerMs));
    var pushed := if reply.staggerMs != 0.0 then npc.(attacks := PushedAll(npc.attacks, Steps(reply.staggerMs)))
      else npc;
    FillKeepsAhead(pushed, reply.kick * 10.0, step);
  }

  // Whole runs -----------------------------------------------------------------------------------

  /** What happens to an encounter: a tick of its steps, what follows from the
      rules' replies, inputs, and coming and going. */
  datatype Happening =
    | Tick(roll: Roll, now: int)
    | StrikeDone(pid: string, target: string, reply: StrikeReply)
    | BlockedPerfectly(nid: string)
    | InputTaken(pid: string, msg: Message)
    | NpcJoins(nid: string, specs: seq<AttackSpec>, join: int, poise: real, rules: Rules)
    | NpcLeaves(nid: string)
    | PlayerJoins(fighter: Fighter)
    | PlayerLeaves(pid: string)

  function After(m: Maths, e: Encounter, h: Happening): Encounter {
    match h
    case Tick(roll, now) => Ticked(m, e, roll, now).e
    case StrikeDone(pid, target, reply) => EncounterStruck(e, pid, target, reply)
    case BlockedPerfectly(nid) => EncounterPoised(e, nid)
    case InputTaken(pid, msg) => EncounterInput(m, e, pid, msg)
    case NpcJoins(nid, specs, join, poise, rules) => e.(npcs := e.npcs + [JoiningNpc(nid, specs, join, poise, rules)])
    case NpcLeaves(nid) => NpcDropped(e, nid)
    case PlayerJoins(fighter) => e.(fighters := e.fighters + [fighter])
    case PlayerLeaves(pid) => PlayerDropped(e, pid)
  }

  /** No strike pulls attacks forward, an NPC joins less than any of its periods
      ago, and no one joins who is in the fight already. */
  ghost predicate Happens(e: Encounter, h: Happening) {
    match h
    case StrikeDone(pid, target, reply) => 0.0 <= reply.staggerMs
    case NpcJoins(nid, specs, join, poise, rules) =>
      IndexOf(e.npcs, nid) == None && forall i :: 0 <= i < |specs| ==> e.step < join + Max(1, Steps(specs[i].period))
    case PlayerJoins(fighter) => PlayerIndex(e.fighters, fighter.info.pid) == None
    case _ => true
  }

  function EncounterAt(m: Maths, e0: Encounter, run: seq<Happening>, k: nat): Encounter
    requires k <= |run|
  {
    if k == 0 then e0 else After(m, EncounterAt(m, e0, run, k - 1), run[k - 1])
  }

  lemma StepNoneOverdue(m: Maths, e: Encounter, roll: Roll)
    requires AllAhead(e)
    ensures AllAhead(EncounterNext(m, e, e.step + 1, roll))
  {
    hide AttacksAhead, FightersNext, LandingsOf, NpcsNext, AttacksNext, FirstPid, Infos, BossNids, BossNext;
    var o := EncounterNext(m, e, e.step + 1, roll);
    var first := FirstPid(Infos(e.fighters));
    forall i | 0 <= i < |o.npcs| ensures AttacksAhead(o.npcs[i].attacks, o.step) {
      assert o.npcs[i] == NpcNext(e.npcs[i], e.step + 1, first, roll);
      StepKeepsAhead(e.npcs[i].nid, e.npcs[i].attacks, e.step, first, roll);
    }
  }

  lemma {:induction false} StepsNoneOverdue(m: Maths, e: Encounter, roll: Roll, k: nat)
    requires AllAhead(e)
    ensures AllAhead(RunSteps(m, e, roll, k).e) && RunSteps(m, e, roll, k).e.step == e.step + k
    decreases k
  {
    hide AllAhead, StepCalls, EncounterNext;
    if k > 0 {
      StepsNoneOverdue(m, e, roll, k - 1);
      StepNoneOverdue(m, RunSteps(m, e, roll, k - 1).e, roll);
      OneStepOn(m, RunSteps(m, e, roll, k - 1).e, roll);
    }
  }

  lemma OneStepOn(m: Maths, e: Encounter, roll: Roll)
    ensures EncounterNext(m, e, e.step + 1, roll).step == e.step + 1
  {
    hide FightersNext, NpcsNext, LandingsOf, BossNids, FirstPid, Infos;
  }

  lemma SkipNoneOverdue(e: Encounter, target: int)
    requires AllAhead(e) && e.step <= target
    ensures AllAhead(EncounterSkipped(e, target))
  {
    hide AttacksAhead;
    var o := EncounterSkipped(e, target);
    forall i | 0 <= i < |o.npcs| ensures AttacksAhead(o.npcs[i].attacks, target) {
      SkipKeepsAhead(e.npcs[i].attacks, e.step, target);
    }
  }

  /** A tick comes to its target, unless it's already there, and nothing is overdue then. */
  lemma TickNoneOverdue(m: Maths, e: Encounter, roll: Roll, target: int)
    requires AllAhead(e)
    ensures AllAhead(Ticked(m, e, roll, target).e)
    ensures Ticked(m, e, roll, target).e.step == if e.step <= target then target else e.step
  {
    hide RunSteps;
    var e1 := e.(late := []);
    assert AllAhead(e1);
    var r := RunSteps(m, e1, roll, ToRun(e, target)).e;
    StepsNoneOverdue(m, e1, roll, ToRun(e, target));
    if ToRun(e, target) >= MAX_CATCH_UP { SkipNoneOverdue(r, target); }
  }

  /** An NPC's first landings are still to come as the owner hears of it exactly if
      it joined less than each of its attacks' periods ago. */
  lemma JoinAheadExactlyWhen(specs: seq<AttackSpec>, join: int, step: int)
    ensures AttacksAhead(JoiningAttacks(specs, join, 0), step) <==>
      forall i :: 0 <= i < |specs| ==> step < join + Max(1, Steps(specs[i].period))
  {
    hide Steps;
    var attacks := JoiningAttacks(specs, join, 0);
    forall i | 0 <= i < |specs| ensures Ahead(attacks[i], step) <==> step < join + Max(1, Steps(specs[i].period)) {
      assert attacks[i] == Joined(i + 1, specs[i].info, Steps(specs[i].period), Steps(specs[i].warn), join);
    }
  }

  lemma StrikeNoneOverdue(e: Encounter, pid: string, target: string, reply: StrikeReply)
    requires AllAhead(e) && 0.0 <= reply.staggerMs
    ensures AllAhead(EncounterStruck(e, pid, target, reply))
  {
    hide AttacksAhead, NpcStruck, AllCancelled;
    var k := StruckNpc(e.npcs, target);
    if k.Some? { StruckKeepsAhead(e.npcs[k.value], reply, e.step); }
  }

  lemma BlockNoneOverdue(e: Encounter, nid: string)
    requires AllAhead(e)
    ensures AllAhead(EncounterPoised(e, nid))
  {
    hide AttacksAhead, NpcFilled;
    var k := IndexOf(e.npcs, nid);
    if k.Some? && e.npcs[k.value].boss.Some? {
      FillKeepsAhead(e.npcs[k.value], e.npcs[k.value].boss.value.rules.perfectBlockPoise, e.step);
    }
  }

  lemma HappeningNoneOverdue(m: Maths, e: Encounter, h: Happening)
    requires AllAhead(e) && Happens(e, h)
    ensures AllAhead(After(m, e, h))
  {
    hide AttacksAhead, Ticked, EncounterStruck, EncounterPoised, JoiningAttacks, AllCancelled, TakeMessage;
    match h
    case Tick(roll, now) => TickNoneOverdue(m, e, roll, now);
    case StrikeDone(pid, target, reply) => StrikeNoneOverdue(e, pid, target, reply);
    case BlockedPerfectly(nid) => BlockNoneOverdue(e, nid);
    case InputTaken(pid, msg) =>
    case NpcJoins(nid, specs, join, poise, rules) => JoinAheadExactlyWhen(specs, join, e.step);
    case NpcLeaves(nid) =>
    case PlayerJoins(fighter) =>
    case PlayerLeaves(pid) =>
  }

  /** Over every run of ticks (however long a stall before one), replies, inputs,
      and players and NPCs coming and going, no attack is overdue between ticks:
      each lands at the step it was due. */
  lemma {:induction false} NoneOverdue(m: Maths, e0: Encounter, run: seq<Happening>, k: nat)
    requires AllAhead(e0) && k <= |run|
    requires forall i :: 0 <= i < k ==> Happens(EncounterAt(m, e0, run, i), run[i])
    ensures AllAhead(EncounterAt(m, e0, run, k))
  {
    hide AllAhead, Happens, After;
    if k > 0 {
      NoneOverdue(m, e0, run, k - 1);
      HappeningNoneOverdue(m, EncounterAt(m, e0, run, k - 1), run[k - 1]);
    }
  }
}
