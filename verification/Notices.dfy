/** Over whole runs of an encounter, no attack lands unannounced: the players were
    told of it, with its direction and its target, as long before as it promises. */
module Notices {
  import opened Basics
  import opened Balance
  import opened Bosses
  import opened Clock
  import opened Fights
  import opened Encounters
  import opened Overdue

  /** An attack announced: at which step, whose and which, where from and at whom. */
  datatype Telling = Telling(step: int, nid: string, attack: int, angle: real, target: Option<string>)

  /** How long before it lands an attack is to be announced: its warning, or a period
      less one if that's shorter. */
  function Notice(a: Attack): int { if a.warn < a.period - 1 then a.warn else a.period - 1 }

  predicate Announces(a: Attack, n: int) { a.angle == None && n >= a.land - a.warn }

  ghost function TellingOf(nid: string, a: Attack, n: int, first: Option<string>, roll: Roll): Telling {
    Telling(n, nid, a.n, roll(n, nid, a.n), first)
  }

  /** All that a step announces. */
  ghost function Tellings(e: Encounter, n: int, roll: Roll): set<Telling> {
    set i, j | 0 <= i < |e.npcs| && 0 <= j < |e.npcs[i].attacks| && Announces(e.npcs[i].attacks[j], n)
      :: TellingOf(e.npcs[i].nid, e.npcs[i].attacks[j], n, FirstPid(Infos(e.fighters)), roll)
  }

  ghost function StepsTellings(m: Maths, e: Encounter, roll: Roll, k: nat): set<Telling> {
    if k == 0 then {}
    else
      var at := RunSteps(m, e, roll, k - 1).e;
      StepsTellings(m, e, roll, k - 1) + Tellings(at, at.step + 1, roll)
  }

  /** All that the first k happenings announced, in the steps of their ticks. */
  ghost function TellingsBy(m: Maths, e0: Encounter, run: seq<Happening>, k: nat): set<Telling>
    requires k <= |run|
  {
    if k == 0 then {}
    else
      var e := EncounterAt(m, e0, run, k - 1);
      TellingsBy(m, e0, run, k - 1)
      + if run[k - 1].Tick? then StepsTellings(m, e.(late := []), run[k - 1].roll, ToRun(e, run[k - 1].now)) else {}
  }

  // One attack -----------------------------------------------------------------------------------

  /** A telling that was of this attack as it now stands, its notice before it lands. */
  ghost predicate IsOf(t: Telling, nid: string, a: Attack) {
    t.nid == nid && t.attack == a.n && a.angle == Some(t.angle) && a.target == t.target && t.step + Notice(a) <= a.land
  }

  ghost predicate WasTold(told: set<Telling>, nid: string, a: Attack) {
    exists t :: t in told && IsOf(t, nid, a)
  }

  /** Between steps: not yet announced, with the notice to go after the next step;
      or announced in time. */
  ghost predicate InTime(told: set<Telling>, nid: string, a: Attack, step: int) {
    Ahead(a, step) && if a.angle == None then a.land - (step + 1) >= Notice(a) else WasTold(told, nid, a)
  }

  lemma ToldStill(told: set<Telling>, more: set<Telling>, nid: string, a: Attack, step: int)
    requires InTime(told, nid, a, step)
    ensures InTime(told + more, nid, a, step)
  {
    if a.angle != None {
      var t :| t in told && IsOf(t, nid, a);
      assert t in told + more;
    }
  }

  lemma PushedInTime(told: set<Telling>, nid: string, a: Attack, step: int, more: nat)
    requires InTime(told, nid, a, step)
    ensures InTime(told, nid, PushedBack(a, more), step)
  {
    if a.angle != None {
      var t :| t in told && IsOf(t, nid, a);
      assert IsOf(t, nid, PushedBack(a, more));
    }
  }

  /** As a step leaves it once it may have been announced. */
  lemma AnnouncedInTime(told: set<Telling>, nid: string, a: Attack, n: int, first: Option<string>, roll: Roll)
    requires InTime(told, nid, a, n - 1) && (Announces(a, n) ==> TellingOf(nid, a, n, first, roll) in told)
    ensures var b := Announced(a, n, first, roll(n, nid, a.n)); b.angle != None ==> WasTold(told, nid, b)
  {
    if Announces(a, n) {
      assert IsOf(TellingOf(nid, a, n, first, roll), nid, Announced(a, n, first, roll(n, nid, a.n)));
    }
  }

  lemma StepInTime(told: set<Telling>, nid: string, a: Attack, n: int, first: Option<string>, roll: Roll)
    requires InTime(told, nid, a, n - 1) && (Announces(a, n) ==> TellingOf(nid, a, n, first, roll) in told)
    ensures InTime(told, nid, AttackNext(a, n, first, roll(n, nid, a.n)), n)
  {
    hide WasTold;
    AnnouncedInTime(told, nid, a, n, first, roll);
  }

  // What lands -----------------------------------------------------------------------------------

  /** A landing with the direction it was told of, and on whom, if they're still there. */
  ghost predicate AsTold(t: Telling, l: Landing, first: Option<string>, present: set<string>) {
    && l.incoming.nid == t.nid && l.incoming.attack == t.attack && l.incoming.blow.angle == t.angle
    && Some(l.target) == if t.target.Some? && t.target.value in present then t.target else first
  }

  ghost predicate ToldBefore(told: set<Telling>, notice: int, n: int, l: Landing, first: Option<string>,
                             present: set<string>) {
    exists t :: t in told && t.step + notice <= n && AsTold(t, l, first, present)
  }

  lemma LandsAsTold(told: set<Telling>, nid: string, a: Attack, n: int, first: Option<string>, present: set<string>,
                    roll: Roll, l: Landing)
    requires InTime(told, nid, a, n - 1) && (Announces(a, n) ==> TellingOf(nid, a, n, first, roll) in told)
    requires l in AttackLands(nid, a, n, first, present, roll) && 0 <= a.warn
    ensures ToldBefore(told, Notice(a), n, l, first, present)
  {
    var b := Announced(a, n, first, roll(n, nid, a.n));
    AnnouncedInTime(told, nid, a, n, first, roll);
    var t :| t in told && IsOf(t, nid, b);
    assert AsTold(t, l, first, present);
  }

  // An encounter ---------------------------------------------------------------------------------

  ghost predicate AttacksInTime(told: set<Telling>, nid: string, attacks: seq<Attack>, step: int) {
    forall i :: 0 <= i < |attacks| ==> InTime(told, nid, attacks[i], step)
  }

  ghost predicate AllInTime(told: set<Telling>, npcs: seq<NpcState>, step: int) {
    forall i :: 0 <= i < |npcs| ==> AttacksInTime(told, npcs[i].nid, npcs[i].attacks, step)
  }

  lemma AllToldStill(told: set<Telling>, more: set<Telling>, npcs: seq<NpcState>, step: int)
    requires AllInTime(told, npcs, step)
    ensures AllInTime(told + more, npcs, step)
  {
    hide InTime;
    forall i | 0 <= i < |npcs| ensures AttacksInTime(told + more, npcs[i].nid, npcs[i].attacks, step) {
      assert AttacksInTime(told, npcs[i].nid, npcs[i].attacks, step);
      forall j | 0 <= j < |npcs[i].attacks| ensures InTime(told + more, npcs[i].nid, npcs[i].attacks[j], step) {
        ToldStill(told, more, npcs[i].nid, npcs[i].attacks[j], step);
      }
    }
  }

  lemma OneToldOf(e: Encounter, n: int, roll: Roll, i: nat, j: nat)
    requires i < |e.npcs| && j < |e.npcs[i].attacks| && Announces(e.npcs[i].attacks[j], n)
    ensures TellingOf(e.npcs[i].nid, e.npcs[i].attacks[j], n, FirstPid(Infos(e.fighters)), roll) in Tellings(e, n, roll)
  {
    hide FirstPid, Infos, Announces;
  }

  lemma NpcInTime(told: set<Telling>, e: Encounter, roll: Roll, i: nat)
    requires i < |e.npcs| && AttacksInTime(told, e.npcs[i].nid, e.npcs[i].attacks, e.step)
    requires Tellings(e, e.step + 1, roll) <= told
    ensures var npc := NpcNext(e.npcs[i], e.step + 1, FirstPid(Infos(e.fighters)), roll);
      AttacksInTime(told, npc.nid, npc.attacks, e.step + 1)
  {
    hide InTime, FirstPid, Infos, Tellings, AttackNext, BossNext, AttacksNext;
    var n, npc, first := e.step + 1, e.npcs[i], FirstPid(Infos(e.fighters));
    var next := AttacksNext(npc.nid, npc.attacks, n, first, roll);
    forall j | 0 <= j < |next| ensures InTime(told, npc.nid, next[j], n) {
      if Announces(npc.attacks[j], n) { OneToldOf(e, n, roll, i, j); }
      StepInTime(told, npc.nid, npc.attacks[j], n, first, roll);
    }
  }

  lemma StepAllInTime(m: Maths, told: set<Telling>, e: Encounter, roll: Roll)
    requires AllInTime(told, e.npcs, e.step)
    ensures AllInTime(told + Tellings(e, e.step + 1, roll), EncounterNext(m, e, e.step + 1, roll).npcs, e.step + 1)
  {
    hide AttacksInTime, FirstPid, Infos, Tellings, NpcNext, FightersNext, LandingsOf, BossNids, NpcsNext;
    var more := Tellings(e, e.step + 1, roll);
    AllToldStill(told, more, e.npcs, e.step);
    var next := EncounterNext(m, e, e.step + 1, roll).npcs;
    forall i | 0 <= i < |next| ensures AttacksInTime(told + more, next[i].nid, next[i].attacks, e.step + 1) {
      NpcInTime(told + more, e, roll, i);
    }
  }

  lemma {:induction false} StepsAllInTime(m: Maths, told: set<Telling>, e: Encounter, roll: Roll, k: nat)
    requires AllInTime(told, e.npcs, e.step)
    ensures var at := RunSteps(m, e, roll, k).e;
      at.step == e.step + k && AllInTime(told + StepsTellings(m, e, roll, k), at.npcs, at.step)
    decreases k
  {
    hide AllInTime, EncounterNext, StepCalls, Tellings;
    if k == 0 {
      assert told + {} == told;
    } else {
      StepsAllInTime(m, told, e, roll, k - 1);
      var at := RunSteps(m, e, roll, k - 1).e;
      StepAllInTime(m, told + StepsTellings(m, e, roll, k - 1), at, roll);
      OneStepOn(m, at, roll);
      assert told + StepsTellings(m, e, roll, k - 1) + Tellings(at, at.step + 1, roll)
        == told + StepsTellings(m, e, roll, k);
    }
  }

  // Whole runs -----------------------------------------------------------------------------------

  /** An NPC heard of before the first of its warnings is due. */
  ghost predicate HeardInTime(specs: seq<AttackSpec>, join: int, step: int) {
    forall i :: 0 <= i < |specs| ==>
      var a := Joined(i + 1, specs[i].info, Steps(specs[i].period), Steps(specs[i].warn), join);
      step < a.land && step + 1 + Notice(a) <= a.land
  }

  /** Nothing that takes an announcement back: no stall too long to catch up with,
      and no boss sent reeling. */
  ghost predicate TakesNoneBack(e: Encounter, h: Happening) {
    match h
    case Tick(roll, now) => ToRun(e, now) < MAX_CATCH_UP
    case StrikeDone(pid, target, reply) => 0.0 <= reply.staggerMs && !StrikeReels(e, pid, target, reply)
    case BlockedPerfectly(nid) => !PoiseReels(e, nid)
    case NpcJoins(nid, specs, join, poise, rules) => HeardInTime(specs, join, e.step)
    case _ => true
  }

  lemma JoinInTime(told: set<Telling>, nid: string, specs: seq<AttackSpec>, join: int, step: int)
    requires HeardInTime(specs, join, step)
    ensures AttacksInTime(told, nid, JoiningAttacks(specs, join, 0), step)
  {
    hide Steps, WasTold;
    var attacks := JoiningAttacks(specs, join, 0);
    forall i | 0 <= i < |attacks| ensures InTime(told, nid, attacks[i], step) {
      var a := Joined(i + 1, specs[i].info, Steps(specs[i].period), Steps(specs[i].warn), join);
      assert attacks[i] == a;
    }
  }

  lemma StruckInTime(told: set<Telling>, npc: NpcState, reply: StrikeReply, step: int)
    requires AttacksInTime(told, npc.nid, npc.attacks, step) && 0.0 <= reply.staggerMs
    requires reply.damages ==> !NpcReels(npc, reply.kick * 10.0)
    ensures AttacksInTime(told, npc.nid, NpcStruck(npc, reply, step).attacks, step)
      && NpcStruck(npc, reply, step).nid == npc.nid
  {
    hide InTime, Steps, FilledBy, Reels;
    StepsPositive(reply.staggerMs);
    var back := PushedAll(npc.attacks, Steps(reply.staggerMs));
    forall i | 0 <= i < |back| ensures InTime(told, npc.nid, back[i], step) {
      PushedInTime(told, npc.nid, npc.attacks[i], step, Steps(reply.staggerMs));
    }
  }

  lemma StrikeInTime(told: set<Telling>, e: Encounter, pid: string, target: string, reply: StrikeReply)
    requires AllInTime(told, e.npcs, e.step) && 0.0 <= reply.staggerMs && !StrikeReels(e, pid, target, reply)
    ensures AllInTime(told, EncounterStruck(e, pid, target, reply).npcs, e.step)
  {
    hide AttacksInTime, NpcStruck, AllCancelled, PlayerIndex, NpcReels, IndexOf;
    var k := StruckNpc(e.npcs, target);
    if PlayerIndex(e.fighters, pid).Some? && !reply.gone && !reply.killed && k.Some? {
      StruckInTime(told, e.npcs[k.value], reply, e.step);
    }
  }

  lemma PoisedInTime(told: set<Telling>, e: Encounter, nid: string)
    requires AllInTime(told, e.npcs, e.step) && !PoiseReels(e, nid)
    ensures AllInTime(told, EncounterPoised(e, nid).npcs, e.step)
  {
    hide AttacksInTime, Reels, FilledBy, IndexOf;
  }

  lemma HappeningInTime(m: Maths, told: set<Telling>, e: Encounter, h: Happening)
    requires AllInTime(told, e.npcs, e.step) && TakesNoneBack(e, h)
    ensures var more := if h.Tick? then StepsTellings(m, e.(late := []), h.roll, ToRun(e, h.now)) else {};
      AllInTime(told + more, After(m, e, h).npcs, After(m, e, h).step)
  {
    hide AttacksInTime, RunSteps, StepsTellings, EncounterStruck, EncounterPoised, JoiningAttacks, AllCancelled,
      TakeMessage, ToRun, HeardInTime, PlayerIndex, IndexOf, StrikeReels, PoiseReels;
    assert told + {} == told;
    match h
    case Tick(roll, now) => StepsAllInTime(m, told, e.(late := []), roll, ToRun(e, now));
    case StrikeDone(pid, target, reply) =>
      StrikeInTime(told, e, pid, target, reply);
      StruckSameStep(e, pid, target, reply);
    case BlockedPerfectly(nid) =>
      PoisedInTime(told, e, nid);
      PoisedSameStep(e, nid);
    case NpcJoins(nid, specs, join, poise, rules) => JoinInTime(told, nid, specs, join, e.step);
    case _ =>
  }

  lemma StruckSameStep(e: Encounter, pid: string, target: string, reply: StrikeReply)
    ensures EncounterStruck(e, pid, target, reply).step == e.step
  {
    hide NpcStruck, AllCancelled, PlayerIndex, StruckNpc, IndexOf;
  }

  lemma PoisedSameStep(e: Encounter, nid: string)
    ensures EncounterPoised(e, nid).step == e.step
  {
    hide NpcPoised, IndexOf;
  }

  lemma {:induction false} RunInTime(m: Maths, e0: Encounter, run: seq<Happening>, k: nat)
    requires k <= |run| && AllInTime({}, e0.npcs, e0.step)
    requires forall i :: 0 <= i < k ==> TakesNoneBack(EncounterAt(m, e0, run, i), run[i])
    ensures var e := EncounterAt(m, e0, run, k); AllInTime(TellingsBy(m, e0, run, k), e.npcs, e.step)
    decreases k
  {
    hide AllInTime, TakesNoneBack, After, StepsTellings, ToRun;
    if k > 0 {
      RunInTime(m, e0, run, k - 1);
      HappeningInTime(m, TellingsBy(m, e0, run, k - 1), EncounterAt(m, e0, run, k - 1), run[k - 1]);
    }
  }

  // Every landing ----------------------------------------------------------------------------------

  /** A step's landing comes of an attack that was told of its notice before (if
      its warning isn't negative: of those that are, nobody is told). */
  ghost predicate WasAnnounced(told: set<Telling>, e: Encounter, n: int, roll: Roll, l: Landing) {
    var first, present := FirstPid(Infos(e.fighters)), Present(Infos(e.fighters));
    exists i, j :: 0 <= i < |e.npcs| && 0 <= j < |e.npcs[i].attacks|
      && l in AttackLands(e.npcs[i].nid, e.npcs[i].attacks[j], n, first, present, roll)
      && (0 <= e.npcs[i].attacks[j].warn ==> ToldBefore(told, Notice(e.npcs[i].attacks[j]), n, l, first, present))
  }

  lemma {:induction false} FromAttack(nid: string, attacks: seq<Attack>, n: int, first: Option<string>,
                                      present: set<string>, roll: Roll, l: Landing)
    returns (j: nat)
    requires l in AttacksLand(nid, attacks, n, first, present, roll)
    ensures j < |attacks| && l in AttackLands(nid, attacks[j], n, first, present, roll)
    decreases |attacks|
  {
    hide AttackLands;
    if l in AttackLands(nid, attacks[0], n, first, present, roll) {
      j := 0;
    } else {
      j := FromAttack(nid, attacks[1..], n, first, present, roll, l);
      j := j + 1;
    }
  }

  lemma {:induction false} FromNpc(npcs: seq<NpcState>, n: int, first: Option<string>, present: set<string>, roll: Roll,
                                   l: Landing)
    returns (i: nat)
    requires l in NpcsLand(npcs, n, first, present, roll)
    ensures i < |npcs| && l in AttacksLand(npcs[i].nid, npcs[i].attacks, n, first, present, roll)
    decreases |npcs|
  {
    hide AttacksLand;
    if l in AttacksLand(npcs[0].nid, npcs[0].attacks, n, first, present, roll) {
      i := 0;
    } else {
      i := FromNpc(npcs[1..], n, first, present, roll, l);
      i := i + 1;
    }
  }

  lemma StepAnnounced(told: set<Telling>, e: Encounter, roll: Roll, l: Landing)
    requires AllInTime(told, e.npcs, e.step) && l in LandingsOf(e, e.step + 1, roll)
    ensures WasAnnounced(told + Tellings(e, e.step + 1, roll), e, e.step + 1, roll, l)
  {
    hide InTime, FirstPid, Infos, Present, AttackLands, AttacksLand, NpcsLand, Tellings, Announces, ToldBefore;
    var first, present, n := FirstPid(Infos(e.fighters)), Present(Infos(e.fighters)), e.step + 1;
    var all := told + Tellings(e, n, roll);
    var i := FromNpc(e.npcs, n, first, present, roll, l);
    var j := FromAttack(e.npcs[i].nid, e.npcs[i].attacks, n, first, present, roll, l);
    var npc, a := e.npcs[i], e.npcs[i].attacks[j];
    AllToldStill(told, Tellings(e, n, roll), e.npcs, e.step);
    assert AttacksInTime(all, npc.nid, npc.attacks, e.step);
    if Announces(a, n) { OneToldOf(e, n, roll, i, j); }
    if 0 <= a.warn { LandsAsTold(all, npc.nid, a, n, first, present, roll, l); }
  }

  /** The encounter i steps into the tick that is the run's k-th happening, from 0. */
  function Within(m: Maths, e0: Encounter, run: seq<Happening>, k: nat, i: nat): Encounter
    requires k < |run| && run[k].Tick?
  {
    RunSteps(m, EncounterAt(m, e0, run, k).(late := []), run[k].roll, i).e
  }

  /** All announced until then. */
  ghost function ToldUntil(m: Maths, e0: Encounter, run: seq<Happening>, k: nat, i: nat): set<Telling>
    requires k < |run| && run[k].Tick?
  {
    TellingsBy(m, e0, run, k) + StepsTellings(m, EncounterAt(m, e0, run, k).(late := []), run[k].roll, i)
  }

  lemma OneMoreTold(m: Maths, e0: Encounter, run: seq<Happening>, k: nat, i: nat)
    requires k < |run| && run[k].Tick?
    ensures var at := Within(m, e0, run, k, i);
      ToldUntil(m, e0, run, k, i + 1) == ToldUntil(m, e0, run, k, i) + Tellings(at, at.step + 1, run[k].roll)
  {
    hide Tellings, RunSteps, EncounterAt, TellingsBy;
  }

  lemma WithinInTime(m: Maths, e0: Encounter, run: seq<Happening>, k: nat, i: nat)
    requires k < |run| && run[k].Tick? && AllInTime({}, e0.npcs, e0.step)
    requires forall j :: 0 <= j < k ==> TakesNoneBack(EncounterAt(m, e0, run, j), run[j])
    ensures var at := Within(m, e0, run, k, i); AllInTime(ToldUntil(m, e0, run, k, i), at.npcs, at.step)
  {
    hide AllInTime, TakesNoneBack, EncounterAt, RunSteps, StepsTellings, TellingsBy;
    RunInTime(m, e0, run, k);
    StepsAllInTime(m, TellingsBy(m, e0, run, k), EncounterAt(m, e0, run, k).(late := []), run[k].roll, i);
  }

  /** In every run without a skipped stall or a reel, from where nothing is late,
      whatever is pushed back and whoever comes and goes: every landing of every
      step of a tick was announced, its warning's length before it or a period
      less one, with the direction it lands from and the target it falls on. */
  lemma EveryLandingWasAnnounced(m: Maths, e0: Encounter, run: seq<Happening>, k: nat, i: nat, l: Landing)
    requires k < |run| && run[k].Tick? && AllInTime({}, e0.npcs, e0.step)
    requires forall j :: 0 <= j < k ==> TakesNoneBack(EncounterAt(m, e0, run, j), run[j])
    requires i < ToRun(EncounterAt(m, e0, run, k), run[k].now)
    requires var at := Within(m, e0, run, k, i); l in LandingsOf(at, at.step + 1, run[k].roll)
    ensures var at := Within(m, e0, run, k, i);
      WasAnnounced(ToldUntil(m, e0, run, k, i + 1), at, at.step + 1, run[k].roll, l)
  {
    hide AllInTime, TakesNoneBack, EncounterAt, LandingsOf, WasAnnounced, Within, ToldUntil, Tellings;
    WithinInTime(m, e0, run, k, i);
    OneMoreTold(m, e0, run, k, i);
    StepAnnounced(ToldUntil(m, e0, run, k, i), Within(m, e0, run, k, i), run[k].roll, l);
  }
}
