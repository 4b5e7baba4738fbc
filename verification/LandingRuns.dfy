/** Over a whole run every landing is accounted for: the blows handed on are, each
    once, the attacks that landed. */
module LandingRuns {
  import opened Basics
  import opened Balance
  import opened Fights
  import opened RollbackRuns
  import opened Encounters
  import opened Overdue
  import opened Landings
  import opened Handovers

  // A rewind hands on no blow --------------------------------------------------------------------

  ghost predicate NoBlowsIn(calls: seq<Call>) {
    forall i :: 0 <= i < |calls| ==> !calls[i].CallBlow?
  }

  lemma {:induction false} NoKeys(calls: seq<Call>)
    requires NoBlowsIn(calls)
    ensures BlownKeys(calls) == multiset{}
    decreases |calls|
  {
    if calls != [] { NoKeys(calls[1..]); }
  }

  lemma {:induction false} ReportsNoBlow(info: PlayerInfo, bosses: set<string>, sealed: bool, events: seq<Event>)
    ensures NoBlowsIn(Reportable(info, bosses, sealed, events, []).calls)
    decreases |events|
  {
    if events != [] { ReportsNoBlow(info, bosses, CallsOf(info, bosses, sealed, events[0], []).sealed, events[1..]); }
  }

  lemma {:induction false} ReplayNoBlow(m: Maths, info: PlayerInfo, scratch: DotState, sealed: bool, es: seq<Entry>,
                                        at: int, r: Revision, clean: bool)
    ensures NoBlowsIn(ReplayAll(m, info, scratch, sealed, es, at, r, clean).reported)
    decreases |es|
  {
    hide ReplayOne;
    if es != [] {
      if es[0].step < at {
        ReplayNoBlow(m, info, scratch, sealed, es[1..], at, r, clean);
      } else {
        var one := ReplayOne(m, info, scratch, sealed, es[0], r, clean);
        ReplayOneNoBlow(m, info, scratch, sealed, es[0], r, clean);
        ReplayNoBlow(m, info, one.scratch, one.sealed, es[1..], at, r.(act := None), clean);
      }
    }
  }

  lemma ReplayOneNoBlow(m: Maths, info: PlayerInfo, scratch: DotState, sealed: bool, e: Entry, r: Revision, clean: bool)
    ensures NoBlowsIn(ReplayOne(m, info, scratch, sealed, e, r, clean).reported)
  {
    hide Step, Reportable, SnapshotOf;
    var e1 := Revised(e, r);
    ReportsNoBlow(info, {}, sealed, Step(m, info.cfg, scratch, e1.keys, e1.acts, e1.blows).events);
  }

  lemma RewindNoBlow(m: Maths, info: PlayerInfo, p: PlayerState, at: int, r: Revision)
    ensures NoBlowsIn(Rewind(m, info, p, at, r).late)
  {
    hide ReplayAll, Restored, SnapshotOf, From;
    if CanRewind(p, at) {
      WindowNotEmpty(p.history, at);
      ReplayNoBlow(m, info, Restored(p.scratch, From(p.history, at)[0].snap), p.sealed, p.history, at, r,
                   Clean(p.history, at));
    }
  }

  lemma AskNoBlow(m: Maths, info: PlayerInfo, p: PlayerState, at: Option<int>, ask: Ask)
    ensures NoBlowsIn(TakeAsk(m, info, p, at, ask).late)
  {
    hide Rewind;
    if ActOf(ask).Some? && at.Some? { RewindNoBlow(m, info, p, at.value, Revision(None, Some(ActOf(ask).value))); }
  }

  lemma MessageNoBlow(m: Maths, info: PlayerInfo, p: PlayerState, msg: Message)
    ensures NoBlowsIn(TakeMessage(m, info, p, msg).late)
  {
    hide Rewind, TakeAsk, Masked;
    var p1 := Numbered(p, msg.seqNo);
    var k := if msg.keys.Some? then TakeKeys(m, info, p1, msg.at, Masked(msg.keys.value)) else Took(p1, []);
    if msg.keys.Some? && msg.at.Some? {
      RewindNoBlow(m, info, p1, msg.at.value, Revision(Some(Masked(msg.keys.value)), None));
    }
    AskNoBlow(m, info, k.p, msg.at, msg.ask);
  }

  // Runs -----------------------------------------------------------------------------------------

  /** The landings of a number of steps. */
  function StepsLandings(m: Maths, e: Encounter, roll: Roll, k: nat): multiset<BlowKey> {
    if k == 0 then multiset{}
    else
      var at := RunSteps(m, e, roll, k - 1).e;
      StepsLandings(m, e, roll, k - 1) + KeysOf(LandingsOf(at, at.step + 1, roll))
  }

  /** The landings of the first k happenings: of the steps their ticks ran. */
  function LandingsBy(m: Maths, e0: Encounter, run: seq<Happening>, k: nat): multiset<BlowKey>
    requires k <= |run|
  {
    if k == 0 then multiset{}
    else
      var e := EncounterAt(m, e0, run, k - 1);
      LandingsBy(m, e0, run, k - 1)
      + if run[k - 1].Tick? then StepsLandings(m, e.(late := []), run[k - 1].roll, ToRun(e, run[k - 1].now))
        else multiset{}
  }

  lemma {:induction false} StepsAccounted(m: Maths, e: Encounter, roll: Roll, k: nat)
    requires Distinct(e.fighters)
    ensures BlownKeys(RunSteps(m, e, roll, k).calls) == StepsLandings(m, e, roll, k)
    decreases k
  {
    hide Distinct, EncounterNext, StepCalls, BlownKeys, KeysOf, LandingsOf;
    if k == 0 {
      Nothing();
    } else {
      StepsAccounted(m, e, roll, k - 1);
      var at := RunSteps(m, e, roll, k - 1).e;
      StepsSameInfos(m, e, roll, k - 1);
      SameInfosDistinct(e.fighters, at.fighters);
      EveryLandingAccounted(m, at, at.step + 1, roll);
      BlownKeysConcat(RunSteps(m, e, roll, k - 1).calls, StepCalls(m, at, at.step + 1, roll));
    }
  }

  lemma MoreAccounted(m: Maths, e: Encounter, h: Happening)
    requires Distinct(e.fighters)
    ensures BlownKeys(More(m, e, h)) ==
      if h.Tick? then StepsLandings(m, e.(late := []), h.roll, ToRun(e, h.now)) else multiset{}
  {
    hide Distinct, RunSteps, TakeMessage, BlownKeys, StepsLandings, PlayerIndex;
    Nothing();
    match h
    case Tick(roll, now) => StepsAccounted(m, e.(late := []), roll, ToRun(e, now));
    case InputTaken(who, msg) =>
      var k := PlayerIndex(e.fighters, who);
      if k.Some? {
        MessageNoBlow(m, e.fighters[k.value].info, e.fighters[k.value].p, msg);
        NoKeys(TakeMessage(m, e.fighters[k.value].info, e.fighters[k.value].p, msg).late);
      }
    case _ =>
  }

  /** In every run, the blows the ticks have handed on are (with any waiting at
      first), each once, the attacks that landed in their steps, each with whom
      it fell on (AttackLandsOnce): whoever comes, goes, rewinds or stalls. */
  lemma {:induction false} LandingsAccounted(m: Maths, e0: Encounter, run: seq<Happening>, k: nat)
    requires k <= |run| && Distinct(e0.fighters) && AllHappen(m, e0, run, k)
    ensures BlownKeys(SentAt(m, e0, run, k)) == BlownKeys(e0.late) + LandingsBy(m, e0, run, k)
    decreases k
  {
    hide Distinct, Happens, More, SentAt, EncounterAt, BlownKeys, StepsLandings, ToRun;
    if k == 0 {
      SentAtFirst(m, e0, run);
    } else {
      LandingsAccounted(m, e0, run, k - 1);
      RunKeepsDistinct(m, e0, run, k - 1);
      SentGrows(m, e0, run, k - 1);
      var e := EncounterAt(m, e0, run, k - 1);
      MoreAccounted(m, e, run[k - 1]);
      BlownKeysConcat(SentAt(m, e0, run, k - 1), More(m, e, run[k - 1]));
    }
  }
}
