/** A player as an encounter's owner keeps it, changed in place by steps, inputs
    and rewinds. Each method is proved to do what Fights says as a function. */
module Players {
  import opened Basics
  import opened Balance
  import opened Dots
  import opened Fights
  import opened Blows

  class Player {
    const m: Maths
    const info: PlayerInfo
    const dot: Dot
    const scratch: Dot
    var keys: Keys
    var seqNo: int
    var acts: seq<Act>
    var flee: Option<string>
    var sealed: bool
    var history: seq<Fights.Entry>

    /** The dots are its own, by the same rules. */
    ghost predicate Valid() {
      dot != scratch && dot.m == m && scratch.m == m && dot.cfg == info.cfg && scratch.cfg == info.cfg
    }

    function State(): PlayerState
      reads this, dot, scratch
    {
      PlayerState(dot.State(), scratch.State(), keys, seqNo, acts, flee, sealed, history)
    }

    /** A player joining, with the strike that started the fight if they made it. */
    constructor (m: Maths, info: PlayerInfo, seed: int, opening: Option<Act>)
      ensures Valid() && this.m == m && this.info == info && fresh(dot) && fresh(scratch)
      ensures State() == PlayerState(Start(m, info.cfg, seed), Start(m, info.cfg, seed), 0, 0,
                                     if opening.Some? then [opening.value] else [], None, false, [])
    {
      hide Start;
      this.m, this.info := m, info;
      var d := new Dot(m, info.cfg, seed);
      var s := new Dot(m, info.cfg, seed);
      dot, scratch := d, s;
      keys, seqNo, flee, sealed, history := 0, 0, None, false, [];
      acts := if opening.Some? then [opening.value] else [];
    }

    /** The calls a step's events come to (Reportable); the k-th blow event goes with
        the k-th of `mine`, of which there are enough. */
    method Report(events: seq<Event>, mine: seq<Incoming>, bosses: set<string>) returns (calls: seq<Call>)
      requires |Results(events)| <= |mine|
      modifies this`sealed
      ensures Fights.Report(calls, sealed) == Reportable(info, bosses, old(sealed), events, mine)
    {
      hide CallsOf, Results, Reportable, Telling, Rest;
      calls := [];
      var k := 0;
      ghost var all := Reportable(info, bosses, sealed, events, mine);
      assert events[0..] == events && mine[0..] == mine;
      TellingNothing(all);
      for i := 0 to |events|
        invariant k <= |mine| && |Results(events[i..])| <= |mine| - k
        invariant all == Telling(calls, Reportable(info, bosses, sealed, events[i..], mine[k..]))
      {
        ghost var left, coming := events[i..], mine[k..];
        FirstResult(left);
        TellingNext(info, bosses, sealed, left, coming, calls);
        assert left[0] == events[i] && left[1..] == events[i + 1..];
        var more := ReportOne(events[i], mine, k, bosses);
        RestIs(events[i], coming);
        if events[i].Blown? {
          assert coming[1..] == mine[k + 1..];
          k := k + 1;
        }
        calls := calls + more;
      }
      TellingEnds(info, bosses, sealed, events[|events|..], mine[k..], calls);
    }

    method ReportOne(e: Event, mine: seq<Incoming>, k: nat, bosses: set<string>) returns (calls: seq<Call>)
      requires k <= |mine| && (e.Blown? ==> k < |mine|)
      modifies this`sealed
      ensures Fights.Report(calls, sealed) == CallsOf(info, bosses, old(sealed), e, mine[k..])
    {
      calls := [];
      match e
      case Struck(_, _, _, _, _) => calls := [CallStrike(info.pid, e)];
      case Blown(result, _) =>
        calls := [CallBlow(mine[k].nid, mine[k].attack, info.pid, result)];
        if result == PerfectBlock && mine[k].nid in bosses {
          calls := calls + [CallPoise(mine[k].nid)];
        }
      case StrikeRefused(slot, why) => calls := [CallRefused(info.pid, OfStrike(slot, why))];
      case Refused(act, why) => calls := [CallRefused(info.pid, OfAct(act, why))];
      case SecondWind => calls := [CallPassive(info.pid, "second_wind")];
      case Staggered(_) =>
        if info.berserk && !sealed {
          sealed := true;
          calls := [CallPassive(info.pid, "seal")];
        }
      case _ =>
    }

    /** Their part of global step n. */
    method RunStep(n: int, mine: seq<Incoming>, bosses: set<string>) returns (calls: seq<Call>)
      requires Valid()
      modifies this, dot
      ensures Stepped(State(), calls) == PlayerStep(m, info, old(State()), n, mine, bosses)
    {
      hide Step, Reportable, CallsLanding, FleeCalls, BlowsOf;
      if n <= info.join {
        calls := JustLand(mine);
        return;
      }
      calls := Flee();
      var doing := acts;
      acts := [];
      var landing := BlowsOf(mine);
      var snap := dot.TakeSnapshot();
      StepMeetsEachBlow(m, info.cfg, dot.State(), keys, doing, landing);
      var events := dot.Step(keys, doing, landing);
      var told := Report(events, mine, bosses);
      history := LastN(history + [Entry(n, snap, keys, doing, landing, told)], REWIND_STEPS);
      calls := calls + told;
    }

    /** Not on their feet yet: the blows just land. */
    method JustLand(mine: seq<Incoming>) returns (calls: seq<Call>)
      ensures calls == CallsLanding(info, mine)
    {
      calls := [];
      for i := 0 to |mine|
        invariant CallsLanding(info, mine) == calls + CallsLanding(info, mine[i..])
      {
        calls := calls + [CallBlow(mine[i].nid, mine[i].attack, info.pid, Hit)];
        assert mine[i..][1..] == mine[i + 1..];
      }
    }

    method Flee() returns (calls: seq<Call>)
      requires Valid()
      modifies this`flee
      ensures calls == FleeCalls(m, info, old(State())) && flee == None
    {
      calls := [];
      if flee.Some? {
        var direction := flee.value;
        flee := None;
        if dot.footing.stagger > 0 || Dist(m, dot.motion) > Core(info.cfg, dot.feats.breath) {
          calls := [CallRefused(info.pid, OfFlee)];
        } else {
          calls := [CallFlee(info.pid, direction)];
        }
      }
    }

    // Rewinding ------------------------------------------------------------------------------

    /** A revision put into the history from a step on. Not done, and nothing changed,
        where the step hasn't been run yet or an act comes to an unclean window. */
    method Rewind(at: int, r: Revision) returns (done: bool, late: seq<Call>)
      requires Valid()
      modifies this, dot, scratch
      ensures Rewound(State(), done, late) == Fights.Rewind(m, info, old(State()), at, r)
      ensures !done ==> State() == old(State()) && late == []
    {
      hide ReplayAll, Clean, From, Restored, SnapshotOf, Dot.State;
      if history == [] || at > history[|history| - 1].step {
        return false, [];
      }
      WindowNotEmpty(history, at);
      var entries := From(history, at);
      var clean := Clean(history, at);
      if r.act.Some? && !clean {
        return false, [];
      }
      scratch.Restore(entries[0].snap);
      late := Replay(at, r, clean);
      if clean {
        var snap := scratch.TakeSnapshot();
        dot.Restore(snap);
      } else {
        TakeRewound();
      }
      done := true;
    }

    /** The replay's motion and footing, and no more of it. */
    method TakeRewound()
      requires Valid()
      modifies dot
      ensures dot.State() == old(dot.State()).(motion := scratch.State().motion, footing := scratch.State().footing)
    {
      dot.motion := scratch.motion;
      dot.footing := scratch.footing;
    }

    /** Each entry from a step on replayed in place, the act in the first of them. */
    method Replay(at: int, r: Revision, clean: bool) returns (late: seq<Call>)
      requires Valid()
      requires clean ==> Clean(history, at)
      modifies this`history, this`sealed, scratch
      ensures Fights.Replay(scratch.State(), sealed, history, late) ==
        ReplayAll(m, info, old(scratch.State()), old(sealed), old(history), at, r, clean)
    {
      hide ReplayOne, ReplayAll, Clean, Dot.State, Onto;
      late := [];
      var now := r;
      ghost var was := history;
      ghost var all := ReplayAll(m, info, scratch.State(), sealed, was, at, r, clean);
      assert was[0..] == was;
      OntoNothing(all);
      for i := 0 to |history|
        invariant |history| == |was| && history[i..] == was[i..]
        invariant clean ==> Clean(was[i..], at)
        invariant all == Onto(history[..i], late, ReplayAll(m, info, scratch.State(), sealed, was[i..], at, now, clean))
      {
        ghost var left := was[i..];
        assert left[0] == history[i] && left[1..] == was[i + 1..];
        CleanSplits(left, at);
        ghost var done := history[..i];
        OntoNext(m, info, done, late, scratch.State(), sealed, left, at, now, clean);
        if history[i].step >= at {
          var e, more := ReplayEntry(history[i], now, clean);
          history := history[i := e];
          assert history[..i + 1] == done + [e];
          late := late + more;
          now := now.(act := None);
        } else {
          assert history[..i + 1] == done + [left[0]];
        }
      }
      assert was[|was|..] == [] && history[..|was|] == history;
      OntoEnd(m, info, history, late, scratch.State(), sealed, at, now, clean);
    }

    method ReplayEntry(e: Fights.Entry, r: Revision, clean: bool) returns (e1: Fights.Entry, late: seq<Call>)
      requires Valid() && (clean ==> e.blows == [])
      modifies this`sealed, scratch
      ensures Fights.Replay(scratch.State(), sealed, [e1], late)
        == ReplayOne(m, info, old(scratch.State()), old(sealed), e, r, clean)
    {
      hide Step, Reportable, SnapshotOf, Dot.State;
      var snap := scratch.TakeSnapshot();
      e1 := Revised(e, r).(snap := snap);
      StepMeetsEachBlow(m, info.cfg, scratch.State(), e1.keys, e1.acts, e1.blows);
      var events := scratch.Step(e1.keys, e1.acts, e1.blows);
      late := [];
      if clean {
        late := Report(events, [], {});
        e1 := e1.(report := late);
      }
    }

    /** Volleys at a target stopped, between steps. */
    method StopVolleys(target: Option<string>)
      requires Valid()
      modifies dot
      ensures State() == old(State()).(dot := Cancelled(old(State()).dot, target))
    {
      hide CancelVolleys;
      dot.CancelVolleys(target);
    }

    // Inputs ---------------------------------------------------------------------------------

    /** A message taken in: its number, then its keys, then what it asks for. */
    method Input(msg: Message) returns (late: seq<Call>)
      requires Valid()
      modifies this, dot, scratch
      ensures Took(State(), late) == TakeMessage(m, info, old(State()), msg)
    {
      hide TakeKeys, TakeAsk, Masked;
      if msg.seqNo.Some? && msg.seqNo.value > seqNo {
        seqNo := msg.seqNo.value;
      }
      late := [];
      if msg.keys.Some? {
        late := HoldKeys(msg.at, Masked(msg.keys.value));
      }
      var more := DoAsk(msg.at, msg.ask);
      late := late + more;
    }

    method HoldKeys(at: Option<int>, held: Keys) returns (late: seq<Call>)
      requires Valid()
      modifies this, dot, scratch
      ensures Took(State(), late) == TakeKeys(m, info, old(State()), at, held)
    {
      hide Fights.Rewind;
      late := [];
      if held != keys && at.Some? {
        var done;
        done, late := Rewind(at.value, Revision(Some(held), None));
      }
      keys := held;
    }

    method DoAsk(at: Option<int>, ask: Ask) returns (late: seq<Call>)
      requires Valid()
      modifies this, dot, scratch
      ensures Took(State(), late) == TakeAsk(m, info, old(State()), at, ask)
    {
      hide TakeAct;
      late := [];
      match ask
      case NoAsk =>
      case AskStrike(slot, aim) =>
        if 1 <= slot && slot <= 3 {
          if aim == None {
            late := [CallRefused(info.pid, NoTarget(slot))];
          } else {
            late := ActNow(at, Strike(slot, aim));
          }
        }
      case AskDodge => late := ActNow(at, Dodge);
      case AskBlock => late := ActNow(at, Block);
      case AskUnblock => late := ActNow(at, Unblock);
      case AskFlee(direction) =>
        flee := Some(if |direction| > 16 then direction[..16] else direction);
      case AskRelease =>
        keys := 0;
        acts := acts + [Unblock];
    }

    /** At the step it was done, if it may; else waiting for the next. */
    method ActNow(at: Option<int>, act: Act) returns (late: seq<Call>)
      requires Valid()
      modifies this, dot, scratch
      ensures Took(State(), late) == TakeAct(m, info, old(State()), at, act)
    {
      hide Fights.Rewind;
      var done := false;
      late := [];
      if at.Some? {
        done, late := Rewind(at.value, Revision(None, Some(act)));
      }
      if !done {
        acts := acts + [act];
      }
    }
  }

  /** What a replay comes to, after the entries and reports it has so far. */
  ghost function Onto(done: seq<Fights.Entry>, late: seq<Call>, rest: Fights.Replay): Fights.Replay {
    Fights.Replay(rest.scratch, rest.sealed, done + rest.history, late + rest.reported)
  }

  lemma OntoNothing(rest: Fights.Replay)
    ensures Onto([], [], rest) == rest
  {
  }

  lemma OntoEnd(m: Maths, info: PlayerInfo, done: seq<Fights.Entry>, late: seq<Call>, scratch: DotState, sealed: bool,
                at: int, r: Revision, clean: bool)
    ensures Onto(done, late, ReplayAll(m, info, scratch, sealed, [], at, r, clean))
      == Fights.Replay(scratch, sealed, done, late)
  {
  }

  lemma OntoNext(m: Maths, info: PlayerInfo, done: seq<Fights.Entry>, late: seq<Call>, scratch: DotState, sealed: bool,
                 left: seq<Fights.Entry>, at: int, r: Revision, clean: bool)
    requires left != []
    ensures Onto(done, late, ReplayAll(m, info, scratch, sealed, left, at, r, clean)) ==
      if left[0].step < at then
        Onto(done + [left[0]], late, ReplayAll(m, info, scratch, sealed, left[1..], at, r, clean))
      else
        var one := ReplayOne(m, info, scratch, sealed, left[0], r, clean);
        Onto(done + one.history, late + one.reported,
             ReplayAll(m, info, one.scratch, one.sealed, left[1..], at, r.(act := None), clean))
  {
    hide ReplayOne;
  }

  /** What a report comes to, after the calls it has so far. */
  ghost function Telling(calls: seq<Call>, rest: Fights.Report): Fights.Report {
    Fights.Report(calls + rest.calls, rest.sealed)
  }

  lemma TellingNothing(all: Fights.Report)
    ensures Telling([], all) == all
  {
  }

  lemma TellingNext(info: PlayerInfo, bosses: set<string>, sealed: bool, left: seq<Event>, mine: seq<Incoming>,
                    calls: seq<Call>)
    requires left != []
    ensures var first := CallsOf(info, bosses, sealed, left[0], mine);
      Telling(calls, Reportable(info, bosses, sealed, left, mine))
        == Telling(calls + first.calls, Reportable(info, bosses, first.sealed, left[1..], Rest(left[0], mine)))
  {
    hide CallsOf, Rest;
  }

  lemma TellingEnds(info: PlayerInfo, bosses: set<string>, sealed: bool, left: seq<Event>, mine: seq<Incoming>,
                    calls: seq<Call>)
    requires left == []
    ensures Telling(calls, Reportable(info, bosses, sealed, left, mine)) == Fights.Report(calls, sealed)
  {
  }

  lemma RestIs(e: Event, mine: seq<Incoming>)
    requires e.Blown? ==> mine != []
    ensures Rest(e, mine) == if e.Blown? then mine[1..] else mine
  {
  }

  lemma FirstResult(events: seq<Event>)
    requires events != []
    ensures |Results(events)| == (if events[0].Blown? then 1 else 0) + |Results(events[1..])|
  {
  }

  /** The part of a clean history after its first entry is clean; and if the first is in the window, so is it. */
  lemma CleanSplits(history: seq<Fights.Entry>, at: int)
    requires history != []
    ensures Clean(history, at) ==> Clean(history[1..], at)
    ensures Clean(history, at) && history[0].step >= at ==> history[0].blows == []
  {
    var rest := From(history[1..], at);
    if history[0].step >= at {
      assert From(history, at) == [history[0]] + rest;
      if Clean(history, at) { QuietTail(history[0], rest); }
    } else {
      assert From(history, at) == rest;
    }
  }

  lemma QuietTail(e: Fights.Entry, rest: seq<Fights.Entry>)
    requires forall i :: 0 <= i < |[e] + rest| ==> Quiet(([e] + rest)[i])
    ensures Quiet(e) && forall i :: 0 <= i < |rest| ==> Quiet(rest[i])
  {
    assert Quiet(([e] + rest)[0]);
    forall i | 0 <= i < |rest| ensures Quiet(rest[i]) { assert Quiet(([e] + rest)[i + 1]); }
  }
}
