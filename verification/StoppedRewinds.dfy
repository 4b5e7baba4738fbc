/** What becomes of volleys stopped between the steps a clean rewind replays: the
    stop survives exactly when there was nothing to stop as the window began. */
module StoppedRewinds {
  import opened Basics
  import opened Balance
  import opened Runs
  import opened Snapshots
  import opened Stops
  import opened Fights
  import opened Rollback

  ghost predicate NoStrikeAt(calls: seq<Call>, stop: Option<string>) {
    forall i :: 0 <= i < |calls| && calls[i].CallStrike? && calls[i].hit.Struck? ==> !Aims(stop, calls[i].hit.target)
  }

  ghost predicate TellsStrikeAt(calls: seq<Call>, stop: Option<string>) {
    exists i :: 0 <= i < |calls| && calls[i].CallStrike? && calls[i].hit.Struck? && Aims(stop, calls[i].hit.target)
  }

  // Reports ----------------------------------------------------------------------------------

  lemma {:induction false} ReportsNoStrike(info: PlayerInfo, bosses: set<string>, sealed: bool, events: seq<Event>,
                                           mine: seq<Incoming>, stop: Option<string>)
    requires NoStruckAt(events, stop)
    ensures NoStrikeAt(Reportable(info, bosses, sealed, events, mine).calls, stop)
    decreases |events|
  {
    if events != [] {
      var first := CallsOf(info, bosses, sealed, events[0], mine);
      assert NoStruckAt(events[1..], stop);
      ReportsNoStrike(info, bosses, first.sealed, events[1..], Rest(events[0], mine), stop);
      OneReportsNoStrike(info, bosses, sealed, events[0], mine, stop);
    }
  }

  lemma OneReportsNoStrike(info: PlayerInfo, bosses: set<string>, sealed: bool, e: Event, mine: seq<Incoming>,
                           stop: Option<string>)
    requires e.Struck? ==> !Aims(stop, e.target)
    ensures NoStrikeAt(CallsOf(info, bosses, sealed, e, mine).calls, stop)
  {
  }

  lemma {:induction false} ReportsStrike(info: PlayerInfo, bosses: set<string>, sealed: bool, events: seq<Event>,
                                         mine: seq<Incoming>, e: Event)
    requires e in events && e.Struck?
    ensures CallStrike(info.pid, e) in Reportable(info, bosses, sealed, events, mine).calls
    decreases |events|
  {
    if events[0] != e {
      ReportsStrike(info, bosses, CallsOf(info, bosses, sealed, events[0], mine).sealed, events[1..],
                    Rest(events[0], mine), e);
    }
  }

  // A clean replay ---------------------------------------------------------------------------

  /** No press at the target in the window: none buffered as it begins, none among
      its acts, and none put in. */
  ghost predicate NoPressIn(entries: seq<Entry>, r: Revision, stop: Option<string>) {
    && (forall i :: 0 <= i < |entries| ==> NoPress(entries[i].acts, stop))
    && (r.act.Some? ==> NoPress([r.act.value], stop))
  }

  lemma RevisedNoPress(e: Entry, r: Revision, stop: Option<string>)
    requires NoPress(e.acts, stop) && (r.act.Some? ==> NoPress([r.act.value], stop))
    ensures NoPress(Revised(e, r).acts, stop)
  {
    if r.act.Some? { assert [r.act.value][0] == r.act.value; }
  }

  lemma ReplayOneStaysAway(m: Maths, info: PlayerInfo, scratch: DotState, sealed: bool, e: Entry, r: Revision,
                           stop: Option<string>)
    requires NoneBuffered(scratch.pending, stop) && NoneAt(scratch.volleys, stop)
    requires NoPress(Revised(e, r).acts, stop)
    ensures var one := ReplayOne(m, info, scratch, sealed, e, r, true);
      NoneBuffered(one.scratch.pending, stop) && NoneAt(one.scratch.volleys, stop) && NoStrikeAt(one.reported, stop)
  {
    hide Step, Reportable, SnapshotOf, NoPress, NoneAt, NoStruckAt, NoStrikeAt;
    var e1 := Revised(e, r);
    var i := Input(e1.keys, e1.acts, e1.blows);
    StepStaysAway(m, info.cfg, scratch, i, stop);
    ReportsNoStrike(info, {}, sealed, StepOn(m, info.cfg, scratch, i).events, [], stop);
  }

  lemma NoPressRest(es: seq<Entry>, at: int, r: Revision, stop: Option<string>)
    requires es != [] && NoPressIn(From(es, at), r, stop)
    ensures NoPressIn(From(es[1..], at), if es[0].step < at then r else r.(act := None), stop)
    ensures es[0].step >= at ==> NoPress(es[0].acts, stop)
  {
    hide NoPress;
    var w, rest := From(es, at), From(es[1..], at);
    if es[0].step < at {
      assert w == rest;
    } else {
      assert w == [es[0]] + rest;
      assert w[0] == es[0];
      forall i | 0 <= i < |rest| ensures NoPress(rest[i].acts, stop) { assert w[i + 1] == rest[i]; }
    }
  }

  lemma {:induction false} ReplayStaysAway(m: Maths, info: PlayerInfo, scratch: DotState, sealed: bool, es: seq<Entry>,
                                           at: int, r: Revision, stop: Option<string>)
    requires NoneBuffered(scratch.pending, stop) && NoneAt(scratch.volleys, stop) && NoPressIn(From(es, at), r, stop)
    ensures var rep := ReplayAll(m, info, scratch, sealed, es, at, r, true);
      NoneAt(rep.scratch.volleys, stop) && NoStrikeAt(rep.reported, stop)
    decreases |es|
  {
    hide ReplayOne, NoneAt, NoneBuffered, NoPress;
    if es != [] {
      NoPressRest(es, at, r, stop);
      if es[0].step < at {
        ReplayStaysAway(m, info, scratch, sealed, es[1..], at, r, stop);
      } else {
        RevisedNoPress(es[0], r, stop);
        ReplayOneStaysAway(m, info, scratch, sealed, es[0], r, stop);
        var one := ReplayOne(m, info, scratch, sealed, es[0], r, true);
        ReplayStaysAway(m, info, one.scratch, one.sealed, es[1..], at, r.(act := None), stop);
      }
    }
  }

  lemma ReplayOneStrikesOrFlies(m: Maths, info: PlayerInfo, scratch: DotState, sealed: bool, e: Entry, r: Revision,
                                stop: Option<string>)
    requires !NoneAt(scratch.volleys, stop)
    ensures var one := ReplayOne(m, info, scratch, sealed, e, r, true);
      !NoneAt(one.scratch.volleys, stop) || TellsStrikeAt(one.reported, stop)
  {
    hide Step, Reportable, SnapshotOf;
    var e1 := Revised(e, r);
    var i := Input(e1.keys, e1.acts, e1.blows);
    var k :| 0 <= k < |scratch.volleys| && Aims(stop, scratch.volleys[k].target);
    var v := scratch.volleys[k];
    StepLandsOrGoesOn(m, info.cfg, scratch, i, k);
    var o := StepOn(m, info.cfg, scratch, i);
    if v.left > 1 {
      var j :| 0 <= j < |o.s.volleys| && o.s.volleys[j] == v.(left := v.left - 1);
      assert Aims(stop, o.s.volleys[j].target);
    } else {
      var hit := Struck(v.slot, v.target, v.tier, v.hit, info.cfg.GearIn(v.slot).hits);
      ReportsStrike(info, {}, sealed, o.events, [], hit);
      var told := ReplayOne(m, info, scratch, sealed, e, r, true).reported;
      var j :| 0 <= j < |told| && told[j] == CallStrike(info.pid, hit);
      assert Aims(stop, told[j].hit.target);
    }
  }

  lemma {:induction false} ReplayStrikesOrFlies(m: Maths, info: PlayerInfo, scratch: DotState, sealed: bool,
                                                es: seq<Entry>, at: int, r: Revision, stop: Option<string>)
    requires !NoneAt(scratch.volleys, stop)
    ensures var rep := ReplayAll(m, info, scratch, sealed, es, at, r, true);
      !NoneAt(rep.scratch.volleys, stop) || TellsStrikeAt(rep.reported, stop)
    decreases |es|
  {
    hide ReplayOne, NoneAt;
    if es != [] {
      if es[0].step < at {
        ReplayStrikesOrFlies(m, info, scratch, sealed, es[1..], at, r, stop);
      } else {
        ReplayOneStrikesOrFlies(m, info, scratch, sealed, es[0], r, stop);
        var one := ReplayOne(m, info, scratch, sealed, es[0], r, true);
        var rest := ReplayAll(m, info, one.scratch, one.sealed, es[1..], at, r.(act := None), true);
        if TellsStrikeAt(one.reported, stop) {
          TellsEither(one.reported, rest.reported, stop);
        } else {
          ReplayStrikesOrFlies(m, info, one.scratch, one.sealed, es[1..], at, r.(act := None), stop);
          TellsEither(one.reported, rest.reported, stop);
        }
      }
    }
  }

  lemma TellsEither(a: seq<Call>, b: seq<Call>, stop: Option<string>)
    ensures TellsStrikeAt(a, stop) || TellsStrikeAt(b, stop) ==> TellsStrikeAt(a + b, stop)
  {
    if TellsStrikeAt(a, stop) {
      var i :| 0 <= i < |a| && a[i].CallStrike? && a[i].hit.Struck? && Aims(stop, a[i].hit.target);
      assert (a + b)[i] == a[i];
    }
    if TellsStrikeAt(b, stop) {
      var i :| 0 <= i < |b| && b[i].CallStrike? && b[i].hit.Struck? && Aims(stop, b[i].hit.target);
      assert (a + b)[|a| + i] == b[i];
    }
  }

  // The stop ---------------------------------------------------------------------------------

  /** The player after volleys are stopped and then a rewind is made. */
  function StoppedThenRewound(m: Maths, info: PlayerInfo, p: PlayerState, stop: Option<string>, at: int,
                              r: Revision): Rewound {
    Rewind(m, info, p.(dot := Cancelled(p.dot, stop)), at, r)
  }

  lemma CleanRewindsWindow(m: Maths, info: PlayerInfo, p: PlayerState, stop: Option<string>, at: int, r: Revision)
    requires CanRewind(p, at) && Clean(p.history, at)
    ensures From(p.history, at) != []
    ensures var rep := ReplayAll(m, info, Restored(p.scratch, From(p.history, at)[0].snap), p.sealed, p.history, at, r,
                                 true);
      var o := StoppedThenRewound(m, info, p, stop, at, r);
      o.p.dot.volleys == rep.scratch.volleys && o.late == rep.reported
  {
    hide ReplayAll, From, Clean, Cancelled;
    WindowNotEmpty(p.history, at);
  }

  /** Volleys stopped since a clean window began, with no press at their target in
      it: after a rewind over the window none of them is under way and none has
      landed, if and only if the window began with none at that target. */
  lemma StopSurvivesExactlyWhen(m: Maths, info: PlayerInfo, p: PlayerState, stop: Option<string>, at: int, r: Revision)
    requires CanRewind(p, at) && Clean(p.history, at) && From(p.history, at) != []
    requires NoneBuffered(From(p.history, at)[0].snap.pending, stop) && NoPressIn(From(p.history, at), r, stop)
    ensures var o := StoppedThenRewound(m, info, p, stop, at, r);
      NoneAt(o.p.dot.volleys, stop) && NoStrikeAt(o.late, stop) <==> NoneAt(From(p.history, at)[0].snap.volleys, stop)
  {
    hide ReplayAll, From, Clean, StoppedThenRewound, NoneAt, NoPressIn;
    CleanRewindsWindow(m, info, p, stop, at, r);
    var start := Restored(p.scratch, From(p.history, at)[0].snap);
    if NoneAt(start.volleys, stop) {
      ReplayStaysAway(m, info, start, p.sealed, p.history, at, r, stop);
    } else {
      ReplayStrikesOrFlies(m, info, start, p.sealed, p.history, at, r, stop);
    }
  }

  // A quiet run ------------------------------------------------------------------------------

  /** A volley under way through steps that report nothing has more steps to go than they are. */
  lemma {:induction false} QuietVolleysLast(m: Maths, info: PlayerInfo, l: Line, b: seq<Item>, k: nat)
    requires AllRan(b) && b != [] && k < |l.dot.volleys|
    requires forall i :: 0 <= i < |Entries(m, info, l, b)| ==> Quiet(Entries(m, info, l, b)[i])
    ensures l.dot.volleys[k].left > |b|
    decreases |b|
  {
    hide Step, Reportable, BlowsOf, SnapshotOf;
    var v := l.dot.volleys[k];
    var e, l1 := EntryFor(m, info, l, b[0]), LineNext(m, info, l, b[0]);
    assert Entries(m, info, l, b)[0] == e;
    QuietStepLandsNone(m, info, l, b[0], k);
    if |b| > 1 {
      var j :| 0 <= j < |l1.dot.volleys| && l1.dot.volleys[j] == v.(left := v.left - 1);
      assert Entries(m, info, l, b)[1..] == Entries(m, info, l1, b[1..]);
      QuietVolleysLast(m, info, l1, b[1..], j);
    }
  }

  lemma QuietStepLandsNone(m: Maths, info: PlayerInfo, l: Line, i: Item, k: nat)
    requires i.Ran? && k < |l.dot.volleys| && EntryFor(m, info, l, i).report == []
    ensures var v := l.dot.volleys[k]; v.left > 1 && v.(left := v.left - 1) in LineNext(m, info, l, i).dot.volleys
  {
    hide Step, Reportable, BlowsOf, SnapshotOf;
    var input := Input(i.keys, i.acts, BlowsOf(i.mine));
    StepLandsOrGoesOn(m, info.cfg, l.dot, input, k);
    var v, o := l.dot.volleys[k], StepOn(m, info.cfg, l.dot, input);
    if v.left <= 1 {
      ReportsStrike(info, i.bosses, l.sealed, o.events, i.mine,
                    Struck(v.slot, v.target, v.tier, v.hit, info.cfg.GearIn(v.slot).hits));
    }
  }

  // A coherent player ------------------------------------------------------------------------

  /** A volley at a target with more than some steps still to go. */
  ghost predicate Flying(volleys: seq<Volley>, stop: Option<string>, steps: int) {
    exists i :: 0 <= i < |volleys| && Aims(stop, volleys[i].target) && volleys[i].left > steps
  }

  lemma OneFlying(m: Maths, info: PlayerInfo, scratch: DotState, sealed: bool, e: Entry, r: Revision, clean: bool,
                  stop: Option<string>, steps: nat)
    requires Flying(scratch.volleys, stop, steps + 1)
    ensures Flying(ReplayOne(m, info, scratch, sealed, e, r, clean).scratch.volleys, stop, steps)
  {
    hide Step, Reportable, SnapshotOf;
    var e1 := Revised(e, r);
    var i := Input(e1.keys, e1.acts, e1.blows);
    var k :| 0 <= k < |scratch.volleys| && Aims(stop, scratch.volleys[k].target) && scratch.volleys[k].left > steps + 1;
    var v := scratch.volleys[k];
    StepLandsOrGoesOn(m, info.cfg, scratch, i, k);
    var next := StepOn(m, info.cfg, scratch, i).s.volleys;
    var j :| 0 <= j < |next| && next[j] == v.(left := v.left - 1);
    assert Aims(stop, next[j].target) && next[j].left > steps;
  }

  lemma {:induction false} ReplayFlying(m: Maths, info: PlayerInfo, scratch: DotState, sealed: bool, es: seq<Entry>,
                                        at: int, r: Revision, clean: bool, stop: Option<string>)
    requires Flying(scratch.volleys, stop, |From(es, at)|)
    ensures Flying(ReplayAll(m, info, scratch, sealed, es, at, r, clean).scratch.volleys, stop, 0)
    decreases |es|
  {
    hide ReplayOne, Flying;
    if es != [] {
      if es[0].step < at {
        ReplayFlying(m, info, scratch, sealed, es[1..], at, r, clean, stop);
      } else {
        var one := ReplayOne(m, info, scratch, sealed, es[0], r, clean);
        OneFlying(m, info, scratch, sealed, es[0], r, clean, stop, |From(es[1..], at)|);
        ReplayFlying(m, info, one.scratch, one.sealed, es[1..], at, r.(act := None), clean, stop);
      }
    }
  }

  /** The first snapshot of a coherent player's clean window: its volleys all outlast the window. */
  lemma WindowVolleysLast(m: Maths, info: PlayerInfo, l0: Line, items: seq<Item>, p: PlayerState, at: int, k: nat)
    requires Coherent(m, info, l0, items, p) && CleanWindow(items, p, at)
    requires From(p.history, at) != [] && k < |From(p.history, at)[0].snap.volleys|
    ensures From(p.history, at)[0].snap.volleys[k].left > |From(p.history, at)|
  {
    hide LineAfter, Entries, LineNext, EntryFor, Ordered, LastN, Alike, Quiet;
    var w := |From(p.history, at)|;
    var a, b := items[..|items| - w], items[|items| - w..];
    assert items == a + b;
    var l := LineAfter(m, info, l0, a);
    LineConcat(m, info, l0, a, b);
    OneEntryEach(m, info, l, b);
    var kept := WindowIs(p.history, Entries(m, info, l0, a), Entries(m, info, l, b), at, REWIND_STEPS);
    FirstSnap(m, info, l, b);
    QuietVolleysLast(m, info, l, b, k);
  }

  lemma FirstSnap(m: Maths, info: PlayerInfo, l: Line, b: seq<Item>)
    requires AllRan(b) && b != []
    ensures Entries(m, info, l, b) != [] && Entries(m, info, l, b)[0].snap.volleys == l.dot.volleys
  {
    hide Step, Reportable;
  }

  /** For a coherent player, with no press at the target in a clean window: volleys
      stopped since the window began stay stopped through a rewind over it if and
      only if it began with none at that target. */
  lemma CoherentStopSurvivesExactlyWhen(m: Maths, info: PlayerInfo, l0: Line, items: seq<Item>, p: PlayerState,
                                        stop: Option<string>, at: int, r: Revision)
    requires Coherent(m, info, l0, items, p) && CleanWindow(items, p, at) && From(p.history, at) != []
    requires NoneBuffered(From(p.history, at)[0].snap.pending, stop) && NoPressIn(From(p.history, at), r, stop)
    ensures NoneAt(StoppedThenRewound(m, info, p, stop, at, r).p.dot.volleys, stop)
      <==> NoneAt(From(p.history, at)[0].snap.volleys, stop)
  {
    hide ReplayAll, From, Clean, StoppedThenRewound, NoPressIn, Coherent, Flying;
    StopSurvivesExactlyWhen(m, info, p, stop, at, r);
    if !NoneAt(From(p.history, at)[0].snap.volleys, stop) {
      var start := Restored(p.scratch, From(p.history, at)[0].snap);
      var k :| 0 <= k < |start.volleys| && Aims(stop, start.volleys[k].target);
      WindowVolleysLast(m, info, l0, items, p, at, k);
      IsFlying(start.volleys, stop, |From(p.history, at)|, k);
      ReplayFlying(m, info, start, p.sealed, p.history, at, r, true, stop);
      CleanRewindsWindow(m, info, p, stop, at, r);
      FlyingIsSome(StoppedThenRewound(m, info, p, stop, at, r).p.dot.volleys, stop, 0);
    }
  }

  lemma IsFlying(volleys: seq<Volley>, stop: Option<string>, steps: int, k: nat)
    requires k < |volleys| && Aims(stop, volleys[k].target) && volleys[k].left > steps
    ensures Flying(volleys, stop, steps)
  {
  }

  lemma FlyingIsSome(volleys: seq<Volley>, stop: Option<string>, steps: int)
    requires Flying(volleys, stop, steps)
    ensures !NoneAt(volleys, stop)
  {
  }

  /** And one that outlasts any clean window comes back with the rewind, coherent or not. */
  lemma StopForgotten(m: Maths, info: PlayerInfo, p: PlayerState, stop: Option<string>, at: int, r: Revision)
    requires CanRewind(p, at) && Clean(p.history, at) && From(p.history, at) != []
    requires Flying(From(p.history, at)[0].snap.volleys, stop, |From(p.history, at)|)
    ensures NoneAt(Cancelled(p.dot, stop).volleys, stop)
    ensures Flying(StoppedThenRewound(m, info, p, stop, at, r).p.dot.volleys, stop, 0)
  {
    hide ReplayAll, From, Clean, Flying, StoppedThenRewound;
    StopLeavesNone(p.dot.volleys, stop);
    CleanRewindsWindow(m, info, p, stop, at, r);
    var start := Restored(p.scratch, From(p.history, at)[0].snap);
    ReplayFlying(m, info, start, p.sealed, p.history, at, r, true, stop);
  }
}
