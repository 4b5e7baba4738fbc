/** Whose each call is: a player's own, however the calls of a fight are mixed. */
module Sent {
  import opened Basics
  import opened Balance
  import opened Fights
  import opened RollbackRuns

  predicate Names(c: Call, pid: string) {
    match c
    case CallStrike(p, _) => p == pid
    case CallBlow(_, _, p, _) => p == pid
    case CallRefused(p, _) => p == pid
    case CallPassive(p, _) => p == pid
    case CallFlee(p, _) => p == pid
    case _ => false
  }

  /** A poise call names no player: it follows the blow perfectly blocked. */
  predicate PoiseNext(calls: seq<Call>) {
    |calls| >= 2 && calls[0].CallBlow? && calls[1].CallPoise?
  }

  /** A player's own calls among some, each with the poise call that follows it. */
  function Own(pid: string, calls: seq<Call>): seq<Call>
    decreases |calls|
  {
    if calls == [] then []
    else if !Names(calls[0], pid) then Own(pid, calls[1..])
    else if PoiseNext(calls) then [calls[0], calls[1]] + Own(pid, calls[2..])
    else [calls[0]] + Own(pid, calls[1..])
  }

  predicate PoiseFirst(calls: seq<Call>) { calls != [] && calls[0].CallPoise? }

  /** How many of the calls the first step of Own takes, and whether it keeps them. */
  function Taken(pid: string, calls: seq<Call>): nat {
    if calls == [] then 0 else if Names(calls[0], pid) && PoiseNext(calls) then 2 else 1
  }

  lemma OwnUnfolds(pid: string, calls: seq<Call>)
    requires calls != []
    ensures Taken(pid, calls) <= |calls|
    ensures Own(pid, calls) ==
      (if Names(calls[0], pid) then calls[..Taken(pid, calls)] else []) + Own(pid, calls[Taken(pid, calls)..])
  {
    hide Names;
    if PoiseNext(calls) { assert calls[..2] == [calls[0], calls[1]]; }
  }

  lemma TakenSame(pid: string, a: seq<Call>, b: seq<Call>)
    requires a != [] && !PoiseFirst(b)
    ensures Taken(pid, a + b) == Taken(pid, a) <= |a|
  {
    hide Names;
    var c := a + b;
    assert c[0] == a[0];
    if |a| > 1 { assert c[1] == a[1]; } else if b != [] { assert c[1] == b[0]; }
  }

  lemma {:induction false} OwnConcat(pid: string, a: seq<Call>, b: seq<Call>)
    requires !PoiseFirst(b)
    ensures Own(pid, a + b) == Own(pid, a) + Own(pid, b)
    decreases |a|
  {
    hide Names, Own, Taken, PoiseFirst;
    if a == [] {
      assert a + b == b;
      OwnNothing(pid);
    } else {
      var c, n := a + b, Taken(pid, a);
      OwnUnfolds(pid, a);
      OwnUnfolds(pid, c);
      TakenSame(pid, a, b);
      TakesSome(pid, a);
      assert c[0] == a[0] && c[..n] == a[..n] && c[n..] == a[n..] + b;
      OwnConcat(pid, a[n..], b);
    }
  }

  lemma OwnNothing(pid: string)
    ensures Own(pid, []) == []
  {
  }

  lemma TakesSome(pid: string, calls: seq<Call>)
    requires calls != []
    ensures Taken(pid, calls) >= 1
  {
  }

  // Calls of one player ------------------------------------------------------------------------

  /** All a player's own. */
  predicate AllOwn(pid: string, calls: seq<Call>)
    decreases |calls|
  {
    calls == [] || (Names(calls[0], pid) && AllOwn(pid, if PoiseNext(calls) then calls[2..] else calls[1..]))
  }

  lemma NoPoiseFirst(pid: string, calls: seq<Call>)
    requires AllOwn(pid, calls)
    ensures !PoiseFirst(calls)
  {
  }

  lemma {:induction false} AllOwnConcat(pid: string, a: seq<Call>, b: seq<Call>)
    requires AllOwn(pid, a) && AllOwn(pid, b)
    ensures AllOwn(pid, a + b)
    decreases |a|
  {
    hide Names;
    var c := a + b;
    if a == [] {
      assert c == b;
    } else {
      NoPoiseFirst(pid, b);
      assert c[0] == a[0];
      if PoiseNext(a) {
        assert c[2..] == a[2..] + b && c[1] == a[1];
        AllOwnConcat(pid, a[2..], b);
      } else {
        assert c[1..] == a[1..] + b;
        AllOwnConcat(pid, a[1..], b);
        if |a| > 1 { assert c[1] == a[1]; }
        assert !PoiseNext(c);
      }
    }
  }

  /** A player's own calls are all of them. */
  lemma {:induction false} OwnOfOwn(pid: string, calls: seq<Call>)
    requires AllOwn(pid, calls)
    ensures Own(pid, calls) == calls
    decreases |calls|
  {
    hide Names;
    if calls != [] {
      if PoiseNext(calls) {
        OwnOfOwn(pid, calls[2..]);
        assert calls == [calls[0], calls[1]] + calls[2..];
      } else {
        OwnOfOwn(pid, calls[1..]);
      }
    }
  }

  lemma NamesOne(c: Call, pid: string, other: string)
    requires Names(c, pid) && pid != other
    ensures !Names(c, other)
  {
  }

  lemma PoiseNamesNone(c: Call, pid: string)
    requires c.CallPoise?
    ensures !Names(c, pid)
  {
  }

  /** And another's, none. */
  lemma {:induction false} OwnIsNotOthers(pid: string, other: string, calls: seq<Call>)
    requires pid != other && AllOwn(pid, calls)
    ensures Own(other, calls) == []
    decreases |calls|
  {
    hide Names;
    if calls != [] {
      NamesOne(calls[0], pid, other);
      if PoiseNext(calls) {
        PoiseNamesNone(calls[1], other);
        assert calls[1..][0] == calls[1] && calls[1..][1..] == calls[2..];
        OwnIsNotOthers(pid, other, calls[2..]);
      } else {
        OwnIsNotOthers(pid, other, calls[1..]);
      }
    }
  }

  lemma OneOwn(pid: string, c: Call)
    requires Names(c, pid)
    ensures AllOwn(pid, [c])
  {
    assert [c][1..] == [];
  }

  // What a player's operations hand on -----------------------------------------------------------

  lemma OneEventsOwn(info: PlayerInfo, bosses: set<string>, sealed: bool, e: Event, mine: seq<Incoming>)
    ensures AllOwn(info.pid, CallsOf(info, bosses, sealed, e, mine).calls)
  {
    var calls := CallsOf(info, bosses, sealed, e, mine).calls;
    if |calls| == 1 {
      assert calls == [calls[0]];
      OneOwn(info.pid, calls[0]);
    } else if |calls| == 2 {
      assert PoiseNext(calls) && calls[2..] == [];
    }
  }

  lemma {:induction false} ReportsOwn(info: PlayerInfo, bosses: set<string>, sealed: bool, events: seq<Event>,
                                      mine: seq<Incoming>)
    ensures AllOwn(info.pid, Reportable(info, bosses, sealed, events, mine).calls)
    decreases |events|
  {
    hide AllOwn, CallsOf;
    if events == [] {
      NothingOwn(info.pid);
    } else {
      var first := CallsOf(info, bosses, sealed, events[0], mine);
      OneEventsOwn(info, bosses, sealed, events[0], mine);
      ReportsOwn(info, bosses, first.sealed, events[1..], Rest(events[0], mine));
      AllOwnConcat(info.pid, first.calls,
                   Reportable(info, bosses, first.sealed, events[1..], Rest(events[0], mine)).calls);
    }
  }

  lemma NothingOwn(pid: string)
    ensures AllOwn(pid, [])
  {
  }

  lemma {:induction false} LandingOwn(info: PlayerInfo, mine: seq<Incoming>)
    ensures AllOwn(info.pid, CallsLanding(info, mine))
    decreases |mine|
  {
    if mine != [] {
      LandingOwn(info, mine[1..]);
      OneOwn(info.pid, CallBlow(mine[0].nid, mine[0].attack, info.pid, Hit));
      AllOwnConcat(info.pid, [CallBlow(mine[0].nid, mine[0].attack, info.pid, Hit)], CallsLanding(info, mine[1..]));
    }
  }

  lemma StepOwn(m: Maths, info: PlayerInfo, p: PlayerState, n: int, mine: seq<Incoming>, bosses: set<string>)
    ensures AllOwn(info.pid, PlayerStep(m, info, p, n, mine, bosses).calls)
  {
    hide Step, Reportable, SnapshotOf, BlowsOf, AllOwn, CallsLanding;
    if n <= info.join {
      LandingOwn(info, mine);
    } else {
      var r := Reportable(info, bosses, p.sealed, Step(m, info.cfg, p.dot, p.keys, p.acts, BlowsOf(mine)).events, mine);
      ReportsOwn(info, bosses, p.sealed, Step(m, info.cfg, p.dot, p.keys, p.acts, BlowsOf(mine)).events, mine);
      FleeOwn(m, info, p);
      AllOwnConcat(info.pid, FleeCalls(m, info, p), r.calls);
    }
  }

  lemma FleeOwn(m: Maths, info: PlayerInfo, p: PlayerState)
    ensures AllOwn(info.pid, FleeCalls(m, info, p))
  {
    hide InCore;
    var calls := FleeCalls(m, info, p);
    if calls != [] { OneOwn(info.pid, calls[0]); }
  }

  lemma {:induction false} ReplayOwn(m: Maths, info: PlayerInfo, scratch: DotState, sealed: bool, es: seq<Entry>,
                                     at: int, r: Revision, clean: bool)
    ensures AllOwn(info.pid, ReplayAll(m, info, scratch, sealed, es, at, r, clean).reported)
    decreases |es|
  {
    hide AllOwn, ReplayOne;
    if es == [] {
      NothingOwn(info.pid);
    } else if es[0].step < at {
      ReplayOwn(m, info, scratch, sealed, es[1..], at, r, clean);
    } else {
      var one := ReplayOne(m, info, scratch, sealed, es[0], r, clean);
      ReplayOneOwn(m, info, scratch, sealed, es[0], r, clean);
      ReplayOwn(m, info, one.scratch, one.sealed, es[1..], at, r.(act := None), clean);
      AllOwnConcat(info.pid, one.reported,
                   ReplayAll(m, info, one.scratch, one.sealed, es[1..], at, r.(act := None), clean).reported);
    }
  }

  lemma ReplayOneOwn(m: Maths, info: PlayerInfo, scratch: DotState, sealed: bool, e: Entry, r: Revision, clean: bool)
    ensures AllOwn(info.pid, ReplayOne(m, info, scratch, sealed, e, r, clean).reported)
  {
    hide Step, Reportable, SnapshotOf;
    var e1 := Revised(e, r);
    ReportsOwn(info, {}, sealed, Step(m, info.cfg, scratch, e1.keys, e1.acts, e1.blows).events, []);
  }

  lemma RewindOwn(m: Maths, info: PlayerInfo, p: PlayerState, at: int, r: Revision)
    ensures AllOwn(info.pid, Rewind(m, info, p, at, r).late)
  {
    hide ReplayAll, Restored, SnapshotOf, From, AllOwn;
    NothingOwn(info.pid);
    if CanRewind(p, at) {
      WindowNotEmpty(p.history, at);
      ReplayOwn(m, info, Restored(p.scratch, From(p.history, at)[0].snap), p.sealed, p.history, at, r,
                Clean(p.history, at));
    }
  }

  lemma AskOwn(m: Maths, info: PlayerInfo, p: PlayerState, at: Option<int>, ask: Ask)
    ensures AllOwn(info.pid, TakeAsk(m, info, p, at, ask).late)
  {
    hide Rewind, AllOwn;
    NothingOwn(info.pid);
    if ask.AskStrike? { OneOwn(info.pid, CallRefused(info.pid, NoTarget(ask.slot))); }
    if ActOf(ask).Some? && at.Some? { RewindOwn(m, info, p, at.value, Revision(None, Some(ActOf(ask).value))); }
  }

  lemma MessageOwn(m: Maths, info: PlayerInfo, p: PlayerState, msg: Message)
    ensures AllOwn(info.pid, TakeMessage(m, info, p, msg).late)
  {
    hide Rewind, TakeAsk, AllOwn, Masked;
    NothingOwn(info.pid);
    var p1 := Numbered(p, msg.seqNo);
    var k := if msg.keys.Some? then TakeKeys(m, info, p1, msg.at, Masked(msg.keys.value)) else Took(p1, []);
    if msg.keys.Some? && msg.at.Some? {
      RewindOwn(m, info, p1, msg.at.value, Revision(Some(Masked(msg.keys.value)), None));
    }
    AskOwn(m, info, k.p, msg.at, msg.ask);
    AllOwnConcat(info.pid, k.late, TakeAsk(m, info, k.p, msg.at, msg.ask).late);
  }

  /** Everything an operation hands on. */
  function Gives(m: Maths, info: PlayerInfo, p: PlayerState, op: Op): seq<Call> {
    match op
    case StepOp(n, mine, bosses) => PlayerStep(m, info, p, n, mine, bosses).calls
    case MessageOp(msg) => TakeMessage(m, info, p, msg).late
    case StopOp(_) => []
  }

  /** Everything the first k operations hand on, in order. */
  function OutBy(m: Maths, info: PlayerInfo, p0: PlayerState, ops: seq<Op>, k: nat): seq<Call>
    requires k <= |ops|
  {
    if k == 0 then []
    else OutBy(m, info, p0, ops, k - 1) + Gives(m, info, PlayerAt(m, info, p0, ops, k - 1), ops[k - 1])
  }

  /** The blows that land before a player is on their feet: no dot meets them. */
  function LandedBy(info: PlayerInfo, ops: seq<Op>, k: nat): seq<Call>
    requires k <= |ops|
  {
    if k == 0 then []
    else
      LandedBy(info, ops, k - 1)
      + if ops[k - 1].StepOp? && ops[k - 1].n <= info.join then CallsLanding(info, ops[k - 1].mine) else []
  }

  lemma {:induction false} LandingIsFromDot(info: PlayerInfo, mine: seq<Incoming>)
    ensures DotCalls(CallsLanding(info, mine)) == CallsLanding(info, mine)
    decreases |mine|
  {
    if mine != [] {
      LandingIsFromDot(info, mine[1..]);
      var c := CallsLanding(info, mine);
      assert c[1..] == CallsLanding(info, mine[1..]) && FromDot(c[0]);
    }
  }

  lemma DotCallsOfOne(m: Maths, info: PlayerInfo, p: PlayerState, op: Op)
    ensures DotCalls(Gives(m, info, p, op)) ==
      if op.StepOp? && op.n <= info.join then CallsLanding(info, op.mine) else HandedOn(m, info, p, op)
  {
    hide TakeMessage, DotCalls, Step, Reportable, FleeCalls, CallsLanding;
    if op.StepOp? && op.n <= info.join { LandingIsFromDot(info, op.mine); }
    if op.StopOp? { NoDotCalls(); }
  }

  lemma NoDotCalls()
    ensures DotCalls([]) == []
  {
  }

  /** The dot's consequences in it: what its steps and rewinds told, and the blows
      that landed before it was on its feet. */
  lemma {:induction false} DotCallsOut(m: Maths, info: PlayerInfo, p0: PlayerState, ops: seq<Op>, k: nat)
    requires k <= |ops|
    ensures multiset(DotCalls(OutBy(m, info, p0, ops, k)))
      == multiset(ToldBy(m, info, p0, ops, k)) + multiset(LandedBy(info, ops, k))
    decreases k
  {
    hide Gives, HandedOn, DotCalls, PlayerAt, CallsLanding;
    if k == 0 {
      NoDotCalls();
    } else {
      DotCallsOut(m, info, p0, ops, k - 1);
      var p, op := PlayerAt(m, info, p0, ops, k - 1), ops[k - 1];
      DotCallsConcat(OutBy(m, info, p0, ops, k - 1), Gives(m, info, p, op));
      DotCallsOfOne(m, info, p, op);
      var landed := if op.StepOp? && op.n <= info.join then CallsLanding(info, op.mine) else [];
      assert op.StepOp? && op.n <= info.join ==> HandedOn(m, info, p, op) == [] by { NotTold(m, info, p, op); }
      SplitParts(DotCalls(OutBy(m, info, p0, ops, k - 1)), DotCalls(Gives(m, info, p, op)),
                 ToldBy(m, info, p0, ops, k - 1), HandedOn(m, info, p, op), LandedBy(info, ops, k - 1), landed);
    }
  }

  lemma NotTold(m: Maths, info: PlayerInfo, p: PlayerState, op: Op)
    ensures op.StepOp? && op.n <= info.join ==> HandedOn(m, info, p, op) == []
  {
    hide PlayerStep, TakeMessage, DotCalls;
  }

  lemma SplitParts(a: seq<Call>, one: seq<Call>, told: seq<Call>, tell: seq<Call>, landed: seq<Call>, land: seq<Call>)
    requires multiset(a) == multiset(told) + multiset(landed)
    requires (one == tell && land == []) || (one == land && tell == [])
    ensures multiset(a + one) == multiset(told + tell) + multiset(landed + land)
  {
  }

  // Runs put together ------------------------------------------------------------------------

  lemma {:induction false} OutByPrefix(m: Maths, info: PlayerInfo, p: PlayerState, a: seq<Op>, b: seq<Op>, k: nat)
    requires k <= |a|
    ensures PlayerAt(m, info, p, a + b, k) == PlayerAt(m, info, p, a, k)
    ensures OutBy(m, info, p, a + b, k) == OutBy(m, info, p, a, k)
    decreases k
  {
    hide Apply, Gives;
    if k > 0 { OutByPrefix(m, info, p, a, b, k - 1); }
  }

  lemma {:induction false} OutByConcat(m: Maths, info: PlayerInfo, p: PlayerState, a: seq<Op>, b: seq<Op>, k: nat)
    requires k <= |b|
    ensures PlayerAt(m, info, p, a + b, |a| + k) == PlayerAt(m, info, PlayerAt(m, info, p, a, |a|), b, k)
    ensures OutBy(m, info, p, a + b, |a| + k)
      == OutBy(m, info, p, a, |a|) + OutBy(m, info, PlayerAt(m, info, p, a, |a|), b, k)
    decreases k
  {
    hide Apply, Gives;
    if k == 0 {
      OutByPrefix(m, info, p, a, b, |a|);
    } else {
      OutByConcat(m, info, p, a, b, k - 1);
      assert (a + b)[|a| + k - 1] == b[k - 1];
    }
  }
}
