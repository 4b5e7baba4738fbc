/** Nothing is lost or doubled by rewinds, clean or not: every accepted act is in
    one history entry or waiting, and every report of an entry is handed on once. */
module Conservation {
  import opened Basics
  import opened Balance
  import opened Fights
  import opened Rollback
  import opened RollbackRuns

  function ActsIn(entries: seq<Entry>): seq<Act> {
    if entries == [] then [] else entries[0].acts + ActsIn(entries[1..])
  }

  lemma {:induction false} ActsConcat(a: seq<Entry>, b: seq<Entry>)
    ensures ActsIn(a + b) == ActsIn(a) + ActsIn(b)
    decreases |a|
  {
    if a == [] {
      assert a + b == b;
    } else {
      assert (a + b)[1..] == a[1..] + b;
      ActsConcat(a[1..], b);
    }
  }

  // Replays ----------------------------------------------------------------------------------

  /** The act a replay puts in, if the window isn't empty. */
  function PutIn(es: seq<Entry>, at: int, act: Option<Act>): multiset<Act> {
    if act.Some? && From(es, at) != [] then multiset{act.value} else multiset{}
  }

  ghost predicate QuietFrom(es: seq<Entry>, at: int) {
    forall i :: 0 <= i < |es| && es[i].step >= at ==> es[i].report == []
  }

  /** A replay of `es` keeps as many entries, puts just these acts into them, and
      reports exactly what it adds to the entries' reports. */
  ghost predicate Adds(es: seq<Entry>, rep: Replay, put: multiset<Act>) {
    && |rep.history| == |es|
    && multiset(ActsIn(rep.history)) == multiset(ActsIn(es)) + put
    && multiset(Reports(rep.history)) == multiset(Reports(es)) + multiset(rep.reported)
  }

  lemma ReplayOneConserves(m: Maths, info: PlayerInfo, scratch: DotState, sealed: bool, e: Entry, r: Revision,
                           clean: bool)
    requires clean ==> e.report == []
    ensures Adds([e], ReplayOne(m, info, scratch, sealed, e, r, clean),
                 if r.act.Some? then multiset{r.act.value} else multiset{})
  {
    hide Step, Reportable, SnapshotOf, ActsIn, Reports;
    var one := ReplayOne(m, info, scratch, sealed, e, r, clean);
    OfOne(e);
    OfOne(one.history[0]);
  }

  lemma OfOne(e: Entry)
    ensures ActsIn([e]) == e.acts && Reports([e]) == e.report
  {
    assert [e][1..] == [];
  }

  lemma AddsBoth(a: seq<Entry>, b: seq<Entry>, one: Replay, rep: Replay, put1: multiset<Act>, put: multiset<Act>)
    requires Adds(a, one, put1) && Adds(b, rep, put)
    ensures Adds(a + b, Replay(rep.scratch, rep.sealed, one.history + rep.history, one.reported + rep.reported),
                 put1 + put)
  {
    hide ActsIn, Reports;
    ActsConcat(a, b);
    ActsConcat(one.history, rep.history);
    ReportsConcat(a, b);
    ReportsConcat(one.history, rep.history);
  }

  /** A replay keeps as many entries, moves no act between them but puts the new
      one in once, and reports exactly what it adds to the entries' reports. */
  lemma {:induction false} ReplayConserves(m: Maths, info: PlayerInfo, scratch: DotState, sealed: bool, es: seq<Entry>,
                                           at: int, r: Revision, clean: bool)
    requires clean ==> QuietFrom(es, at)
    ensures Adds(es, ReplayAll(m, info, scratch, sealed, es, at, r, clean), PutIn(es, at, r.act))
    decreases |es|
  {
    hide ReplayOne, Adds, ActsIn, Reports;
    if es == [] {
      NothingAdded(scratch, sealed);
    } else {
      assert es == [es[0]] + es[1..];
      if es[0].step < at {
        ReplayConserves(m, info, scratch, sealed, es[1..], at, r, clean);
        var rep := ReplayAll(m, info, scratch, sealed, es[1..], at, r, clean);
        AddsUntouched([es[0]], rep.scratch, rep.sealed);
        AddsBoth([es[0]], es[1..], Replay(rep.scratch, rep.sealed, [es[0]], []), rep, multiset{},
                 PutIn(es[1..], at, r.act));
        assert [] + rep.reported == rep.reported;
        assert multiset{} + PutIn(es[1..], at, r.act) == PutIn(es, at, r.act);
      } else {
        var one := ReplayOne(m, info, scratch, sealed, es[0], r, clean);
        ReplayOneConserves(m, info, scratch, sealed, es[0], r, clean);
        ReplayConserves(m, info, one.scratch, one.sealed, es[1..], at, r.(act := None), clean);
        AddsBoth([es[0]], es[1..], one,
                 ReplayAll(m, info, one.scratch, one.sealed, es[1..], at, r.(act := None), clean),
                 if r.act.Some? then multiset{r.act.value} else multiset{}, multiset{});
        assert PutIn(es, at, r.act) + multiset{} == PutIn(es, at, r.act);
      }
    }
  }

  lemma NothingAdded(scratch: DotState, sealed: bool)
    ensures Adds([], Replay(scratch, sealed, [], []), multiset{})
  {
  }

  lemma AddsUntouched(es: seq<Entry>, scratch: DotState, sealed: bool)
    ensures Adds(es, Replay(scratch, sealed, es, []), multiset{})
  {
    hide ActsIn, Reports;
  }

  lemma {:induction false} CleanIsQuiet(history: seq<Entry>, at: int)
    requires Clean(history, at)
    ensures QuietFrom(history, at)
    decreases |history|
  {
    if history != [] {
      var w := From(history, at);
      if history[0].step >= at {
        assert w[0] == history[0] && Quiet(w[0]);
        assert w[1..] == From(history[1..], at);
      }
      assert Clean(history[1..], at) by {
        forall i | 0 <= i < |From(history[1..], at)| ensures Quiet(From(history[1..], at)[i]) {
          if history[0].step >= at { assert Quiet(w[i + 1]); } else { assert Quiet(w[i]); }
        }
      }
      CleanIsQuiet(history[1..], at);
    }
  }

  // All entries ever ---------------------------------------------------------------------------

  /** `gone` are the entries that have fallen out of the history; with it they are all there ever were. */
  ghost predicate Conserved(gone: seq<Entry>, p: PlayerState, accepted: multiset<Act>, told: multiset<Call>) {
    && |p.history| <= REWIND_STEPS
    && multiset(ActsIn(gone + p.history)) + multiset(p.acts) == accepted
    && multiset(Reports(gone + p.history)) == told
  }

  /** The act a rewind carries out. */
  ghost function CarriedOut(o: Rewound, r: Revision): multiset<Act> {
    if o.done && r.act.Some? then multiset{r.act.value} else multiset{}
  }

  lemma ConservedReplay(gone: seq<Entry>, p: PlayerState, q: PlayerState, rep: Replay, put: multiset<Act>,
                        accepted: multiset<Act>, told: multiset<Call>)
    requires Conserved(gone, p, accepted, told) && Adds(p.history, rep, put)
    requires q.history == rep.history && q.acts == p.acts
    ensures Conserved(gone, q, accepted + put, told + multiset(rep.reported))
  {
    hide ActsIn, Reports;
    AddsUntouched(gone, rep.scratch, rep.sealed);
    AddsBoth(gone, p.history, Replay(rep.scratch, rep.sealed, gone, []), rep, multiset{}, put);
    assert [] + rep.reported == rep.reported;
  }

  /** A rewind puts its act in once, if it's carried out, and hands on what it adds to the reports. */
  lemma RewindConserves(m: Maths, info: PlayerInfo, gone: seq<Entry>, p: PlayerState, at: int, r: Revision,
                        accepted: multiset<Act>, told: multiset<Call>)
    requires Conserved(gone, p, accepted, told)
    ensures var o := Rewind(m, info, p, at, r);
      Conserved(gone, o.p, accepted + CarriedOut(o, r), told + multiset(o.late))
  {
    hide ReplayAll, Restored, SnapshotOf, Clean, From, Conserved, Adds;
    NoMore(accepted, told);
    if CanRewind(p, at) {
      WindowNotEmpty(p.history, at);
      var clean := Clean(p.history, at);
      if clean { CleanIsQuiet(p.history, at); }
      var start := Restored(p.scratch, From(p.history, at)[0].snap);
      if r.act.Some? && !clean { return; }
      ReplayConserves(m, info, start, p.sealed, p.history, at, r, clean);
      ConservedReplay(gone, p, Rewind(m, info, p, at, r).p,
                      ReplayAll(m, info, start, p.sealed, p.history, at, r, clean),
                      PutIn(p.history, at, r.act), accepted, told);
    }
  }

  lemma NoMore(accepted: multiset<Act>, told: multiset<Call>)
    ensures accepted + multiset{} == accepted && told + multiset([]) == told
  {
  }

  // Operations ---------------------------------------------------------------------------------

  /** The acts an operation has accepted from the player. */
  function AcceptedIn(op: Op): multiset<Act> {
    match op
    case MessageOp(msg) => AcceptedAsk(msg.ask)
    case _ => multiset{}
  }

  /** Strikes with a slot and an aim, dodges, blocks and unblocks; a release unblocks too. */
  function AcceptedAsk(ask: Ask): multiset<Act> {
    if ActOf(ask).Some? then multiset{ActOf(ask).value} else if ask.AskRelease? then multiset{Unblock} else multiset{}
  }

  /** What falls out of the history as an operation is done: the oldest entry, as a step is added to a full one. */
  function DroppedBy(info: PlayerInfo, p: PlayerState, op: Op): seq<Entry> {
    if op.StepOp? && op.n > info.join && |p.history| >= REWIND_STEPS then p.history[..|p.history| + 1 - REWIND_STEPS]
    else []
  }

  /** One more entry, the oldest gone if the history was full. */
  lemma ConservedStep(gone: seq<Entry>, p: PlayerState, q: PlayerState, e: Entry, dropped: seq<Entry>,
                      accepted: multiset<Act>, told: multiset<Call>)
    requires Conserved(gone, p, accepted, told)
    requires q.history == LastN(p.history + [e], REWIND_STEPS) && q.acts == [] && e.acts == p.acts
    requires dropped == if |p.history| >= REWIND_STEPS then p.history[..|p.history| + 1 - REWIND_STEPS] else []
    ensures Conserved(gone + dropped, q, accepted, told + multiset(e.report))
  {
    hide ActsIn, Reports;
    assert gone + dropped + q.history == (gone + p.history) + [e] by {
      assert dropped + q.history == p.history + [e];
    }
    ActsConcat(gone + p.history, [e]);
    ReportsConcat(gone + p.history, [e]);
    OfOne(e);
  }

  lemma StepConserves(m: Maths, info: PlayerInfo, gone: seq<Entry>, p: PlayerState, n: int, mine: seq<Incoming>,
                      bosses: set<string>, accepted: multiset<Act>, told: multiset<Call>)
    requires Conserved(gone, p, accepted, told)
    ensures Conserved(gone + DroppedBy(info, p, StepOp(n, mine, bosses)), PlayerStep(m, info, p, n, mine, bosses).p,
                      accepted, told + multiset(HandedOn(m, info, p, StepOp(n, mine, bosses))))
  {
    hide Step, Reportable, SnapshotOf, FleeCalls, BlowsOf, Conserved, DotCalls;
    if n <= info.join {
      NoMore(accepted, told);
      assert gone + [] == gone;
    } else {
      var r := Reportable(info, bosses, p.sealed, Step(m, info.cfg, p.dot, p.keys, p.acts, BlowsOf(mine)).events, mine);
      var e := EntryOf(n, p.dot, p.keys, p.acts, mine, r.calls);
      StepTells(m, info, p, n, mine, bosses);
      ConservedStep(gone, p, PlayerStep(m, info, p, n, mine, bosses).p, e, DroppedBy(info, p, StepOp(n, mine, bosses)),
                    accepted, told);
    }
  }

  /** The rest of a player may change; its acts and its history are what's counted. */
  lemma ConservedStill(gone: seq<Entry>, p: PlayerState, q: PlayerState, more: seq<Act>, accepted: multiset<Act>,
                       told: multiset<Call>)
    requires Conserved(gone, p, accepted, told) && q.history == p.history && q.acts == p.acts + more
    ensures Conserved(gone, q, accepted + multiset(more), told + multiset([]))
  {
    hide ActsIn, Reports;
  }

  lemma TakeActConserves(m: Maths, info: PlayerInfo, gone: seq<Entry>, p: PlayerState, at: Option<int>, act: Act,
                         accepted: multiset<Act>, told: multiset<Call>)
    requires Conserved(gone, p, accepted, told)
    ensures var o := TakeAct(m, info, p, at, act);
      Conserved(gone, o.p, accepted + multiset{act}, told + multiset(o.late))
  {
    hide Rewind, Conserved;
    ConservedStill(gone, p, p.(acts := p.acts + [act]), [act], accepted, told);
    if at.Some? { RewindConserves(m, info, gone, p, at.value, Revision(None, Some(act)), accepted, told); }
  }

  lemma TakeKeysConserves(m: Maths, info: PlayerInfo, gone: seq<Entry>, p: PlayerState, at: Option<int>, keys: Keys,
                          accepted: multiset<Act>, told: multiset<Call>)
    requires Conserved(gone, p, accepted, told)
    ensures var o := TakeKeys(m, info, p, at, keys); Conserved(gone, o.p, accepted, told + multiset(o.late))
  {
    hide Rewind;
    NoMore(accepted, told);
    if keys != p.keys && at.Some? {
      RewindConserves(m, info, gone, p, at.value, Revision(Some(keys), None), accepted, told);
      NoMore(accepted, told + multiset(Rewind(m, info, p, at.value, Revision(Some(keys), None)).late));
    }
  }

  lemma TakeAskConserves(m: Maths, info: PlayerInfo, gone: seq<Entry>, p: PlayerState, at: Option<int>, ask: Ask,
                         accepted: multiset<Act>, told: multiset<Call>)
    requires Conserved(gone, p, accepted, told)
    ensures var o := TakeAsk(m, info, p, at, ask);
      Conserved(gone, o.p, accepted + AcceptedAsk(ask), told + multiset(DotCalls(o.late)))
  {
    hide TakeAct, DotCalls, Conserved;
    if ActOf(ask).Some? {
      TakeActConserves(m, info, gone, p, at, ActOf(ask).value, accepted, told);
      TakeActTellsDots(m, info, p, at, ActOf(ask).value);
    } else {
      OtherAsk(m, info, p, at, ask);
      var q := TakeAsk(m, info, p, at, ask).p;
      if ask.AskRelease? { ConservedStill(gone, p, q, [Unblock], accepted, told); }
      else { ConservedStill(gone, p, q, [], accepted, told); }
    }
  }

  lemma TakeActTellsDots(m: Maths, info: PlayerInfo, p: PlayerState, at: Option<int>, act: Act)
    ensures DotCalls(TakeAct(m, info, p, at, act).late) == TakeAct(m, info, p, at, act).late
  {
    hide Rewind;
    if at.Some? { RewindTellsDots(m, info, p, at.value, Revision(None, Some(act))); }
  }

  lemma TakeKeysTellsDots(m: Maths, info: PlayerInfo, p: PlayerState, at: Option<int>, keys: Keys)
    ensures DotCalls(TakeKeys(m, info, p, at, keys).late) == TakeKeys(m, info, p, at, keys).late
  {
    hide Rewind;
    if at.Some? { RewindTellsDots(m, info, p, at.value, Revision(Some(keys), None)); }
  }

  lemma MessageConserves(m: Maths, info: PlayerInfo, gone: seq<Entry>, p: PlayerState, msg: Message,
                         accepted: multiset<Act>, told: multiset<Call>)
    requires Conserved(gone, p, accepted, told)
    ensures Conserved(gone, TakeMessage(m, info, p, msg).p, accepted + AcceptedAsk(msg.ask),
                      told + multiset(HandedOn(m, info, p, MessageOp(msg))))
  {
    hide TakeKeys, TakeAsk, Conserved, DotCalls, Masked, AcceptedAsk;
    var p1 := Numbered(p, msg.seqNo);
    var k := if msg.keys.Some? then TakeKeys(m, info, p1, msg.at, Masked(msg.keys.value)) else Took(p1, []);
    ConservedStill(gone, p, p1, [], accepted, told);
    NoMore(accepted, told);
    if msg.keys.Some? {
      TakeKeysConserves(m, info, gone, p1, msg.at, Masked(msg.keys.value), accepted, told);
      TakeKeysTellsDots(m, info, p1, msg.at, Masked(msg.keys.value));
    } else {
      AllDotCalls([]);
    }
    TakeAskConserves(m, info, gone, k.p, msg.at, msg.ask, accepted, told + multiset(k.late));
    var late := TakeAsk(m, info, k.p, msg.at, msg.ask).late;
    DotCallsConcat(k.late, late);
    OneAfterTheOther(told, k.late, DotCalls(late));
  }

  lemma OneAfterTheOther(told: multiset<Call>, a: seq<Call>, b: seq<Call>)
    ensures told + multiset(a) + multiset(b) == told + multiset(a + b)
  {
  }

  // Runs ---------------------------------------------------------------------------------------

  function AcceptedBy(ops: seq<Op>, k: nat): multiset<Act>
    requires k <= |ops|
  {
    if k == 0 then multiset{} else AcceptedBy(ops, k - 1) + AcceptedIn(ops[k - 1])
  }

  /** The entries that have fallen out of the history in the first k operations. */
  function GoneBy(m: Maths, info: PlayerInfo, p0: PlayerState, ops: seq<Op>, k: nat): seq<Entry>
    requires k <= |ops|
  {
    if k == 0 then []
    else GoneBy(m, info, p0, ops, k - 1) + DroppedBy(info, PlayerAt(m, info, p0, ops, k - 1), ops[k - 1])
  }

  /** In every run, rewinds clean or not: the acts accepted (the opening strike's
      among them) are, each once, those of all history entries ever and those
      waiting for the next step; and the dot's consequences handed on are, each
      once, the reports of all entries ever. */
  lemma {:induction false} NothingLostOrDoubled(m: Maths, info: PlayerInfo, p0: PlayerState, ops: seq<Op>, k: nat)
    requires p0.history == [] && k <= |ops|
    ensures Conserved(GoneBy(m, info, p0, ops, k), PlayerAt(m, info, p0, ops, k),
                      multiset(p0.acts) + AcceptedBy(ops, k), multiset(ToldBy(m, info, p0, ops, k)))
  {
    hide Apply, HandedOn, ActsIn, Reports, AcceptedIn, Conserved, DroppedBy;
    if k == 0 {
      NoneYet(p0);
    } else {
      NothingLostOrDoubled(m, info, p0, ops, k - 1);
      var p, op := PlayerAt(m, info, p0, ops, k - 1), ops[k - 1];
      OpConserves(m, info, GoneBy(m, info, p0, ops, k - 1), p, op, multiset(p0.acts) + AcceptedBy(ops, k - 1),
                  multiset(ToldBy(m, info, p0, ops, k - 1)));
      OneAfterTheOther(multiset{}, ToldBy(m, info, p0, ops, k - 1), HandedOn(m, info, p, op));
      assert multiset(p0.acts) + AcceptedBy(ops, k - 1) + AcceptedIn(op) == multiset(p0.acts) + AcceptedBy(ops, k);
    }
  }

  lemma NoneYet(p: PlayerState)
    requires p.history == []
    ensures Conserved([], p, multiset(p.acts) + multiset{}, multiset([]))
  {
  }

  lemma OpConserves(m: Maths, info: PlayerInfo, gone: seq<Entry>, p: PlayerState, op: Op, accepted: multiset<Act>,
                    told: multiset<Call>)
    requires Conserved(gone, p, accepted, told)
    ensures Conserved(gone + DroppedBy(info, p, op), Apply(m, info, p, op), accepted + AcceptedIn(op),
                      told + multiset(HandedOn(m, info, p, op)))
  {
    hide PlayerStep, TakeMessage, DotCalls, Conserved, AcceptedAsk;
    assert gone + [] == gone;
    match op
    case StepOp(n, mine, bosses) =>
      StepConserves(m, info, gone, p, n, mine, bosses, accepted, told);
      NoMore(accepted, told);
    case MessageOp(msg) => MessageConserves(m, info, gone, p, msg, accepted, told);
    case StopOp(target) =>
      ConservedStill(gone, p, p.(dot := Cancelled(p.dot, target)), [], accepted, told);
  }
}
