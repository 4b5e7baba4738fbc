/** Whole runs of steps, inputs and stopped volleys: while every rewind's window is
    clean, the player stands as in the run with every input in time. */
module RollbackRuns {
  import opened Basics
  import opened Balance
  import opened Snapshots
  import opened Fights
  import opened Rollback

  datatype Op =
    | StepOp(n: int, mine: seq<Incoming>, bosses: set<string>)
    | MessageOp(msg: Message)
    | StopOp(target: Option<string>)

  function Apply(m: Maths, info: PlayerInfo, p: PlayerState, op: Op): PlayerState {
    match op
    case StepOp(n, mine, bosses) => PlayerStep(m, info, p, n, mine, bosses).p
    case MessageOp(msg) => TakeMessage(m, info, p, msg).p
    case StopOp(target) => p.(dot := Cancelled(p.dot, target))
  }

  // The dot's consequences among the calls ------------------------------------------------------

  /** A consequence of a dot's step: not a flight, nor a refusal the owner makes itself. */
  predicate FromDot(c: Call) {
    c.CallStrike? || c.CallBlow? || c.CallPoise? || c.CallPassive?
      || (c.CallRefused? && (c.refusal.OfStrike? || c.refusal.OfAct?))
  }

  function DotCalls(calls: seq<Call>): seq<Call> {
    if calls == [] then [] else (if FromDot(calls[0]) then [calls[0]] else []) + DotCalls(calls[1..])
  }

  lemma {:induction false} DotCallsConcat(a: seq<Call>, b: seq<Call>)
    ensures DotCalls(a + b) == DotCalls(a) + DotCalls(b)
    decreases |a|
  {
    hide FromDot;
    if a == [] {
      assert a + b == b;
    } else {
      var c, first := a + b, if FromDot(a[0]) then [a[0]] else [];
      assert c[0] == a[0] && c[1..] == a[1..] + b;
      DotCallsConcat(a[1..], b);
      assert DotCalls(c) == first + (DotCalls(a[1..]) + DotCalls(b));
    }
  }

  lemma {:induction false} AllDotCalls(calls: seq<Call>)
    requires forall i :: 0 <= i < |calls| ==> FromDot(calls[i])
    ensures DotCalls(calls) == calls
    decreases |calls|
  {
    if calls != [] { AllDotCalls(calls[1..]); }
  }

  lemma {:induction false} ReportsFromDot(info: PlayerInfo, bosses: set<string>, sealed: bool, events: seq<Event>,
                                          mine: seq<Incoming>)
    ensures forall i :: 0 <= i < |Reportable(info, bosses, sealed, events, mine).calls| ==>
      FromDot(Reportable(info, bosses, sealed, events, mine).calls[i])
    decreases |events|
  {
    if events != [] {
      var first := CallsOf(info, bosses, sealed, events[0], mine);
      ReportsFromDot(info, bosses, first.sealed, events[1..], Rest(events[0], mine));
      CallsFromDot(info, bosses, sealed, events[0], mine);
    }
  }

  lemma CallsFromDot(info: PlayerInfo, bosses: set<string>, sealed: bool, e: Event, mine: seq<Incoming>)
    ensures forall i :: 0 <= i < |CallsOf(info, bosses, sealed, e, mine).calls| ==>
      FromDot(CallsOf(info, bosses, sealed, e, mine).calls[i])
  {
  }

  /** The dot's consequences an operation hands on, in `calls` or in `late`. */
  function HandedOn(m: Maths, info: PlayerInfo, p: PlayerState, op: Op): seq<Call> {
    match op
    case StepOp(n, mine, bosses) =>
      if n <= info.join then [] else DotCalls(PlayerStep(m, info, p, n, mine, bosses).calls)
    case MessageOp(msg) => DotCalls(TakeMessage(m, info, p, msg).late)
    case StopOp(_) => []
  }

  lemma StepTells(m: Maths, info: PlayerInfo, p: PlayerState, n: int, mine: seq<Incoming>, bosses: set<string>)
    requires n > info.join
    ensures HandedOn(m, info, p, StepOp(n, mine, bosses))
      == PlayerStep(m, info, p, n, mine, bosses).calls[|FleeCalls(m, info, p)|..]
    ensures HandedOn(m, info, p, StepOp(n, mine, bosses)) ==
      Reportable(info, bosses, p.sealed, Step(m, info.cfg, p.dot, p.keys, p.acts, BlowsOf(mine)).events, mine).calls
  {
    hide Step, Reportable, InCore;
    var r := Reportable(info, bosses, p.sealed, Step(m, info.cfg, p.dot, p.keys, p.acts, BlowsOf(mine)).events, mine);
    ReportsFromDot(info, bosses, p.sealed, Step(m, info.cfg, p.dot, p.keys, p.acts, BlowsOf(mine)).events, mine);
    DotCallsConcat(FleeCalls(m, info, p), r.calls);
    AllDotCalls(r.calls);
    FleeIsNotTheDots(m, info, p);
  }

  lemma FleeIsNotTheDots(m: Maths, info: PlayerInfo, p: PlayerState)
    ensures DotCalls(FleeCalls(m, info, p)) == []
  {
    hide InCore;
    var c := FleeCalls(m, info, p);
    if c != [] { assert c[1..] == [] && !FromDot(c[0]); }
  }

  lemma {:induction false} ReplayTellsDots(m: Maths, info: PlayerInfo, scratch: DotState, sealed: bool, es: seq<Entry>,
                                           at: int, r: Revision, clean: bool)
    ensures DotCalls(ReplayAll(m, info, scratch, sealed, es, at, r, clean).reported)
      == ReplayAll(m, info, scratch, sealed, es, at, r, clean).reported
    decreases |es|
  {
    hide Step, Reportable;
    if es != [] {
      if es[0].step < at {
        ReplayTellsDots(m, info, scratch, sealed, es[1..], at, r, clean);
      } else {
        var one := ReplayOne(m, info, scratch, sealed, es[0], r, clean);
        OneTellsDots(m, info, scratch, sealed, es[0], r, clean);
        ReplayTellsDots(m, info, one.scratch, one.sealed, es[1..], at, r.(act := None), clean);
        DotCallsConcat(one.reported,
                       ReplayAll(m, info, one.scratch, one.sealed, es[1..], at, r.(act := None), clean).reported);
      }
    }
  }

  lemma OneTellsDots(m: Maths, info: PlayerInfo, scratch: DotState, sealed: bool, e: Entry, r: Revision, clean: bool)
    ensures DotCalls(ReplayOne(m, info, scratch, sealed, e, r, clean).reported)
      == ReplayOne(m, info, scratch, sealed, e, r, clean).reported
  {
    hide Step, Reportable;
    var e1 := Revised(e, r).(snap := SnapshotOf(scratch));
    var events := Step(m, info.cfg, scratch, e1.keys, e1.acts, e1.blows).events;
    ReportsFromDot(info, {}, sealed, events, []);
    AllDotCalls(Reportable(info, {}, sealed, events, []).calls);
  }

  lemma RewindTellsDots(m: Maths, info: PlayerInfo, p: PlayerState, at: int, r: Revision)
    ensures DotCalls(Rewind(m, info, p, at, r).late) == Rewind(m, info, p, at, r).late
  {
    hide ReplayAll, Restored, SnapshotOf, From;
    if CanRewind(p, at) {
      WindowNotEmpty(p.history, at);
      ReplayTellsDots(m, info, Restored(p.scratch, From(p.history, at)[0].snap), p.sealed, p.history, at, r,
                      Clean(p.history, at));
    }
  }

  // One rewind -------------------------------------------------------------------------------

  /** If the rewind is carried out, its window is clean and nothing was stopped in it. */
  ghost predicate RewindsWell(m: Maths, info: PlayerInfo, items: seq<Item>, p: PlayerState, at: int, r: Revision) {
    Rewind(m, info, p, at, r).done ==> CleanWindow(items, p, at)
  }

  /** The run with the revision in time. */
  ghost function InTime(m: Maths, info: PlayerInfo, items: seq<Item>, p: PlayerState, at: int, r: Revision): seq<Item> {
    if Rewind(m, info, p, at, r).done && CleanWindow(items, p, at) then Revisited(items, |From(p.history, at)|, r)
    else items
  }

  lemma NotDone(m: Maths, info: PlayerInfo, p: PlayerState, at: int, r: Revision)
    requires !Rewind(m, info, p, at, r).done
    ensures Rewind(m, info, p, at, r) == Rewound(p, false, [])
  {
    hide ReplayAll, Restored, SnapshotOf, From, Clean;
  }

  lemma RewindCoherent(m: Maths, info: PlayerInfo, l0: Line, items: seq<Item>, p: PlayerState, at: int, r: Revision)
    requires Coherent(m, info, l0, items, p) && RewindsWell(m, info, items, p, at, r)
    ensures var o := Rewind(m, info, p, at, r); var more := InTime(m, info, items, p, at, r);
      Coherent(m, info, l0, more, o.p)
      && Reports(Entries(m, info, l0, items)) + o.late == Reports(Entries(m, info, l0, more))
  {
    hide Rewind, Coherent, Entries, Reports, From, Revisited, CleanWindow;
    if Rewind(m, info, p, at, r).done {
      CleanRewindIsInTime(m, info, l0, items, p, at, r);
    } else {
      NotDone(m, info, p, at, r);
    }
  }

  /** Coherence is of the dot, the seal and the history; the rest of a player may change. */
  lemma CoherentStill(m: Maths, info: PlayerInfo, l0: Line, items: seq<Item>, p: PlayerState, q: PlayerState)
    requires Coherent(m, info, l0, items, p)
    requires q.dot == p.dot && q.sealed == p.sealed && q.history == p.history
    ensures Coherent(m, info, l0, items, q)
  {
    hide Entries, LineAfter, LastN;
  }

  // One message --------------------------------------------------------------------------------

  ghost predicate KeysWell(m: Maths, info: PlayerInfo, items: seq<Item>, p: PlayerState, at: Option<int>, keys: Keys) {
    keys != p.keys && at.Some? ==> RewindsWell(m, info, items, p, at.value, Revision(Some(keys), None))
  }

  ghost function KeysInTime(m: Maths, info: PlayerInfo, items: seq<Item>, p: PlayerState, at: Option<int>,
                            keys: Keys): seq<Item> {
    if keys != p.keys && at.Some? then InTime(m, info, items, p, at.value, Revision(Some(keys), None)) else items
  }

  lemma KeysCoherent(m: Maths, info: PlayerInfo, l0: Line, items: seq<Item>, p: PlayerState, at: Option<int>,
                     keys: Keys)
    requires Coherent(m, info, l0, items, p) && KeysWell(m, info, items, p, at, keys)
    ensures var o := TakeKeys(m, info, p, at, keys); var more := KeysInTime(m, info, items, p, at, keys);
      Coherent(m, info, l0, more, o.p)
      && DotCalls(o.late) == o.late
      && Reports(Entries(m, info, l0, items)) + o.late == Reports(Entries(m, info, l0, more))
  {
    hide Rewind, Coherent, Entries, Reports, InTime, RewindsWell;
    if keys != p.keys && at.Some? {
      var r := Revision(Some(keys), None);
      RewindCoherent(m, info, l0, items, p, at.value, r);
      RewindTellsDots(m, info, p, at.value, r);
      var q := Rewind(m, info, p, at.value, r).p;
      CoherentStill(m, info, l0, InTime(m, info, items, p, at.value, r), q, q.(keys := keys));
    } else {
      CoherentStill(m, info, l0, items, p, p.(keys := keys));
    }
  }

  ghost predicate ActWell(m: Maths, info: PlayerInfo, items: seq<Item>, p: PlayerState, at: Option<int>, act: Act) {
    at.Some? ==> RewindsWell(m, info, items, p, at.value, Revision(None, Some(act)))
  }

  ghost function ActInTime(m: Maths, info: PlayerInfo, items: seq<Item>, p: PlayerState, at: Option<int>,
                           act: Act): seq<Item> {
    if at.Some? then InTime(m, info, items, p, at.value, Revision(None, Some(act))) else items
  }

  lemma ActCoherent(m: Maths, info: PlayerInfo, l0: Line, items: seq<Item>, p: PlayerState, at: Option<int>, act: Act)
    requires Coherent(m, info, l0, items, p) && ActWell(m, info, items, p, at, act)
    ensures var o := TakeAct(m, info, p, at, act); var more := ActInTime(m, info, items, p, at, act);
      Coherent(m, info, l0, more, o.p)
      && DotCalls(o.late) == o.late
      && Reports(Entries(m, info, l0, items)) + o.late == Reports(Entries(m, info, l0, more))
  {
    hide Rewind, Coherent, Entries, Reports, RewindsWell, CleanWindow, Revisited;
    CoherentStill(m, info, l0, items, p, p.(acts := p.acts + [act]));
    if at.Some? {
      var r := Revision(None, Some(act));
      RewindCoherent(m, info, l0, items, p, at.value, r);
      RewindTellsDots(m, info, p, at.value, r);
    }
  }

  /** The act an input asks for, if it's one the dot does. */
  function ActOf(ask: Ask): Option<Act> {
    match ask
    case AskStrike(slot, aim) => if 1 <= slot <= 3 && aim.Some? then Some(Strike(slot, aim)) else None
    case AskDodge => Some(Dodge)
    case AskBlock => Some(Block)
    case AskUnblock => Some(Unblock)
    case _ => None
  }

  ghost predicate AskWell(m: Maths, info: PlayerInfo, items: seq<Item>, p: PlayerState, at: Option<int>, ask: Ask) {
    ActOf(ask).Some? ==> ActWell(m, info, items, p, at, ActOf(ask).value)
  }

  ghost function AskInTime(m: Maths, info: PlayerInfo, items: seq<Item>, p: PlayerState, at: Option<int>,
                           ask: Ask): seq<Item> {
    if ActOf(ask).Some? then ActInTime(m, info, items, p, at, ActOf(ask).value) else items
  }

  lemma AskCoherent(m: Maths, info: PlayerInfo, l0: Line, items: seq<Item>, p: PlayerState, at: Option<int>, ask: Ask)
    requires Coherent(m, info, l0, items, p) && AskWell(m, info, items, p, at, ask)
    ensures var o := TakeAsk(m, info, p, at, ask); var more := AskInTime(m, info, items, p, at, ask);
      Coherent(m, info, l0, more, o.p)
      && Reports(Entries(m, info, l0, items)) + DotCalls(o.late) == Reports(Entries(m, info, l0, more))
  {
    hide TakeAct, Coherent, Entries, Reports, ActWell, ActInTime;
    if ActOf(ask).Some? {
      ActCoherent(m, info, l0, items, p, at, ActOf(ask).value);
    } else {
      OtherAsk(m, info, p, at, ask);
      CoherentStill(m, info, l0, items, p, TakeAsk(m, info, p, at, ask).p);
    }
  }

  lemma OtherAsk(m: Maths, info: PlayerInfo, p: PlayerState, at: Option<int>, ask: Ask)
    requires ActOf(ask) == None
    ensures var o := TakeAsk(m, info, p, at, ask);
      o.p.dot == p.dot && o.p.sealed == p.sealed && o.p.history == p.history && DotCalls(o.late) == []
  {
    hide TakeAct;
    var late := TakeAsk(m, info, p, at, ask).late;
    if late != [] { assert late[1..] == []; }
  }

  ghost predicate MessageWell(m: Maths, info: PlayerInfo, items: seq<Item>, p: PlayerState, msg: Message) {
    var p1 := Numbered(p, msg.seqNo);
    if msg.keys.Some? then
      var keys := Masked(msg.keys.value);
      KeysWell(m, info, items, p1, msg.at, keys)
      && AskWell(m, info, KeysInTime(m, info, items, p1, msg.at, keys), TakeKeys(m, info, p1, msg.at, keys).p, msg.at,
                 msg.ask)
    else AskWell(m, info, items, p1, msg.at, msg.ask)
  }

  ghost function MessageInTime(m: Maths, info: PlayerInfo, items: seq<Item>, p: PlayerState, msg: Message): seq<Item> {
    var p1 := Numbered(p, msg.seqNo);
    if msg.keys.Some? then
      var keys := Masked(msg.keys.value);
      AskInTime(m, info, KeysInTime(m, info, items, p1, msg.at, keys), TakeKeys(m, info, p1, msg.at, keys).p, msg.at,
                msg.ask)
    else AskInTime(m, info, items, p1, msg.at, msg.ask)
  }

  lemma MessageCoherent(m: Maths, info: PlayerInfo, l0: Line, items: seq<Item>, p: PlayerState, msg: Message)
    requires Coherent(m, info, l0, items, p) && MessageWell(m, info, items, p, msg)
    ensures var o := TakeMessage(m, info, p, msg); var more := MessageInTime(m, info, items, p, msg);
      Coherent(m, info, l0, more, o.p)
      && Reports(Entries(m, info, l0, items)) + DotCalls(o.late) == Reports(Entries(m, info, l0, more))
  {
    hide TakeKeys, TakeAsk, Coherent, Entries, Reports, KeysWell, KeysInTime, AskWell, AskInTime, DotCalls, Masked;
    var p1 := Numbered(p, msg.seqNo);
    CoherentStill(m, info, l0, items, p, p1);
    if msg.keys.Some? {
      var keys := Masked(msg.keys.value);
      var k := TakeKeys(m, info, p1, msg.at, keys);
      KeysCoherent(m, info, l0, items, p1, msg.at, keys);
      AskCoherent(m, info, l0, KeysInTime(m, info, items, p1, msg.at, keys), k.p, msg.at, msg.ask);
      DotCallsConcat(k.late, TakeAsk(m, info, k.p, msg.at, msg.ask).late);
    } else {
      AskCoherent(m, info, l0, items, p1, msg.at, msg.ask);
      assert [] + TakeAsk(m, info, p1, msg.at, msg.ask).late == TakeAsk(m, info, p1, msg.at, msg.ask).late;
    }
  }

  // Whole runs ---------------------------------------------------------------------------------

  function PlayerAt(m: Maths, info: PlayerInfo, p0: PlayerState, ops: seq<Op>, k: nat): PlayerState
    requires k <= |ops|
  {
    if k == 0 then p0 else Apply(m, info, PlayerAt(m, info, p0, ops, k - 1), ops[k - 1])
  }

  /** Every dot consequence handed on in the first k operations. */
  function ToldBy(m: Maths, info: PlayerInfo, p0: PlayerState, ops: seq<Op>, k: nat): seq<Call>
    requires k <= |ops|
  {
    if k == 0 then []
    else ToldBy(m, info, p0, ops, k - 1) + HandedOn(m, info, PlayerAt(m, info, p0, ops, k - 1), ops[k - 1])
  }

  ghost function ItemsNext(m: Maths, info: PlayerInfo, items: seq<Item>, p: PlayerState, op: Op): seq<Item> {
    match op
    case StepOp(n, mine, bosses) => if n <= info.join then items else items + [Ran(n, p.keys, p.acts, mine, bosses)]
    case MessageOp(msg) => MessageInTime(m, info, items, p, msg)
    case StopOp(target) =>
      if CancelVolleys(p.dot.volleys, target) == p.dot.volleys then items else items + [Stopped(target)]
  }

  /** The run with every input in time that the first k operations come to. */
  ghost function ItemsAt(m: Maths, info: PlayerInfo, p0: PlayerState, ops: seq<Op>, k: nat): seq<Item>
    requires k <= |ops|
  {
    if k == 0 then []
    else ItemsNext(m, info, ItemsAt(m, info, p0, ops, k - 1), PlayerAt(m, info, p0, ops, k - 1), ops[k - 1])
  }

  /** Steps come in order, and whatever is rewound has a clean window with nothing stopped in it. */
  ghost predicate OpWell(m: Maths, info: PlayerInfo, l0: Line, items: seq<Item>, p: PlayerState, op: Op) {
    match op
    case StepOp(n, mine, bosses) =>
      n > info.join ==> forall i :: 0 <= i < |Entries(m, info, l0, items)| ==> Entries(m, info, l0, items)[i].step < n
    case MessageOp(msg) => MessageWell(m, info, items, p, msg)
    case StopOp(_) => true
  }

  ghost predicate RunWell(m: Maths, info: PlayerInfo, p0: PlayerState, ops: seq<Op>, k: nat)
    requires k <= |ops|
  {
    forall i :: 0 <= i < k ==>
      OpWell(m, info, Line(p0.dot, p0.sealed), ItemsAt(m, info, p0, ops, i), PlayerAt(m, info, p0, ops, i), ops[i])
  }

  lemma OpCoherent(m: Maths, info: PlayerInfo, l0: Line, items: seq<Item>, p: PlayerState, op: Op)
    requires Coherent(m, info, l0, items, p) && OpWell(m, info, l0, items, p, op)
    ensures var more := ItemsNext(m, info, items, p, op);
      Coherent(m, info, l0, more, Apply(m, info, p, op))
      && Reports(Entries(m, info, l0, items)) + HandedOn(m, info, p, op) == Reports(Entries(m, info, l0, more))
  {
    hide Coherent, Entries, Reports, MessageWell, MessageInTime, TakeMessage, PlayerStep, CancelVolleys, DotCalls;
    match op
    case StepOp(n, mine, bosses) =>
      if n > info.join {
        StepCoherent(m, info, l0, items, p, n, mine, bosses);
        StepTells(m, info, p, n, mine, bosses);
      } else {
        NotYetOnTheirFeet(m, info, p, n, mine, bosses);
      }
    case MessageOp(msg) => MessageCoherent(m, info, l0, items, p, msg);
    case StopOp(target) =>
      CancelCoherent(m, info, l0, items, p, target);
  }

  lemma NotYetOnTheirFeet(m: Maths, info: PlayerInfo, p: PlayerState, n: int, mine: seq<Incoming>, bosses: set<string>)
    requires n <= info.join
    ensures PlayerStep(m, info, p, n, mine, bosses).p == p
  {
  }

  lemma FreshCoherent(m: Maths, info: PlayerInfo, p0: PlayerState)
    requires p0.history == []
    ensures Coherent(m, info, Line(p0.dot, p0.sealed), [], p0)
    ensures Reports(Entries(m, info, Line(p0.dot, p0.sealed), [])) == []
  {
  }

  /** Rollback equivalence, over whole runs: while no rewind reaches over anything
      that has gone to the rules or a volley stopped, the player's dot, seal and
      history, and everything handed on so far, in order, are those of the run
      in which every late input was there in time. */
  lemma {:induction false} RollbackEquivalence(m: Maths, info: PlayerInfo, p0: PlayerState, ops: seq<Op>, k: nat)
    requires p0.history == [] && k <= |ops| && RunWell(m, info, p0, ops, k)
    ensures var l0, items := Line(p0.dot, p0.sealed), ItemsAt(m, info, p0, ops, k);
      Coherent(m, info, l0, items, PlayerAt(m, info, p0, ops, k))
      && ToldBy(m, info, p0, ops, k) == Reports(Entries(m, info, l0, items))
  {
    hide Coherent, Entries, Reports, Apply, HandedOn, ItemsNext, OpWell;
    if k == 0 {
      FreshCoherent(m, info, p0);
    } else {
      RollbackEquivalence(m, info, p0, ops, k - 1);
      OpCoherent(m, info, Line(p0.dot, p0.sealed), ItemsAt(m, info, p0, ops, k - 1), PlayerAt(m, info, p0, ops, k - 1),
                 ops[k - 1]);
    }
  }

  // Where a window isn't clean -----------------------------------------------------------------

  /** What the replay of an unclean window comes to. */
  ghost function Replayed(m: Maths, info: PlayerInfo, p: PlayerState, at: int, r: Revision): DotState
    requires CanRewind(p, at)
  {
    WindowNotEmpty(p.history, at);
    ReplayAll(m, info, Restored(p.scratch, From(p.history, at)[0].snap), p.sealed, p.history, at, r,
              Clean(p.history, at)).scratch
  }

  /** Everything a rewind of an unclean window leaves as it happened. */
  ghost predicate SameKept(a: DotState, b: DotState) {
    && a.n == b.n && a.orbit == b.orbit && a.guard == b.guard && a.feats == b.feats && a.rng == b.rng
    && Cooling(a.cool) == Cooling(b.cool) && a.debuffs == b.debuffs && a.pending == b.pending && a.volleys == b.volleys
  }

  /** Late keys over a window that isn't clean: the dot is where the replay puts it
      and moves as it does, the rest is as it happened, and nothing is handed on. */
  lemma UncleanTakesOnlyTheMotion(m: Maths, info: PlayerInfo, p: PlayerState, at: int, keys: Keys)
    requires CanRewind(p, at) && !Clean(p.history, at)
    ensures var o := Rewind(m, info, p, at, Revision(Some(keys), None));
      var s := Replayed(m, info, p, at, Revision(Some(keys), None));
      && o.done && o.late == []
      && o.p.dot.motion == s.motion && o.p.dot.footing == s.footing && SameKept(o.p.dot, p.dot)
  {
    hide ReplayAll, From, Clean, Restored;
    UncleanTellsNothing(m, info, p, at, Revision(Some(keys), None));
  }

  lemma {:induction false} UncleanReplayTellsNothing(m: Maths, info: PlayerInfo, scratch: DotState, sealed: bool,
                                                     es: seq<Entry>, at: int, r: Revision)
    ensures ReplayAll(m, info, scratch, sealed, es, at, r, false).reported == []
    decreases |es|
  {
    hide Step, SnapshotOf;
    if es != [] {
      if es[0].step < at {
        UncleanReplayTellsNothing(m, info, scratch, sealed, es[1..], at, r);
      } else {
        var one := ReplayOne(m, info, scratch, sealed, es[0], r, false);
        UncleanReplayTellsNothing(m, info, one.scratch, one.sealed, es[1..], at, r.(act := None));
      }
    }
  }

  lemma UncleanTellsNothing(m: Maths, info: PlayerInfo, p: PlayerState, at: int, r: Revision)
    requires CanRewind(p, at) && !Clean(p.history, at)
    ensures Rewind(m, info, p, at, r).late == []
  {
    hide ReplayAll, From, Clean, Restored;
    WindowNotEmpty(p.history, at);
    UncleanReplayTellsNothing(m, info, Restored(p.scratch, From(p.history, at)[0].snap), p.sealed, p.history, at, r);
  }

  /** A late act over a window that isn't clean changes nothing: it waits for the next step. */
  lemma UncleanActWaits(m: Maths, info: PlayerInfo, p: PlayerState, at: int, act: Act)
    requires CanRewind(p, at)
    ensures Rewind(m, info, p, at, Revision(None, Some(act))).done <==> Clean(p.history, at)
    ensures !Clean(p.history, at) ==> TakeAct(m, info, p, Some(at), act) == Took(p.(acts := p.acts + [act]), [])
  {
    hide ReplayAll, From, Clean, Restored;
  }

  /** A clean rewind takes no account of volleys stopped since the window's start:
      the dot comes out the same whether they were or not. */
  lemma CleanRewindForgetsStops(m: Maths, info: PlayerInfo, p: PlayerState, at: int, r: Revision,
                                target: Option<string>)
    requires CanRewind(p, at) && Clean(p.history, at)
    ensures var kept := Rewind(m, info, p, at, r).p.dot;
      var stopped := Rewind(m, info, p.(dot := Cancelled(p.dot, target)), at, r).p.dot;
      Alike(stopped, kept)
  {
    hide ReplayAll, From, Clean, Step;
    WindowNotEmpty(p.history, at);
  }
}
