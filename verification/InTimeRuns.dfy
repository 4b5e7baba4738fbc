/** The run in which every input was there in time, told from the inputs alone: a
    late input goes into the steps from the one it was done at (or the oldest the
    owner still keeps) on. The run the owner's rewinds come to is this one. */
module InTimeRuns {
  import opened Basics
  import opened Balance
  import opened Fights
  import opened Rollback
  import opened RollbackRuns

  /** The steps run, what the player holds, and what waits for the next step. */
  datatype Ideal = Ideal(items: seq<Item>, keys: Keys, acts: seq<Act>)

  function StepsOf(items: seq<Item>): seq<int> {
    if items == [] then [] else (if items[0].Ran? then [items[0].n] else []) + StepsOf(items[1..])
  }

  /** The steps still kept. */
  function Kept(items: seq<Item>): seq<int> { LastN(StepsOf(items), REWIND_STEPS) }

  /** A revision in every step from a first one on, its act in the first of them. */
  function RevisedFrom(items: seq<Item>, start: int, r: Revision): seq<Item> {
    if items == [] then []
    else if items[0].Ran? && items[0].n >= start then
      [items[0].(keys := if r.keys.Some? then r.keys.value else items[0].keys,
                 acts := if r.act.Some? then items[0].acts + [r.act.value] else items[0].acts)]
      + RevisedFrom(items[1..], start, r.(act := None))
    else [items[0]] + RevisedFrom(items[1..], start, r)
  }

  /** A step already run, so an input done at it can still go into the run. */
  predicate Reached(items: seq<Item>, at: int) {
    Kept(items) != [] && at <= Kept(items)[|Kept(items)| - 1]
  }

  /** The first step an input done at `at` goes into. */
  function StartOf(items: seq<Item>, at: int): int
    requires Kept(items) != []
  {
    Max(at, Kept(items)[0])
  }

  function WithKeys(i: Ideal, at: Option<int>, keys: Keys): Ideal {
    if keys != i.keys && at.Some? && Reached(i.items, at.value) then
      Ideal(RevisedFrom(i.items, StartOf(i.items, at.value), Revision(Some(keys), None)), keys, i.acts)
    else i.(keys := keys)
  }

  /** An act is put in only where nothing since has gone to the rules. */
  function WithAct(m: Maths, info: PlayerInfo, l0: Line, i: Ideal, at: Option<int>, act: Act): Ideal {
    if at.Some? && Reached(i.items, at.value)
      && Clean(LastN(Entries(m, info, l0, i.items), REWIND_STEPS), at.value) then
      i.(items := RevisedFrom(i.items, StartOf(i.items, at.value), Revision(None, Some(act))))
    else i.(acts := i.acts + [act])
  }

  function WithAsk(m: Maths, info: PlayerInfo, l0: Line, i: Ideal, at: Option<int>, ask: Ask): Ideal {
    if ActOf(ask).Some? then WithAct(m, info, l0, i, at, ActOf(ask).value)
    else if ask.AskRelease? then i.(keys := 0, acts := i.acts + [Unblock])
    else i
  }

  function WithMessage(m: Maths, info: PlayerInfo, l0: Line, i: Ideal, msg: Message): Ideal {
    WithAsk(m, info, l0, if msg.keys.Some? then WithKeys(i, msg.at, Masked(msg.keys.value)) else i, msg.at, msg.ask)
  }

  function IdealNext(m: Maths, info: PlayerInfo, l0: Line, i: Ideal, op: Op): Ideal {
    match op
    case StepOp(n, mine, bosses) =>
      if n <= info.join then i else Ideal(i.items + [Ran(n, i.keys, i.acts, mine, bosses)], i.keys, [])
    case MessageOp(msg) => WithMessage(m, info, l0, i, msg)
    case StopOp(target) =>
      var volleys := LineAfter(m, info, l0, i.items).dot.volleys;
      if CancelVolleys(volleys, target) == volleys then i else i.(items := i.items + [Stopped(target)])
  }

  function IdealAt(m: Maths, info: PlayerInfo, p0: PlayerState, ops: seq<Op>, k: nat): Ideal
    requires k <= |ops|
  {
    if k == 0 then Ideal([], p0.keys, p0.acts)
    else IdealNext(m, info, Line(p0.dot, p0.sealed), IdealAt(m, info, p0, ops, k - 1), ops[k - 1])
  }

  // The steps kept ---------------------------------------------------------------------------

  lemma {:induction false} EntriesSteps(m: Maths, info: PlayerInfo, l: Line, items: seq<Item>)
    ensures |Entries(m, info, l, items)| == |StepsOf(items)|
    ensures forall k :: 0 <= k < |StepsOf(items)| ==> Entries(m, info, l, items)[k].step == StepsOf(items)[k]
    decreases |items|
  {
    hide LineNext, Told, SnapshotOf;
    if items != [] { EntriesSteps(m, info, LineNext(m, info, l, items[0]), items[1..]); }
  }

  lemma KeptSteps(m: Maths, info: PlayerInfo, l0: Line, items: seq<Item>, p: PlayerState)
    requires Coherent(m, info, l0, items, p)
    ensures |p.history| == |Kept(items)|
    ensures forall k :: 0 <= k < |Kept(items)| ==> p.history[k].step == Kept(items)[k]
  {
    hide Entries, LineAfter, StepsOf;
    EntriesSteps(m, info, l0, items);
  }

  lemma ReachedIs(m: Maths, info: PlayerInfo, l0: Line, items: seq<Item>, p: PlayerState, at: int)
    requires Coherent(m, info, l0, items, p)
    ensures Reached(items, at) <==> CanRewind(p, at)
    ensures Kept(items) != [] ==> p.history != [] && Kept(items)[0] == p.history[0].step
  {
    hide Coherent, Kept;
    KeptSteps(m, info, l0, items, p);
  }

  // Where a revision starts --------------------------------------------------------------------

  ghost predicate Before(items: seq<Item>, start: int) {
    forall i :: 0 <= i < |items| && items[i].Ran? ==> items[i].n < start
  }

  ghost predicate NotBefore(items: seq<Item>, start: int) {
    forall i :: 0 <= i < |items| ==> items[i].Ran? && items[i].n >= start
  }

  lemma {:induction false} AllRevised(items: seq<Item>, start: int, r: Revision)
    requires NotBefore(items, start)
    ensures RevisedFrom(items, start, r) == Revise(items, r)
    decreases |items|
  {
    if items != [] { AllRevised(items[1..], start, r.(act := None)); }
  }

  lemma {:induction false} RevisedAfter(a: seq<Item>, b: seq<Item>, start: int, r: Revision)
    requires Before(a, start) && NotBefore(b, start)
    ensures RevisedFrom(a + b, start, r) == a + Revise(b, r)
    decreases |a|
  {
    if a == [] {
      assert a + b == b;
      AllRevised(b, start, r);
    } else {
      assert (a + b)[1..] == a[1..] + b;
      RevisedAfter(a[1..], b, start, r);
    }
  }

  lemma {:induction false} StepIn(items: seq<Item>, i: nat) returns (k: nat)
    requires i < |items| && items[i].Ran?
    ensures k < |StepsOf(items)| && StepsOf(items)[k] == items[i].n
    decreases |items|
  {
    var first := if items[0].Ran? then 1 else 0;
    if i == 0 {
      k := 0;
    } else {
      k := StepIn(items[1..], i - 1);
      k := k + first;
    }
  }

  /** Entries before the window are of steps before the one the revision starts at, the window's of none. */
  lemma WindowStarts(h: seq<Entry>, x: seq<Entry>, y: seq<Entry>, at: int, n: nat)
    requires Ordered(x + y) && h == LastN(x + y, n) && |From(h, at)| == |y| && y != [] && h != []
    ensures forall k :: 0 <= k < |x| ==> x[k].step < Max(at, h[0].step)
    ensures forall k :: 0 <= k < |y| ==> y[k].step >= Max(at, h[0].step)
  {
    hide From, Ordered, LastN;
    var kept := WindowIs(h, x, y, at, n);
    SuffixOf(x + y, h, n);
    StartsAfter(x, y, h, kept, at);
  }

  lemma SuffixOf<T>(all: seq<T>, h: seq<T>, n: nat)
    requires h == LastN(all, n)
    ensures |h| <= |all| && h == all[|all| - |h|..]
  {
  }

  lemma StartsAfter(x: seq<Entry>, y: seq<Entry>, h: seq<Entry>, kept: seq<Entry>, at: int)
    requires Ordered(x + y) && h != [] && h == kept + y && |h| <= |x + y| && h == (x + y)[|x + y| - |h|..]
    requires forall k :: 0 <= k < |kept| ==> kept[k].step < at
    requires forall k :: 0 <= k < |y| ==> y[k].step >= at
    ensures forall k :: 0 <= k < |x| ==> x[k].step < Max(at, h[0].step)
    ensures forall k :: 0 <= k < |y| ==> y[k].step >= Max(at, h[0].step)
  {
    hide Ordered;
    forall k | 0 <= k < |x| ensures x[k].step < Max(at, h[0].step) { OneBefore(x, y, h, kept, at, k); }
    forall k | 0 <= k < |y| ensures y[k].step >= Max(at, h[0].step) { OneNotBefore(x, y, h, k); }
  }

  lemma OneBefore(x: seq<Entry>, y: seq<Entry>, h: seq<Entry>, kept: seq<Entry>, at: int, k: nat)
    requires Ordered(x + y) && h != [] && h == kept + y && |h| <= |x + y| && h == (x + y)[|x + y| - |h|..]
    requires forall k :: 0 <= k < |kept| ==> kept[k].step < at
    requires k < |x|
    ensures x[k].step < h[0].step || x[k].step < at
  {
    var all := x + y;
    var j := |all| - |h|;
    assert all[k] == x[k] && all[j] == h[0];
    if k < j { assert all[k].step < all[j].step; } else { assert h[k - j] == all[k] && kept[k - j] == h[k - j]; }
  }

  lemma OneNotBefore(x: seq<Entry>, y: seq<Entry>, h: seq<Entry>, k: nat)
    requires Ordered(x + y) && h != [] && |h| <= |x + y| && h == (x + y)[|x + y| - |h|..] && |y| <= |h| && k < |y|
    ensures y[k].step >= h[0].step
  {
    var all := x + y;
    var j := |all| - |h|;
    assert all[|x| + k] == y[k] && all[j] == h[0];
    if j < |x| + k { assert all[j].step < all[|x| + k].step; }
  }

  /** A clean rewind's revision is in exactly the steps from the one it was done at,
      or the oldest kept, on. */
  lemma RewindRevisesFrom(m: Maths, info: PlayerInfo, l0: Line, items: seq<Item>, p: PlayerState, at: int, r: Revision)
    requires Coherent(m, info, l0, items, p) && CleanWindow(items, p, at)
    ensures Kept(items) != []
    ensures Revisited(items, |From(p.history, at)|, r) == RevisedFrom(items, StartOf(items, at), r)
  {
    hide Kept, LineAfter, Entries, Ordered, LastN, Quiet, From, RevisedFrom, Revise;
    WindowNotEmpty(p.history, at);
    var w := |From(p.history, at)|;
    var a, b := items[..|items| - w], items[|items| - w..];
    assert items == a + b;
    ReachedIs(m, info, l0, items, p, at);
    KeptSteps(m, info, l0, items, p);
    var l := LineAfter(m, info, l0, a);
    LineConcat(m, info, l0, a, b);
    OneEntryEach(m, info, l, b);
    var x, y := Entries(m, info, l0, a), Entries(m, info, l, b);
    WindowStarts(p.history, x, y, at, REWIND_STEPS);
    var start := StartOf(items, at);
    PartsBefore(m, info, l0, a, start);
    assert NotBefore(b, start) by {
      forall i | 0 <= i < |b| ensures b[i].Ran? && b[i].n >= start { assert SameInputs(y[i], b[i]); }
    }
    RevisedAfter(a, b, start, r);
  }

  lemma PartsBefore(m: Maths, info: PlayerInfo, l0: Line, a: seq<Item>, start: int)
    requires forall k :: 0 <= k < |Entries(m, info, l0, a)| ==> Entries(m, info, l0, a)[k].step < start
    ensures Before(a, start)
  {
    hide Entries, StepsOf;
    EntriesSteps(m, info, l0, a);
    forall i | 0 <= i < |a| && a[i].Ran? ensures a[i].n < start { var k := StepIn(a, i); }
  }

  // One operation --------------------------------------------------------------------------------

  /** The ideal run is the one the owner's rewinds come to. */
  ghost predicate Matches(i: Ideal, items: seq<Item>, p: PlayerState) {
    i.items == items && i.keys == p.keys && i.acts == p.acts
  }

  lemma RewindKeepsWaiting(m: Maths, info: PlayerInfo, p: PlayerState, at: int, r: Revision)
    ensures var o := Rewind(m, info, p, at, r); o.p.acts == p.acts && o.p.keys == p.keys
    ensures r.act == None ==> (Rewind(m, info, p, at, r).done <==> CanRewind(p, at))
    ensures r.act.Some? ==> (Rewind(m, info, p, at, r).done <==> CanRewind(p, at) && Clean(p.history, at))
  {
    hide ReplayAll, Restored, SnapshotOf, From, Clean;
  }

  lemma InTimeIs(m: Maths, info: PlayerInfo, l0: Line, items: seq<Item>, p: PlayerState, at: int, r: Revision)
    requires Coherent(m, info, l0, items, p) && RewindsWell(m, info, items, p, at, r)
    ensures Rewind(m, info, p, at, r).done ==> Kept(items) != []
    ensures InTime(m, info, items, p, at, r) ==
      if Rewind(m, info, p, at, r).done then RevisedFrom(items, StartOf(items, at), r) else items
  {
    hide Rewind, Coherent, CleanWindow, Revisited, RevisedFrom, Kept, From;
    if Rewind(m, info, p, at, r).done { RewindRevisesFrom(m, info, l0, items, p, at, r); }
  }

  lemma KeysMatch(m: Maths, info: PlayerInfo, l0: Line, i: Ideal, items: seq<Item>, p: PlayerState, at: Option<int>,
                  keys: Keys)
    requires Coherent(m, info, l0, items, p) && Matches(i, items, p) && KeysWell(m, info, items, p, at, keys)
    ensures Matches(WithKeys(i, at, keys), KeysInTime(m, info, items, p, at, keys), TakeKeys(m, info, p, at, keys).p)
  {
    hide Rewind, Coherent, InTime, RewindsWell, RevisedFrom, Reached, Kept, CanRewind;
    if keys != p.keys && at.Some? {
      var r := Revision(Some(keys), None);
      RewindKeepsWaiting(m, info, p, at.value, r);
      InTimeIs(m, info, l0, items, p, at.value, r);
      ReachedIs(m, info, l0, items, p, at.value);
    }
  }

  lemma ActMatch(m: Maths, info: PlayerInfo, l0: Line, i: Ideal, items: seq<Item>, p: PlayerState, at: Option<int>,
                 act: Act)
    requires Coherent(m, info, l0, items, p) && Matches(i, items, p) && ActWell(m, info, items, p, at, act)
    ensures Matches(WithAct(m, info, l0, i, at, act), ActInTime(m, info, items, p, at, act),
                    TakeAct(m, info, p, at, act).p)
  {
    hide Rewind, InTime, RewindsWell, RevisedFrom, Reached, Kept, CanRewind, Clean, Entries, LineAfter, LastN, Ordered;
    if at.Some? {
      var r := Revision(None, Some(act));
      RewindKeepsWaiting(m, info, p, at.value, r);
      InTimeIs(m, info, l0, items, p, at.value, r);
      ReachedIs(m, info, l0, items, p, at.value);
    }
  }

  lemma AskMatch(m: Maths, info: PlayerInfo, l0: Line, i: Ideal, items: seq<Item>, p: PlayerState, at: Option<int>,
                 ask: Ask)
    requires Coherent(m, info, l0, items, p) && Matches(i, items, p) && AskWell(m, info, items, p, at, ask)
    ensures Matches(WithAsk(m, info, l0, i, at, ask), AskInTime(m, info, items, p, at, ask),
                    TakeAsk(m, info, p, at, ask).p)
  {
    hide TakeAct, WithAct, ActInTime, ActWell, Coherent;
    if ActOf(ask).Some? { ActMatch(m, info, l0, i, items, p, at, ActOf(ask).value); }
  }

  lemma MessageMatch(m: Maths, info: PlayerInfo, l0: Line, i: Ideal, items: seq<Item>, p: PlayerState, msg: Message)
    requires Coherent(m, info, l0, items, p) && Matches(i, items, p) && MessageWell(m, info, items, p, msg)
    ensures Matches(WithMessage(m, info, l0, i, msg), MessageInTime(m, info, items, p, msg),
                    TakeMessage(m, info, p, msg).p)
  {
    hide TakeKeys, TakeAsk, WithKeys, WithAsk, KeysInTime, AskInTime, KeysWell, AskWell, Coherent, Masked, Entries,
      Reports;
    var p1 := Numbered(p, msg.seqNo);
    CoherentStill(m, info, l0, items, p, p1);
    if msg.keys.Some? {
      var keys := Masked(msg.keys.value);
      KeysMatch(m, info, l0, i, items, p1, msg.at, keys);
      KeysCoherent(m, info, l0, items, p1, msg.at, keys);
      AskMatch(m, info, l0, WithKeys(i, msg.at, keys), KeysInTime(m, info, items, p1, msg.at, keys),
               TakeKeys(m, info, p1, msg.at, keys).p, msg.at, msg.ask);
    } else {
      AskMatch(m, info, l0, i, items, p1, msg.at, msg.ask);
    }
  }

  lemma VolleysAlike(m: Maths, info: PlayerInfo, l0: Line, items: seq<Item>, p: PlayerState)
    requires Coherent(m, info, l0, items, p)
    ensures p.dot.volleys == LineAfter(m, info, l0, items).dot.volleys
  {
    hide LineAfter, Entries, Ordered, LastN;
  }

  lemma StepKeepsKeys(m: Maths, info: PlayerInfo, p: PlayerState, n: int, mine: seq<Incoming>, bosses: set<string>)
    ensures var q := PlayerStep(m, info, p, n, mine, bosses).p;
      q.keys == p.keys && q.acts == if n <= info.join then p.acts else []
  {
    hide Step, Reportable, SnapshotOf, BlowsOf, InCore;
  }

  lemma OpMatch(m: Maths, info: PlayerInfo, l0: Line, i: Ideal, items: seq<Item>, p: PlayerState, op: Op)
    requires Coherent(m, info, l0, items, p) && Matches(i, items, p) && OpWell(m, info, l0, items, p, op)
    ensures Matches(IdealNext(m, info, l0, i, op), ItemsNext(m, info, items, p, op), Apply(m, info, p, op))
  {
    hide Coherent, PlayerStep, TakeMessage, WithMessage, MessageInTime, MessageWell, Entries, LineAfter, CancelVolleys;
    match op
    case StepOp(n, mine, bosses) => StepKeepsKeys(m, info, p, n, mine, bosses);
    case MessageOp(msg) => MessageMatch(m, info, l0, i, items, p, msg);
    case StopOp(target) => VolleysAlike(m, info, l0, items, p);
  }

  // Whole runs -----------------------------------------------------------------------------------

  lemma {:induction false} ItemsAreIdeal(m: Maths, info: PlayerInfo, p0: PlayerState, ops: seq<Op>, k: nat)
    requires p0.history == [] && k <= |ops| && RunWell(m, info, p0, ops, k)
    ensures Matches(IdealAt(m, info, p0, ops, k), ItemsAt(m, info, p0, ops, k), PlayerAt(m, info, p0, ops, k))
    decreases k
  {
    hide Apply, IdealNext, ItemsNext, OpWell, Coherent, Entries, Reports, HandedOn;
    if k > 0 {
      ItemsAreIdeal(m, info, p0, ops, k - 1);
      RollbackEquivalence(m, info, p0, ops, k - 1);
      OpMatch(m, info, Line(p0.dot, p0.sealed), IdealAt(m, info, p0, ops, k - 1), ItemsAt(m, info, p0, ops, k - 1),
              PlayerAt(m, info, p0, ops, k - 1), ops[k - 1]);
    }
  }

  /** While every rewind carried out has a clean window with nothing stopped in it,
      the player stands as after the run with every input in time, holds what that
      run does, and everything handed on is, in order, what that run reports. */
  lemma StandsAsInTime(m: Maths, info: PlayerInfo, p0: PlayerState, ops: seq<Op>, k: nat)
    requires p0.history == [] && k <= |ops| && RunWell(m, info, p0, ops, k)
    ensures var l0, i, p := Line(p0.dot, p0.sealed), IdealAt(m, info, p0, ops, k), PlayerAt(m, info, p0, ops, k);
      Coherent(m, info, l0, i.items, p) && p.keys == i.keys && p.acts == i.acts
      && ToldBy(m, info, p0, ops, k) == Reports(Entries(m, info, l0, i.items))
  {
    hide RunWell, Coherent, Entries, Reports, IdealAt, ItemsAt, PlayerAt, ToldBy;
    ItemsAreIdeal(m, info, p0, ops, k);
    RollbackEquivalence(m, info, p0, ops, k);
  }
}
