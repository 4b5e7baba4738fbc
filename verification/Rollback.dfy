/** Rollback: a clean rewind leaves everything as if the late input had been there
    in time. */
module Rollback {
  import opened Basics
  import opened Balance
  import opened Snapshots
  import opened Fights

  // The run with every input in time -----------------------------------------------------------

  /** What happens to a dot, in order: a step run with what went into it, or the
      volleys at a target stopped in between. */
  datatype Item =
    | Ran(n: int, keys: Keys, acts: seq<Act>, mine: seq<Incoming>, bosses: set<string>)
    | Stopped(target: Option<string>)

  /** The dot, and whether the seal is spent. */
  datatype Line = Line(dot: DotState, sealed: bool)

  function Told(m: Maths, info: PlayerInfo, l: Line, i: Item): Report
    requires i.Ran?
  {
    Reportable(info, i.bosses, l.sealed, Step(m, info.cfg, l.dot, i.keys, i.acts, BlowsOf(i.mine)).events, i.mine)
  }

  function LineNext(m: Maths, info: PlayerInfo, l: Line, i: Item): Line {
    match i
    case Ran(n, keys, acts, mine, bosses) =>
      Line(Step(m, info.cfg, l.dot, keys, acts, BlowsOf(mine)).s, Told(m, info, l, i).sealed)
    case Stopped(target) => Line(Cancelled(l.dot, target), l.sealed)
  }

  function EntryFor(m: Maths, info: PlayerInfo, l: Line, i: Item): Entry
    requires i.Ran?
  {
    EntryOf(i.n, l.dot, i.keys, i.acts, i.mine, Told(m, info, l, i).calls)
  }

  function LineAfter(m: Maths, info: PlayerInfo, l: Line, items: seq<Item>): Line
    decreases |items|
  {
    if items == [] then l else LineAfter(m, info, LineNext(m, info, l, items[0]), items[1..])
  }

  /** The history entries of the whole run. */
  function Entries(m: Maths, info: PlayerInfo, l: Line, items: seq<Item>): seq<Entry>
    decreases |items|
  {
    if items == [] then []
    else
      (if items[0].Ran? then [EntryFor(m, info, l, items[0])] else [])
      + Entries(m, info, LineNext(m, info, l, items[0]), items[1..])
  }

  function Reports(entries: seq<Entry>): seq<Call> {
    if entries == [] then [] else entries[0].report + Reports(entries[1..])
  }

  lemma {:induction false} LineConcat(m: Maths, info: PlayerInfo, l: Line, a: seq<Item>, b: seq<Item>)
    ensures LineAfter(m, info, l, a + b) == LineAfter(m, info, LineAfter(m, info, l, a), b)
    ensures Entries(m, info, l, a + b) == Entries(m, info, l, a) + Entries(m, info, LineAfter(m, info, l, a), b)
    decreases |a|
  {
    hide LineNext, EntryFor;
    if a == [] {
      assert a + b == b;
    } else {
      assert (a + b)[1..] == a[1..] + b;
      LineConcat(m, info, LineNext(m, info, l, a[0]), a[1..], b);
    }
  }

  lemma {:induction false} ReportsConcat(a: seq<Entry>, b: seq<Entry>)
    ensures Reports(a + b) == Reports(a) + Reports(b)
    decreases |a|
  {
    if a == [] {
      assert a + b == b;
    } else {
      assert (a + b)[1..] == a[1..] + b;
      ReportsConcat(a[1..], b);
    }
  }

  lemma LineOne(m: Maths, info: PlayerInfo, l: Line, i: Item)
    ensures LineAfter(m, info, l, [i]) == LineNext(m, info, l, i)
    ensures Entries(m, info, l, [i]) == if i.Ran? then [EntryFor(m, info, l, i)] else []
  {
    hide LineNext, EntryFor;
    assert [i][1..] == [];
  }

  ghost predicate AllRan(items: seq<Item>) {
    forall i :: 0 <= i < |items| ==> items[i].Ran?
  }

  lemma {:induction false} OneEntryEach(m: Maths, info: PlayerInfo, l: Line, items: seq<Item>)
    requires AllRan(items)
    ensures |Entries(m, info, l, items)| == |items|
    ensures forall k :: 0 <= k < |items| ==> SameInputs(Entries(m, info, l, items)[k], items[k])
    decreases |items|
  {
    hide LineNext;
    if items != [] { OneEntryEach(m, info, LineNext(m, info, l, items[0]), items[1..]); }
  }

  /** The entry is of the item's step, with what went into it. */
  ghost predicate SameInputs(e: Entry, i: Item) {
    i.Ran? && e.step == i.n && e.keys == i.keys && e.acts == i.acts && e.blows == BlowsOf(i.mine)
  }

  // What the owner keeps, against that run ----------------------------------------------------

  ghost predicate Ordered(entries: seq<Entry>) {
    forall i, j :: 0 <= i < j < |entries| ==> entries[i].step < entries[j].step
  }

  /** The player stands as after the items from l0: its dot (for every purpose),
      its seal, and its history, the newest of the run's entries. So replaying an
      entry gives the next one's snapshot, and the last the dot's. */
  ghost predicate Coherent(m: Maths, info: PlayerInfo, l0: Line, items: seq<Item>, p: PlayerState) {
    && Alike(p.dot, LineAfter(m, info, l0, items).dot)
    && p.sealed == LineAfter(m, info, l0, items).sealed
    && p.history == LastN(Entries(m, info, l0, items), REWIND_STEPS)
    && Ordered(Entries(m, info, l0, items))
  }

  /** The i-th entry kept, replayed, gives the next one's snapshot, and the last the dot's. */
  ghost predicate ConsistentAt(m: Maths, info: PlayerInfo, p: PlayerState, scratch: DotState, i: nat)
    requires i < |p.history|
  {
    var e := p.history[i];
    SnapshotOf(Step(m, info.cfg, Restored(scratch, e.snap), e.keys, e.acts, e.blows).s)
      == if i + 1 < |p.history| then p.history[i + 1].snap else SnapshotOf(p.dot)
  }

  ghost predicate Consistent(m: Maths, info: PlayerInfo, p: PlayerState, scratch: DotState) {
    forall i :: 0 <= i < |p.history| ==> ConsistentAt(m, info, p, scratch, i)
  }

  lemma StepLineAlike(m: Maths, info: PlayerInfo, a: DotState, b: DotState, keys: Keys, acts: seq<Act>,
                      blows: seq<Blow>)
    requires Alike(a, b)
    ensures SnapshotOf(a) == SnapshotOf(b)
    ensures Alike(Step(m, info.cfg, a, keys, acts, blows).s, Step(m, info.cfg, b, keys, acts, blows).s)
    ensures Step(m, info.cfg, a, keys, acts, blows).events == Step(m, info.cfg, b, keys, acts, blows).events
  {
    hide Step;
    StepAlike(m, info.cfg, a, b, keys, acts, blows);
  }

  lemma LastNOneMore<T>(s: seq<T>, x: T, n: nat)
    requires n > 0
    ensures LastN(LastN(s, n) + [x], n) == LastN(s + [x], n)
  {
  }

  /** A step keeps a player coherent, and reports what the entry does. */
  lemma StepCoherent(m: Maths, info: PlayerInfo, l0: Line, items: seq<Item>, p: PlayerState, n: int,
                     mine: seq<Incoming>, bosses: set<string>)
    requires Coherent(m, info, l0, items, p)
    requires n > info.join
    requires forall i :: 0 <= i < |Entries(m, info, l0, items)| ==> Entries(m, info, l0, items)[i].step < n
    ensures var o := PlayerStep(m, info, p, n, mine, bosses);
      var more := items + [Ran(n, p.keys, p.acts, mine, bosses)];
      && Coherent(m, info, l0, more, o.p)
      && Reports(Entries(m, info, l0, items)) + o.calls[|FleeCalls(m, info, p)|..]
        == Reports(Entries(m, info, l0, more))
  {
    hide Step, Reportable, FleeCalls, BlowsOf, Alike, LineAfter, Entries, Reports, SnapshotOf;
    var i := Ran(n, p.keys, p.acts, mine, bosses);
    var l := LineAfter(m, info, l0, items);
    StepLineAlike(m, info, p.dot, l.dot, p.keys, p.acts, BlowsOf(mine));
    LineConcat(m, info, l0, items, [i]);
    LineOne(m, info, l, i);
    LastNOneMore(Entries(m, info, l0, items), EntryFor(m, info, l, i), REWIND_STEPS);
    ReportsConcat(Entries(m, info, l0, items), [EntryFor(m, info, l, i)]);
    ReportsOne(EntryFor(m, info, l, i));
  }

  lemma ReportsOne(e: Entry)
    ensures Reports([e]) == e.report
  {
    assert [e][1..] == [];
  }

  /** So does stopping volleys between steps. */
  lemma CancelCoherent(m: Maths, info: PlayerInfo, l0: Line, items: seq<Item>, p: PlayerState, target: Option<string>)
    requires Coherent(m, info, l0, items, p)
    ensures Coherent(m, info, l0, items + [Stopped(target)], p.(dot := Cancelled(p.dot, target)))
    ensures Entries(m, info, l0, items + [Stopped(target)]) == Entries(m, info, l0, items)
  {
    LineConcat(m, info, l0, items, [Stopped(target)]);
    LineOne(m, info, LineAfter(m, info, l0, items), Stopped(target));
    CancelAlike(p.dot, LineAfter(m, info, l0, items).dot, target);
  }

  // The window -----------------------------------------------------------------------------

  lemma {:induction false} FromIsSuffix(history: seq<Entry>, at: int)
    requires Ordered(history)
    ensures |From(history, at)| <= |history|
    ensures From(history, at) == history[|history| - |From(history, at)|..]
    ensures forall i :: 0 <= i < |history| - |From(history, at)| ==> history[i].step < at
    ensures forall i :: |history| - |From(history, at)| <= i < |history| ==> history[i].step >= at
    decreases |history|
  {
    hide From, Ordered;
    if history == [] {
      NothingFrom(at);
    } else {
      var rest, w := history[1..], From(history[1..], at);
      SuffixOrdered(history, 1);
      FromIsSuffix(rest, at);
      OneMoreFrom(history, at);
      FirstIsEarliest(history);
      if history[0].step >= at { AllFrom(rest, at); }
    }
  }

  lemma NothingFrom(at: int)
    ensures From([], at) == []
  {
  }

  lemma OneMoreFrom(history: seq<Entry>, at: int)
    requires history != []
    ensures From(history, at) == (if history[0].step >= at then [history[0]] else []) + From(history[1..], at)
  {
  }

  lemma FirstIsEarliest(history: seq<Entry>)
    requires Ordered(history) && history != []
    ensures forall i :: 0 <= i < |history| ==> history[i].step >= history[0].step
  {
  }

  lemma {:induction false} AllFrom(history: seq<Entry>, at: int)
    requires forall i :: 0 <= i < |history| ==> history[i].step >= at
    ensures From(history, at) == history
    decreases |history|
  {
    if history != [] { AllFrom(history[1..], at); }
  }

  /** A step's report is empty only if the seal is as it was. */
  lemma {:induction false} QuietKeepsSeal(info: PlayerInfo, bosses: set<string>, sealed: bool, events: seq<Event>,
                                          mine: seq<Incoming>)
    requires Reportable(info, bosses, sealed, events, mine).calls == []
    ensures Reportable(info, bosses, sealed, events, mine).sealed == sealed
    decreases |events|
  {
    if events != [] {
      QuietKeepsSeal(info, bosses, CallsOf(info, bosses, sealed, events[0], mine).sealed, events[1..],
                     Rest(events[0], mine));
    }
  }

  lemma {:induction false} QuietWindowKeepsSeal(m: Maths, info: PlayerInfo, l: Line, b: seq<Item>)
    requires AllRan(b)
    requires forall i :: 0 <= i < |Entries(m, info, l, b)| ==> Quiet(Entries(m, info, l, b)[i])
    ensures LineAfter(m, info, l, b).sealed == l.sealed
    ensures Reports(Entries(m, info, l, b)) == []
    decreases |b|
  {
    hide Step, Reportable, BlowsOf;
    if b != [] {
      var e := EntryFor(m, info, l, b[0]);
      assert Entries(m, info, l, b)[0] == e;
      QuietKeepsSeal(info, b[0].bosses, l.sealed,
                     Step(m, info.cfg, l.dot, b[0].keys, b[0].acts, BlowsOf(b[0].mine)).events, b[0].mine);
      var l1 := LineNext(m, info, l, b[0]);
      assert Entries(m, info, l, b)[1..] == Entries(m, info, l1, b[1..]);
      QuietWindowKeepsSeal(m, info, l1, b[1..]);
    }
  }

  /** The items with a revision in them from the first: other keys throughout, an act in the first. */
  function Revise(b: seq<Item>, r: Revision): seq<Item>
    requires forall i :: 0 <= i < |b| ==> b[i].Ran?
    decreases |b|
  {
    if b == [] then []
    else
      [b[0].(keys := if r.keys.Some? then r.keys.value else b[0].keys,
             acts := if r.act.Some? then b[0].acts + [r.act.value] else b[0].acts)]
      + Revise(b[1..], r.(act := None))
  }

  lemma {:induction false} ReviseRan(b: seq<Item>, r: Revision)
    requires AllRan(b)
    ensures AllRan(Revise(b, r)) && |Revise(b, r)| == |b|
    ensures forall i :: 0 <= i < |b| ==> Revise(b, r)[i].n == b[i].n
    decreases |b|
  {
    if b != [] { ReviseRan(b[1..], r.(act := None)); }
  }

  lemma NoBlows(mine: seq<Incoming>)
    requires BlowsOf(mine) == []
    ensures mine == []
  {
  }

  lemma {:induction false} NoBosses(info: PlayerInfo, bosses: set<string>, sealed: bool, events: seq<Event>)
    ensures Reportable(info, bosses, sealed, events, []) == Reportable(info, {}, sealed, events, [])
    decreases |events|
  {
    if events != [] { NoBosses(info, bosses, CallsOf(info, bosses, sealed, events[0], []).sealed, events[1..]); }
  }

  /** One clean entry replayed is one item run with the revision in it. */
  lemma ReplayOneIsItem(m: Maths, info: PlayerInfo, scratch: DotState, l: Line, e: Entry, i: Item, r: Revision)
    requires SameInputs(e, i) && e.blows == [] && Alike(scratch, l.dot)
    ensures var one := ReplayOne(m, info, scratch, l.sealed, e, r, true);
      var j := Revise([i], r)[0];
      && Alike(one.scratch, LineNext(m, info, l, j).dot) && one.sealed == LineNext(m, info, l, j).sealed
      && one.history == [EntryFor(m, info, l, j)] && one.reported == EntryFor(m, info, l, j).report
  {
    hide Step, Reportable;
    NoBlows(i.mine);
    var j := Revise([i], r)[0];
    StepLineAlike(m, info, scratch, l.dot, j.keys, j.acts, []);
    NoBosses(info, i.bosses, l.sealed, Step(m, info.cfg, l.dot, j.keys, j.acts, []).events);
  }

  /** A clean window replayed is its items run with the revision in them. */
  lemma {:induction false} ReplayIsRun(m: Maths, info: PlayerInfo, scratch: DotState, l: Line, es: seq<Entry>,
                                       b: seq<Item>, at: int, r: Revision)
    requires |es| == |b| && forall i :: 0 <= i < |b| ==>
      SameInputs(es[i], b[i]) && es[i].blows == [] && es[i].step >= at
    requires Alike(scratch, l.dot)
    ensures AllRan(b)
    ensures var rep := ReplayAll(m, info, scratch, l.sealed, es, at, r, true); var b1 := Revise(b, r);
      && Alike(rep.scratch, LineAfter(m, info, l, b1).dot) && rep.sealed == LineAfter(m, info, l, b1).sealed
      && rep.history == Entries(m, info, l, b1) && rep.reported == Reports(Entries(m, info, l, b1))
    decreases |es|
  {
    hide ReplayOne, LineNext, EntryFor, Alike;
    if es != [] {
      ReplayOneIsItem(m, info, scratch, l, es[0], b[0], r);
      var one := ReplayOne(m, info, scratch, l.sealed, es[0], r, true);
      var j := Revise([b[0]], r)[0];
      ReplayIsRun(m, info, one.scratch, LineNext(m, info, l, j), es[1..], b[1..], at, r.(act := None));
      assert Revise(b, r)[0] == j && Revise(b, r)[1..] == Revise(b[1..], r.(act := None));
      ReportsConcat([EntryFor(m, info, l, j)], Entries(m, info, LineNext(m, info, l, j), Revise(b, r)[1..]));
      ReportsOne(EntryFor(m, info, l, j));
    }
  }

  /** The entries before the window are left as they are. */
  lemma {:induction false} ReplaySkips(m: Maths, info: PlayerInfo, scratch: DotState, sealed: bool, old_: seq<Entry>,
                                       es: seq<Entry>, at: int, r: Revision, clean: bool)
    requires forall i :: 0 <= i < |old_| ==> old_[i].step < at
    ensures var rep := ReplayAll(m, info, scratch, sealed, es, at, r, clean);
      ReplayAll(m, info, scratch, sealed, old_ + es, at, r, clean) == rep.(history := old_ + rep.history)
    decreases |old_|
  {
    hide ReplayOne;
    if old_ == [] {
      assert old_ + es == es;
    } else {
      assert (old_ + es)[1..] == old_[1..] + es;
      ReplaySkips(m, info, scratch, sealed, old_[1..], es, at, r, clean);
    }
  }

  // Rewinding ------------------------------------------------------------------------------

  /** The items with a revision in the last w of them. */
  function Revisited(items: seq<Item>, w: nat, r: Revision): seq<Item>
    requires w <= |items| && forall i :: |items| - w <= i < |items| ==> items[i].Ran?
  {
    items[..|items| - w] + Revise(items[|items| - w..], r)
  }

  /** The rewind's window: as many of the latest items as there are entries from
      `at` on, with nothing stopped among them and nothing gone to the rules. */
  ghost predicate CleanWindow(items: seq<Item>, p: PlayerState, at: int) {
    var w := |From(p.history, at)|;
    CanRewind(p, at) && Clean(p.history, at) && w <= |items| && forall i :: |items| - w <= i < |items| ==> items[i].Ran?
  }

  /** A history of the newest of x + y, y being as long as the window, has y as its window. */
  lemma WindowIs(h: seq<Entry>, x: seq<Entry>, y: seq<Entry>, at: int, n: nat) returns (kept: seq<Entry>)
    requires Ordered(x + y) && h == LastN(x + y, n)
    requires |From(h, at)| == |y|
    ensures From(h, at) == y && h == kept + y
    ensures forall i :: 0 <= i < |kept| ==> kept[i].step < at
    ensures forall i :: 0 <= i < |y| ==> y[i].step >= at
  {
    hide From, Ordered, LastN;
    var all := x + y;
    assert |h| <= |all| && h == all[|all| - |h|..];
    SuffixOrdered(all, |all| - |h|);
    FromIsSuffix(h, at);
    SuffixOfSuffix(all, x, y, h);
    kept := h[..|h| - |y|];
    assert y == h[|h| - |y|..];
  }

  lemma SuffixOrdered(all: seq<Entry>, k: nat)
    requires k <= |all| && Ordered(all)
    ensures Ordered(all[k..])
  {
    var h := all[k..];
    forall i, j | 0 <= i < j < |h| ensures h[i].step < h[j].step { assert all[k + i].step < all[k + j].step; }
  }

  lemma SuffixOfSuffix<T>(all: seq<T>, x: seq<T>, y: seq<T>, h: seq<T>)
    requires all == x + y && |y| <= |h| <= |all| && h == all[|all| - |h|..]
    ensures h[|h| - |y|..] == y
  {
  }

  /** The replay of a clean window, and the dot restored from it, are the run of
      its items with the revision in them. */
  lemma ReplayedIs(m: Maths, info: PlayerInfo, l: Line, b: seq<Item>, p: PlayerState, at: int, r: Revision,
                   kept: seq<Entry>)
    requires AllRan(b) && b != [] && p.history == kept + Entries(m, info, l, b)
    requires p.sealed == l.sealed
    requires forall i :: 0 <= i < |kept| ==> kept[i].step < at
    requires forall i :: 0 <= i < |Entries(m, info, l, b)| ==>
      Entries(m, info, l, b)[i].step >= at && Quiet(Entries(m, info, l, b)[i])
    ensures Entries(m, info, l, b) != []
    ensures var rep := ReplayAll(m, info, Restored(p.scratch, Entries(m, info, l, b)[0].snap), p.sealed, p.history, at,
                                 r, true);
      var b1 := Revise(b, r);
      && Alike(Restored(p.dot, SnapshotOf(rep.scratch)), LineAfter(m, info, l, b1).dot)
      && rep.sealed == LineAfter(m, info, l, b1).sealed
      && rep.history == kept + Entries(m, info, l, b1)
      && rep.reported == Reports(Entries(m, info, l, b1))
  {
    hide Alike, Step, Restored, SnapshotOf, LineAfter, Entries, ReplayAll, Reports;
    var es := Entries(m, info, l, b);
    OneEntryEach(m, info, l, b);
    StartsAlike(m, info, l, b, p.scratch);
    var start := Restored(p.scratch, es[0].snap);
    ReplayIsRun(m, info, start, l, es, b, at, r);
    ReplaySkips(m, info, start, p.sealed, kept, es, at, r, true);
    var rep := ReplayAll(m, info, start, p.sealed, p.history, at, r, true);
    RestoredAlike(p.dot, rep.scratch, LineAfter(m, info, l, Revise(b, r)).dot);
  }

  /** The new history is the newest of the new run's entries, still in order. */
  lemma HistoryRevised(m: Maths, info: PlayerInfo, l0: Line, a: seq<Item>, b: seq<Item>, r: Revision, kept: seq<Entry>)
    requires AllRan(b)
    requires var x, y := Entries(m, info, l0, a), Entries(m, info, LineAfter(m, info, l0, a), b);
      kept + y == LastN(x + y, REWIND_STEPS) && Ordered(x + y)
    ensures AllRan(Revise(b, r))
    ensures var x, z := Entries(m, info, l0, a), Entries(m, info, LineAfter(m, info, l0, a), Revise(b, r));
      kept + z == LastN(x + z, REWIND_STEPS) && Ordered(x + z)
  {
    hide LineAfter, Entries, Ordered, LastN;
    var l := LineAfter(m, info, l0, a);
    ReviseRan(b, r);
    OneEntryEach(m, info, l, b);
    OneEntryEach(m, info, l, Revise(b, r));
    SameTail(Entries(m, info, l0, a), Entries(m, info, l, b), Entries(m, info, l, Revise(b, r)), kept, REWIND_STEPS);
    StillOrdered(Entries(m, info, l0, a), Entries(m, info, l, b), Entries(m, info, l, Revise(b, r)));
  }

  lemma RewindNeedsWindow(p: PlayerState, at: int)
    requires CanRewind(p, at)
    ensures From(p.history, at) != []
  {
    WindowNotEmpty(p.history, at);
  }

  lemma RewindWhenClean(m: Maths, info: PlayerInfo, p: PlayerState, at: int, r: Revision)
    requires CanRewind(p, at) && Clean(p.history, at)
    ensures From(p.history, at) != []
    ensures var rep := ReplayAll(m, info, Restored(p.scratch, From(p.history, at)[0].snap), p.sealed, p.history, at, r,
                                 true);
      Rewind(m, info, p, at, r) ==
        Rewound(p.(dot := Restored(p.dot, SnapshotOf(rep.scratch)), scratch := rep.scratch, sealed := rep.sealed,
          history := rep.history),
                true, rep.reported)
  {
    hide Step, Restored, SnapshotOf, ReplayAll, From, Clean;
    WindowNotEmpty(p.history, at);
  }

  /** CleanRewindIsInTime, with the window's items b apart from those before it. */
  lemma CleanRewindOf(m: Maths, info: PlayerInfo, l0: Line, a: seq<Item>, b: seq<Item>, p: PlayerState, at: int,
                      r: Revision)
    requires AllRan(b) && Coherent(m, info, l0, a + b, p)
    requires CanRewind(p, at) && Clean(p.history, at) && |From(p.history, at)| == |b|
    ensures var o := Rewind(m, info, p, at, r);
      && o.done && Coherent(m, info, l0, a + Revise(b, r), o.p)
      && Reports(Entries(m, info, l0, a + b)) + o.late == Reports(Entries(m, info, l0, a + Revise(b, r)))
  {
    hide Alike, Step, Restored, SnapshotOf, LineAfter, Entries, ReplayAll, From, Reports, Ordered, LastN, Rewind,
      Revise, CanRewind;
    var l := LineAfter(m, info, l0, a);
    var x, y, z := Entries(m, info, l0, a), Entries(m, info, l, b), Entries(m, info, l, Revise(b, r));
    LineConcat(m, info, l0, a, b);
    LineConcat(m, info, l0, a, Revise(b, r));
    OneEntryEach(m, info, l, b);
    RewindNeedsWindow(p, at);
    var kept := WindowIs(p.history, x, y, at, REWIND_STEPS);
    QuietWindowKeepsSeal(m, info, l, b);
    ReplayedIs(m, info, l, b, p, at, r, kept);
    HistoryRevised(m, info, l0, a, b, r, kept);
    RewindWhenClean(m, info, p, at, r);
    ReportsConcat(x, y);
    ReportsConcat(x, z);
  }

  /** A clean rewind is the input in time: with late keys, or a late act, the
      player stands exactly as after a run in which the revision was there from
      the first step of the window (the step it was done at, or the oldest kept);
      every later snapshot and report is that run's; and what is reported now is
      what that run has reported more than the run without it. */
  lemma CleanRewindIsInTime(m: Maths, info: PlayerInfo, l0: Line, items: seq<Item>, p: PlayerState, at: int,
                            r: Revision)
    requires Coherent(m, info, l0, items, p) && CleanWindow(items, p, at)
    ensures var o := Rewind(m, info, p, at, r); var more := Revisited(items, |From(p.history, at)|, r);
      && o.done && Coherent(m, info, l0, more, o.p)
      && Reports(Entries(m, info, l0, items)) + o.late == Reports(Entries(m, info, l0, more))
  {
    hide Rewind, Coherent, Reports, Entries, From, Revise;
    var w := |From(p.history, at)|;
    assert items == items[..|items| - w] + items[|items| - w..];
    CleanRewindOf(m, info, l0, items[..|items| - w], items[|items| - w..], p, at, r);
  }

  /** The replay starts from the window's first snapshot: alike to the dot then. */
  lemma StartsAlike(m: Maths, info: PlayerInfo, l: Line, b: seq<Item>, scratch: DotState)
    requires AllRan(b) && b != []
    ensures Entries(m, info, l, b) != []
    ensures Alike(Restored(scratch, Entries(m, info, l, b)[0].snap), l.dot)
  {
    hide Step, Reportable;
    SnapshotsAreSnapshots(l.dot);
    SnapshotRestored(scratch, SnapshotOf(l.dot));
  }

  lemma RestoredAlike(dot: DotState, scratch: DotState, s: DotState)
    requires Alike(scratch, s)
    ensures Alike(Restored(dot, SnapshotOf(scratch)), s)
  {
    SnapshotsAreSnapshots(scratch);
    SnapshotRestored(dot, SnapshotOf(scratch));
  }

  lemma SameTail<T>(x: seq<T>, y: seq<T>, z: seq<T>, kept: seq<T>, n: nat)
    requires |y| == |z| && kept + y == LastN(x + y, n)
    ensures kept + z == LastN(x + z, n)
  {
    KeptIsTail(x, y, kept, n);
    TailOf(x, z, kept, n);
  }

  /** What's kept before y is the end of x, and of the length that goes with y's. */
  lemma KeptIsTail<T>(x: seq<T>, y: seq<T>, kept: seq<T>, n: nat)
    requires kept + y == LastN(x + y, n)
    ensures |kept| <= |x| && kept == x[|x| - |kept|..]
    ensures if |x| + |y| <= n then |kept| == |x| else |kept| + |y| == n
  {
    var all, k := x + y, |kept|;
    var h := kept + y;
    assert h == all[|all| - |h|..];
    assert k <= |x|;
    forall i | 0 <= i < k ensures kept[i] == x[|x| - k + i] { assert kept[i] == h[i] == all[|all| - |h| + i]; }
  }

  lemma TailOf<T>(x: seq<T>, z: seq<T>, kept: seq<T>, n: nat)
    requires |kept| <= |x| && kept == x[|x| - |kept|..]
    requires if |x| + |z| <= n then |kept| == |x| else |kept| + |z| == n
    ensures kept + z == LastN(x + z, n)
  {
    var all := x + z;
    var from := |all| - |kept + z|;
    assert all[from..] == kept + z by {
      forall i | 0 <= i < |kept + z| ensures all[from + i] == (kept + z)[i] {
        if i < |kept| { assert all[from + i] == x[|x| - |kept| + i]; }
      }
    }
  }

  lemma StillOrdered(x: seq<Entry>, y: seq<Entry>, z: seq<Entry>)
    requires |y| == |z| && forall i :: 0 <= i < |y| ==> z[i].step == y[i].step
    requires Ordered(x + y)
    ensures Ordered(x + z)
  {
    forall i, j | 0 <= i < j < |x + z| ensures (x + z)[i].step < (x + z)[j].step {
      assert (x + y)[i].step < (x + y)[j].step;
      assert (x + z)[i].step == (x + y)[i].step && (x + z)[j].step == (x + y)[j].step;
    }
  }

  /** A coherent player's history is consistent, if nothing was stopped among its steps. */
  lemma CoherentIsConsistent(m: Maths, info: PlayerInfo, l0: Line, items: seq<Item>, p: PlayerState, scratch: DotState)
    requires Coherent(m, info, l0, items, p)
    requires |p.history| <= |items| && forall i :: |items| - |p.history| <= i < |items| ==> items[i].Ran?
    ensures Consistent(m, info, p, scratch)
  {
    hide Coherent, ConsistentAt;
    forall i | 0 <= i < |p.history| ensures ConsistentAt(m, info, p, scratch, i) {
      EntryConsistent(m, info, l0, items, p, scratch, i);
    }
  }

  lemma EntryConsistent(m: Maths, info: PlayerInfo, l0: Line, items: seq<Item>, p: PlayerState, scratch: DotState,
                        i: nat)
    requires Coherent(m, info, l0, items, p)
    requires i < |p.history| <= |items| && forall k :: |items| - |p.history| <= k < |items| ==> items[k].Ran?
    ensures ConsistentAt(m, info, p, scratch, i)
  {
    hide Step, LineAfter, Entries, Restored, LineNext, EntryFor, Ordered, LastN, SnapshotOf;
    var k := |items| - |p.history| + i;
    var l := LineAfter(m, info, l0, items[..k]);
    TailEntries(m, info, l0, items, p, i);
    assert p.history[i] == p.history[i..][0];
    if i + 1 < |p.history| { assert p.history[i + 1] == p.history[i..][1]; }
    TwoEntries(m, info, l, items[k..]);
    EntryReplays(m, info, l, items[k], scratch);
    assert items == items[..k] + items[k..];
    LineConcat(m, info, l0, items[..k], items[k..]);
  }

  /** The first entry of a run is its first item's, and what follows starts from the state it leaves. */
  lemma TwoEntries(m: Maths, info: PlayerInfo, l: Line, items: seq<Item>)
    requires items != [] && AllRan(items)
    ensures |Entries(m, info, l, items)| == |items| && Entries(m, info, l, items)[0] == EntryFor(m, info, l, items[0])
    ensures |items| > 1 ==> Entries(m, info, l, items)[1].snap == SnapshotOf(LineNext(m, info, l, items[0]).dot)
    ensures |items| == 1 ==> LineAfter(m, info, l, items) == LineNext(m, info, l, items[0])
  {
    hide Step, Reportable, SnapshotOf, LineNext;
    OneEntryEach(m, info, l, items);
  }

  /** The history's i-th entry onward are the entries of the items from there on. */
  lemma TailEntries(m: Maths, info: PlayerInfo, l0: Line, items: seq<Item>, p: PlayerState, i: nat)
    requires Coherent(m, info, l0, items, p)
    requires i <= |p.history| <= |items| && forall k :: |items| - |p.history| <= k < |items| ==> items[k].Ran?
    ensures var k := |items| - |p.history| + i;
      p.history[i..] == Entries(m, info, LineAfter(m, info, l0, items[..k]), items[k..])
  {
    hide Step, Reportable, LineNext, EntryFor;
    var k := |items| - |p.history| + i;
    assert items == items[..k] + items[k..];
    LineConcat(m, info, l0, items[..k], items[k..]);
    var y := Entries(m, info, LineAfter(m, info, l0, items[..k]), items[k..]);
    OneEntryEach(m, info, LineAfter(m, info, l0, items[..k]), items[k..]);
    SuffixOfSuffix(Entries(m, info, l0, items), Entries(m, info, l0, items[..k]), y, p.history);
    assert |p.history| - |y| == i;
  }

  lemma EntryReplays(m: Maths, info: PlayerInfo, l: Line, i: Item, scratch: DotState)
    requires i.Ran?
    ensures var e := EntryFor(m, info, l, i);
      SnapshotOf(Step(m, info.cfg, Restored(scratch, e.snap), e.keys, e.acts, e.blows).s)
        == SnapshotOf(LineNext(m, info, l, i).dot)
  {
    hide Step, Reportable;
    SnapshotsAreSnapshots(l.dot);
    SnapshotRestored(scratch, SnapshotOf(l.dot));
    StepLineAlike(m, info, Restored(scratch, SnapshotOf(l.dot)), l.dot, i.keys, i.acts, BlowsOf(i.mine));
  }
}
