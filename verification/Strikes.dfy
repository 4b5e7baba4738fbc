/** Strikes: every press resolves once, strikes keep to their cooldowns, and a
    volley delivers its hits exactly. */
module Strikes {
  import opened Basics
  import opened Balance
  import opened Runs

  // Presses ------------------------------------------------------------------------------

  /** The last strike pressed among a step's acts (which replaces any before it). */
  function LastPress(acts: seq<Act>): Option<Act>
    decreases |acts|
  {
    if acts == [] then None
    else if acts[|acts| - 1].Strike? then Some(acts[|acts| - 1])
    else LastPress(acts[..|acts| - 1])
  }

  function PendingOf(cfg: Config, press: Act): Pending
    requires press.Strike?
  {
    Pending(press.slot, press.target, Steps(cfg.rules.bufferMs))
  }

  lemma {:induction false} DoActsLast(cfg: Config, s: DotState, acts: seq<Act>)
    requires acts != []
    ensures DoActs(cfg, s, acts).s == DoAct(cfg, DoActs(cfg, s, acts[..|acts| - 1]).s, acts[|acts| - 1]).s
    decreases |acts|
  {
    hide DoAct;
    if |acts| > 1 {
      var t := DoAct(cfg, s, acts[0]).s;
      DoActsLast(cfg, t, acts[1..]);
      assert acts[1..][..|acts| - 2] == acts[..|acts| - 1][1..];
    } else {
      assert acts[1..] == [];
    }
  }

  /** After the acts the last press is buffered, or what was before if none was pressed. */
  lemma {:induction false} ActsPending(cfg: Config, s: DotState, acts: seq<Act>)
    ensures LastPress(acts).Some? ==> LastPress(acts).value.Strike?
    ensures DoActs(cfg, s, acts).s.pending ==
      if LastPress(acts).Some? then Some(PendingOf(cfg, LastPress(acts).value)) else s.pending
    decreases |acts|
  {
    if acts != [] {
      DoActsLast(cfg, s, acts);
      ActsPending(cfg, s, acts[..|acts| - 1]);
    }
  }

  predicate IsResolution(e: Event) { (e.Struck? && e.hit == 1) || e.StrikeRefused? }

  /** A press of p came to a first hit at p's target, or to a refusal of p's slot. */
  predicate Resolves(e: Event, p: Pending) {
    (e.Struck? && e.hit == 1 && e.slot == p.slot && e.target == p.target) || (e.StrikeRefused? && e.slot == p.slot)
  }

  /** What one step does to a buffered press: resolves it, once, or waits a step more. */
  lemma BufferedOutcome(m: Maths, cfg: Config, s: DotState)
    ensures var o := Buffered(m, cfg, s);
      if s.pending == None then o.events == [] && o.s.pending == None
      else
        var p := s.pending.value;
        || (|o.events| == 1 && Resolves(o.events[0], p) && o.s.pending == None)
        || (o.events == [] && p.left > 0 && o.s.pending == Some(p.(left := p.left - 1)))
  {
  }

  /** All volleys are past their first hit. */
  ghost predicate LaterHits(volleys: seq<Volley>) {
    forall i :: 0 <= i < |volleys| ==> volleys[i].hit >= 2
  }

  lemma {:induction false} VolleysStayLater(cfg: Config, volleys: seq<Volley>)
    requires LaterHits(volleys)
    ensures LaterHits(VolleysNext(cfg, volleys))
    ensures forall i :: 0 <= i < |VolleysHit(cfg, volleys)| ==> !IsResolution(VolleysHit(cfg, volleys)[i])
    decreases |volleys|
  {
    if volleys != [] { VolleysStayLater(cfg, volleys[1..]); }
  }

  predicate FromClosing(e: Event) { e.Blown? || e.Staggered? || e.Steadied? || e.SecondWind? }

  lemma {:induction false} BlowEvents(m: Maths, cfg: Config, s: DotState, blows: seq<Blow>)
    ensures forall i :: 0 <= i < |BlownAll(m, cfg, s, blows).events| ==>
      FromClosing(BlownAll(m, cfg, s, blows).events[i])
    decreases |blows|
  {
    if blows != [] { BlowEvents(m, cfg, Blown1(m, cfg, s, blows[0]).s, blows[1..]); }
  }

  lemma PhysicsEvents(m: Maths, cfg: Config, s: DotState, keys: Keys)
    ensures forall i :: 0 <= i < |Physics(m, cfg, s, keys).events| ==> FromClosing(Physics(m, cfg, s, keys).events[i])
  {
  }

  lemma ClosingEvents(m: Maths, cfg: Config, s: DotState, keys: Keys, blows: seq<Blow>)
    ensures forall i :: 0 <= i < |Closing(m, cfg, s, keys, blows).events| ==>
      FromClosing(Closing(m, cfg, s, keys, blows).events[i])
  {
    hide Physics, BlownAll;
    BlowEvents(m, cfg, s, blows);
    PhysicsEvents(m, cfg, BlownAll(m, cfg, s, blows).s, keys);
  }

  lemma OpeningEvents(m: Maths, cfg: Config, s: DotState)
    ensures Count(Opening(m, cfg, s).events, IsResolution) == 0
    ensures Opening(m, cfg, s).s.pending == s.pending && Opening(m, cfg, s).s.volleys == s.volleys
    ensures Opening(m, cfg, s).s.cool == CoolDown(s.cool)
  {
  }

  lemma BufferedStaysLater(m: Maths, cfg: Config, s: DotState)
    requires LaterHits(s.volleys)
    ensures LaterHits(Buffered(m, cfg, s).s.volleys)
  {
  }

  lemma StepStaysLater(m: Maths, cfg: Config, s: DotState, i: Input)
    requires LaterHits(s.volleys)
    ensures LaterHits(AtVolleys(m, cfg, s, i).volleys)
    ensures LaterHits(StepOn(m, cfg, s, i).s.volleys)
  {
    hide Opening, Closing, Buffered, DoActs, Step;
    OpeningEvents(m, cfg, s);
    ActsFrame(cfg, AtActs(m, cfg, s), i.acts);
    BufferedStaysLater(m, cfg, AtStrike(m, cfg, s, i));
    VolleysStayLater(cfg, AtVolleys(m, cfg, s, i).volleys);
    StepFrame(m, cfg, s, i);
  }

  lemma {:induction false} RunStaysLater(m: Maths, cfg: Config, s: DotState, run: seq<Input>, k: nat)
    requires LaterHits(s.volleys) && k <= |run|
    ensures LaterHits(StateAt(m, cfg, s, run, k).volleys)
  {
    hide StepOn;
    if k > 0 {
      RunStaysLater(m, cfg, s, run, k - 1);
      StepStaysLater(m, cfg, StateAt(m, cfg, s, run, k - 1), run[k - 1]);
    }
  }

  /** A step's resolutions are exactly its buffered strike's. */
  lemma StepResolutions(m: Maths, cfg: Config, s: DotState, i: Input)
    requires LaterHits(s.volleys)
    ensures Count(StepOn(m, cfg, s, i).events, IsResolution)
      == Count(Buffered(m, cfg, AtStrike(m, cfg, s, i)).events, IsResolution)
  {
    hide Opening, Closing, Buffered, DoActs, Step;
    CountStep(m, cfg, s, i, IsResolution);
    OpeningEvents(m, cfg, s);
    ActsFrame(cfg, AtActs(m, cfg, s), i.acts);
    CountNone(DoActs(cfg, AtActs(m, cfg, s), i.acts).events, IsResolution);
    StepStaysLater(m, cfg, s, i);
    VolleysStayLater(cfg, AtVolleys(m, cfg, s, i).volleys);
    CountNone(Volleys(m, cfg, AtVolleys(m, cfg, s, i)).events, IsResolution);
    ClosingEvents(m, cfg, AtBlows(m, cfg, s, i), i.keys, i.blows);
    CountNone(Closing(m, cfg, AtBlows(m, cfg, s, i), i.keys, i.blows).events, IsResolution);
  }

  /** What the buffer holds when a step comes to it. */
  function BufferAt(cfg: Config, s: DotState, i: Input): Option<Pending> {
    var press := LastPress(i.acts);
    if press.Some? && press.value.Strike? then Some(PendingOf(cfg, press.value)) else s.pending
  }

  /** One step of a press p: it resolves in exactly one event, or waits with one step less. */
  lemma StepOfPress(m: Maths, cfg: Config, s: DotState, i: Input)
    requires LaterHits(s.volleys)
    ensures var o, b := StepOn(m, cfg, s, i), BufferAt(cfg, s, i); var c := Count(o.events, IsResolution);
      if b == None then c == 0 && o.s.pending == None
      else
        || (c == 1 && o.s.pending == None && exists e :: e in o.events && Resolves(e, b.value))
        || (c == 0 && b.value.left > 0 && o.s.pending == Some(b.value.(left := b.value.left - 1)))
  {
    hide Opening, Closing, Buffered, DoActs, Step, StepOn, Volleys, Count, IsResolution, Resolves, LastPress, AtBlows;
    BufferIs(m, cfg, s, i);
    var a := AtStrike(m, cfg, s, i);
    BufferedOutcome(m, cfg, a);
    StepResolutions(m, cfg, s, i);
    BufferedKept(m, cfg, s, i);
    var events := Buffered(m, cfg, a).events;
    if events != [] { OneResolution(events, a.pending.value); } else { NoResolution(events); }
  }

  /** What the strike stage finds buffered. */
  lemma BufferIs(m: Maths, cfg: Config, s: DotState, i: Input)
    ensures AtStrike(m, cfg, s, i).pending == BufferAt(cfg, s, i)
  {
    hide Opening, DoActs, LastPress;
    OpeningEvents(m, cfg, s);
    ActsPending(cfg, AtActs(m, cfg, s), i.acts);
  }

  /** What it leaves buffered stays so, and its events are the step's. */
  lemma BufferedKept(m: Maths, cfg: Config, s: DotState, i: Input)
    ensures var o := Buffered(m, cfg, AtStrike(m, cfg, s, i));
      StepOn(m, cfg, s, i).s.pending == o.s.pending && forall e :: e in o.events ==> e in StepOn(m, cfg, s, i).events
  {
    hide Opening, Closing, Buffered, DoActs, Step, StepOn, Volleys, AtBlows;
    StepFrame(m, cfg, s, i);
    StepEvents(m, cfg, s, i);
  }

  lemma OneResolution(events: seq<Event>, p: Pending)
    requires |events| == 1 && Resolves(events[0], p)
    ensures Count(events, IsResolution) == 1 && events[0] in events
  {
    assert events[1..] == [];
  }

  lemma NoResolution(events: seq<Event>)
    requires events == []
    ensures Count(events, IsResolution) == 0
  {
  }

  ghost predicate PressedAt(run: seq<Input>, k: nat) {
    1 <= k <= |run| && LastPress(run[k - 1].acts).Some?
  }

  ghost function ResolutionsAt(m: Maths, cfg: Config, s: DotState, run: seq<Input>, k: nat): nat
    requires 1 <= k <= |run|
  {
    Count(EventsAt(m, cfg, s, run, k), IsResolution)
  }

  /** The press buffered as p at step i comes to its end at step j: till then
      nothing resolves and nothing is pressed; then another press replaces it, or
      it alone resolves, in exactly one event. */
  ghost predicate EndsAt(m: Maths, cfg: Config, s: DotState, run: seq<Input>, i: nat, p: Pending, j: nat) {
    && 1 <= i <= j <= |run|
    && (forall k :: i <= k < j ==> ResolutionsAt(m, cfg, s, run, k) == 0)
    && (forall k: nat :: i < k < j ==> !PressedAt(run, k))
    && if i < j && PressedAt(run, j) then true
       else ResolutionsAt(m, cfg, s, run, j) == 1 && exists e :: e in EventsAt(m, cfg, s, run, j) && Resolves(e, p)
  }

  /** Follows a press step by step to its end. */
  lemma {:induction false} PressGoesOn(m: Maths, cfg: Config, s: DotState, run: seq<Input>, i: nat, p: Pending, k: nat)
    returns (j: nat)
    requires LaterHits(s.volleys) && 1 <= i <= k <= |run|
    requires forall n :: i <= n < k ==> ResolutionsAt(m, cfg, s, run, n) == 0
    requires forall n: nat :: i < n < k ==> !PressedAt(run, n)
    requires k == i || !PressedAt(run, k)
    requires var b := BufferAt(cfg, StateAt(m, cfg, s, run, k - 1), run[k - 1]);
      b == Some(p.(left := p.left - (k - i)))
    requires k + Max(0, p.left - (k - i)) <= |run|
    ensures EndsAt(m, cfg, s, run, i, p, j)
    ensures j <= k + Max(0, p.left - (k - i))
    decreases |run| - k
  {
    hide StepOn;
    RunStaysLater(m, cfg, s, run, k - 1);
    StepOfPress(m, cfg, StateAt(m, cfg, s, run, k - 1), run[k - 1]);
    if ResolutionsAt(m, cfg, s, run, k) == 1 {
      j := k;
      var e :| e in EventsAt(m, cfg, s, run, k) && Resolves(e, p.(left := p.left - (k - i)));
      assert Resolves(e, p);
    } else if PressedAt(run, k + 1) {
      j := k + 1;
    } else {
      j := PressGoesOn(m, cfg, s, run, i, p, k + 1);
    }
  }

  /** Every strike press resolves once: within the buffer's steps after its own it
      becomes one first hit at its target, or one refusal of its slot, or is
      replaced by a later press. */
  lemma PressResolvesOnce(m: Maths, cfg: Config, s: DotState, run: seq<Input>, i: nat, press: Act)
    requires LaterHits(s.volleys)
    requires 1 <= i <= |run| && LastPress(run[i - 1].acts) == Some(press) && press.Strike?
    requires i + Max(0, Steps(cfg.rules.bufferMs)) <= |run|
    ensures exists j ::
      i <= j <= i + Max(0, Steps(cfg.rules.bufferMs)) && EndsAt(m, cfg, s, run, i, PendingOf(cfg, press), j)
  {
    var j := PressGoesOn(m, cfg, s, run, i, PendingOf(cfg, press), i);
  }

  // When strikes land ----------------------------------------------------------------------

  /** The step's own first hit, with the slot that made it. */
  ghost predicate FirstHitAt(m: Maths, cfg: Config, s: DotState, run: seq<Input>, k: nat, slot: int) {
    1 <= k <= |run| && exists e :: e in EventsAt(m, cfg, s, run, k) && e.Struck? && e.hit == 1 && e.slot == slot
  }

  lemma BufferedHits(m: Maths, cfg: Config, s: DotState, e: Event)
    requires e in Buffered(m, cfg, s).events && e.Struck?
    ensures s.pending.Some? && s.pending.value.slot == e.slot && StrikeCheck(m, cfg, s, e.slot) == None
    ensures Buffered(m, cfg, s).s.cool == CoolAfter(cfg, s.cool, e.slot)
  {
  }

  /** A first hit in a step is its buffered strike's. */
  lemma FirstHitIsBuffered(m: Maths, cfg: Config, s: DotState, i: Input, e: Event)
    requires LaterHits(s.volleys)
    requires e in StepOn(m, cfg, s, i).events && e.Struck? && e.hit == 1
    ensures e in Buffered(m, cfg, AtStrike(m, cfg, s, i)).events
  {
    hide Opening, Closing, Buffered, DoActs, Step;
    StepEvents(m, cfg, s, i);
    OpeningOnlyRecovers(m, cfg, s);
    ActsFrame(cfg, AtActs(m, cfg, s), i.acts);
    StepStaysLater(m, cfg, s, i);
    VolleysStayLater(cfg, AtVolleys(m, cfg, s, i).volleys);
    ClosingEvents(m, cfg, AtBlows(m, cfg, s, i), i.keys, i.blows);
  }

  lemma OpeningOnlyRecovers(m: Maths, cfg: Config, s: DotState)
    ensures forall e :: e in Opening(m, cfg, s).events ==> e == Recovered
  {
  }

  /** A first hit happens only unstaggered, unblocking and inside the core, with a
      slot that has gear and isn't cooling. */
  lemma FirstHitsAreValid(m: Maths, cfg: Config, s: DotState, i: Input, e: Event)
    requires LaterHits(s.volleys)
    requires e in StepOn(m, cfg, s, i).events && e.Struck? && e.hit == 1
    ensures var a := AtStrike(m, cfg, s, i);
      a.footing.stagger <= 0 && !a.guard.blocking && InCore(m, cfg, a) && Cool(a.cool, e.slot) <= 0
        && e.slot in cfg.slots
  {
    hide Opening, Closing, Buffered, DoActs, Step, StepOn;
    FirstHitIsBuffered(m, cfg, s, i, e);
    BufferedHits(m, cfg, AtStrike(m, cfg, s, i), e);
  }

  /** How long a slot still cools, if it does. */
  function CoolLeft(cool: map<int, int>, slot: int): int { Max(0, Cool(cool, slot)) }

  lemma CoolAfterHolds(cfg: Config, cool: map<int, int>, slot: int, k: int)
    requires Cool(cool, slot) <= 0
    ensures CoolLeft(CoolAfter(cfg, cool, slot), k) >= CoolLeft(cool, k)
    ensures k in cfg.slots ==> CoolLeft(CoolAfter(cfg, cool, slot), k) >= SharedCooldown(cfg)
    ensures CoolLeft(CoolAfter(cfg, cool, slot), slot) >= Steps(cfg.GearIn(slot).cooldown)
    ensures CoolLeft(CoolAfter(cfg, cool, slot), slot) >= SharedCooldown(cfg)
  {
  }

  lemma BufferedHolds(m: Maths, cfg: Config, s: DotState, k: int)
    ensures CoolLeft(Buffered(m, cfg, s).s.cool, k) >= CoolLeft(s.cool, k)
  {
    hide CoolAfter;
    if s.pending.Some? && StrikeCheck(m, cfg, s, s.pending.value.slot) == None {
      CoolAfterHolds(cfg, s.cool, s.pending.value.slot, k);
    }
  }

  /** A slot's cooldown runs down by one a step at most; no strike shortens it. */
  lemma StepCools(m: Maths, cfg: Config, s: DotState, i: Input, k: int)
    ensures CoolLeft(AtStrike(m, cfg, s, i).cool, k) >= CoolLeft(s.cool, k) - 1
    ensures CoolLeft(StepOn(m, cfg, s, i).s.cool, k) >= CoolLeft(s.cool, k) - 1
  {
    hide Opening, Closing, Buffered, DoActs, Step, Volleys;
    OpeningEvents(m, cfg, s);
    ActsFrame(cfg, AtActs(m, cfg, s), i.acts);
    BufferedHolds(m, cfg, AtStrike(m, cfg, s, i), k);
    StepFrame(m, cfg, s, i);
  }

  lemma {:induction false} RunCools(m: Maths, cfg: Config, s: DotState, run: seq<Input>, i: nat, k: nat, slot: int)
    requires i <= k <= |run|
    ensures CoolLeft(StateAt(m, cfg, s, run, k).cool, slot) >= CoolLeft(StateAt(m, cfg, s, run, i).cool, slot) - (k - i)
    decreases k
  {
    hide StepOn;
    if i < k {
      RunCools(m, cfg, s, run, i, k - 1, slot);
      StepCools(m, cfg, StateAt(m, cfg, s, run, k - 1), run[k - 1], slot);
    }
  }

  /** What a first hit at step k leaves cooling, and what it needed not to be. */
  lemma FirstHitCools(m: Maths, cfg: Config, s: DotState, run: seq<Input>, k: nat, slot: int, other: int)
    requires LaterHits(s.volleys) && FirstHitAt(m, cfg, s, run, k, slot) && other in cfg.slots
    ensures slot in cfg.slots
    ensures CoolLeft(StateAt(m, cfg, s, run, k).cool, other) >= SharedCooldown(cfg)
    ensures CoolLeft(StateAt(m, cfg, s, run, k).cool, slot)
      >= Max(Steps(cfg.GearIn(slot).cooldown), SharedCooldown(cfg))
    ensures CoolLeft(StateAt(m, cfg, s, run, k - 1).cool, slot) <= 1
  {
    hide Opening, Closing, Buffered, DoActs, Step, Volleys, CoolAfter, StepOn;
    var t, i := StateAt(m, cfg, s, run, k - 1), run[k - 1];
    var e :| e in EventsAt(m, cfg, s, run, k) && e.Struck? && e.hit == 1 && e.slot == slot;
    RunStaysLater(m, cfg, s, run, k - 1);
    FirstHitIsBuffered(m, cfg, t, i, e);
    FirstHitsAreValid(m, cfg, t, i, e);
    BufferedHits(m, cfg, AtStrike(m, cfg, t, i), e);
    CoolAfterHolds(cfg, AtStrike(m, cfg, t, i).cool, slot, other);
    StepFrame(m, cfg, t, i);
    StepCools(m, cfg, t, i, slot);
  }

  /** First hits are apart: by the shared cooldown overall, and by the slot's own
      as well within a slot. */
  lemma FirstHitsApart(m: Maths, cfg: Config, s: DotState, run: seq<Input>, i: nat, a: int, j: nat, b: int)
    requires LaterHits(s.volleys) && i < j
    requires FirstHitAt(m, cfg, s, run, i, a) && FirstHitAt(m, cfg, s, run, j, b)
    ensures a in cfg.slots && b in cfg.slots
    ensures j - i >= Max(1, SharedCooldown(cfg))
    ensures a == b ==> j - i >= Max(1, Max(Steps(cfg.GearIn(a).cooldown), SharedCooldown(cfg)))
  {
    hide StepOn;
    HitSlotKnown(m, cfg, s, run, j, b);
    FirstHitCools(m, cfg, s, run, i, a, b);
    FirstHitCools(m, cfg, s, run, j, b, b);
    RunCools(m, cfg, s, run, i, j - 1, b);
  }

  lemma HitSlotKnown(m: Maths, cfg: Config, s: DotState, run: seq<Input>, k: nat, slot: int)
    requires LaterHits(s.volleys) && FirstHitAt(m, cfg, s, run, k, slot)
    ensures slot in cfg.slots
  {
    hide StepOn, Opening, Buffered, DoActs;
    var e :| e in EventsAt(m, cfg, s, run, k) && e.Struck? && e.hit == 1 && e.slot == slot;
    RunStaysLater(m, cfg, s, run, k - 1);
    FirstHitsAreValid(m, cfg, StateAt(m, cfg, s, run, k - 1), run[k - 1], e);
  }
}
