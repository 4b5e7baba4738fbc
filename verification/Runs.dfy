/** Runs of steps under any inputs, and which stage of a step leaves what alone. */
module Runs {
  import opened Balance

  datatype Input = Input(keys: Keys, acts: seq<Act>, blows: seq<Blow>)

  function StepOn(m: Maths, cfg: Config, s: DotState, i: Input): Out {
    Step(m, cfg, s, i.keys, i.acts, i.blows)
  }

  /** The state after the first k steps of a run from s. */
  function StateAt(m: Maths, cfg: Config, s: DotState, run: seq<Input>, k: nat): DotState
    requires k <= |run|
  {
    if k == 0 then s else StepOn(m, cfg, StateAt(m, cfg, s, run, k - 1), run[k - 1]).s
  }

  /** The events of the run's k-th step, the first being step 1. */
  function EventsAt(m: Maths, cfg: Config, s: DotState, run: seq<Input>, k: nat): seq<Event>
    requires 1 <= k <= |run|
  {
    StepOn(m, cfg, StateAt(m, cfg, s, run, k - 1), run[k - 1]).events
  }

  /** The state at the start of the acts, of the buffered strike, of the volleys, and of the blows. */
  function AtActs(m: Maths, cfg: Config, s: DotState): DotState { Opening(m, cfg, s).s }

  function AtStrike(m: Maths, cfg: Config, s: DotState, i: Input): DotState {
    DoActs(cfg, AtActs(m, cfg, s), i.acts).s
  }

  function AtVolleys(m: Maths, cfg: Config, s: DotState, i: Input): DotState {
    Buffered(m, cfg, AtStrike(m, cfg, s, i)).s
  }

  function AtBlows(m: Maths, cfg: Config, s: DotState, i: Input): DotState {
    Volleys(m, cfg, AtVolleys(m, cfg, s, i)).s
  }

  /** A step's events, stage by stage. */
  lemma StepEvents(m: Maths, cfg: Config, s: DotState, i: Input)
    ensures StepOn(m, cfg, s, i).events ==
      Opening(m, cfg, s).events + DoActs(cfg, AtActs(m, cfg, s), i.acts).events
      + Buffered(m, cfg, AtStrike(m, cfg, s, i)).events + Volleys(m, cfg, AtVolleys(m, cfg, s, i)).events
      + Closing(m, cfg, AtBlows(m, cfg, s, i), i.keys, i.blows).events
    ensures StepOn(m, cfg, s, i).s == Closing(m, cfg, AtBlows(m, cfg, s, i), i.keys, i.blows).s
  {
    hide Opening, Buffered, Volleys, Closing, DoActs;
  }

  // Counting events ----------------------------------------------------------------------

  function Count(events: seq<Event>, p: Event -> bool): nat {
    if events == [] then 0 else (if p(events[0]) then 1 else 0) + Count(events[1..], p)
  }

  lemma {:induction false} CountConcat(a: seq<Event>, b: seq<Event>, p: Event -> bool)
    ensures Count(a + b, p) == Count(a, p) + Count(b, p)
  {
    if a == [] {
      assert a + b == b;
    } else {
      assert (a + b)[1..] == a[1..] + b;
      CountConcat(a[1..], b, p);
    }
  }

  lemma {:induction false} CountNone(events: seq<Event>, p: Event -> bool)
    requires forall i :: 0 <= i < |events| ==> !p(events[i])
    ensures Count(events, p) == 0
  {
    if events != [] { CountNone(events[1..], p); }
  }

  lemma CountStep(m: Maths, cfg: Config, s: DotState, i: Input, p: Event -> bool)
    ensures Count(StepOn(m, cfg, s, i).events, p) ==
      Count(Opening(m, cfg, s).events, p) + Count(DoActs(cfg, AtActs(m, cfg, s), i.acts).events, p)
      + Count(Buffered(m, cfg, AtStrike(m, cfg, s, i)).events, p)
      + Count(Volleys(m, cfg, AtVolleys(m, cfg, s, i)).events, p)
      + Count(Closing(m, cfg, AtBlows(m, cfg, s, i), i.keys, i.blows).events, p)
  {
    StepEvents(m, cfg, s, i);
    var a, b := Opening(m, cfg, s).events, DoActs(cfg, AtActs(m, cfg, s), i.acts).events;
    var c, d := Buffered(m, cfg, AtStrike(m, cfg, s, i)).events, Volleys(m, cfg, AtVolleys(m, cfg, s, i)).events;
    CountConcat(a, b, p);
    CountConcat(a + b, c, p);
    CountConcat(a + b + c, d, p);
    CountConcat(a + b + c + d, Closing(m, cfg, AtBlows(m, cfg, s, i), i.keys, i.blows).events, p);
  }

  // What each stage leaves alone -------------------------------------------------------------

  predicate FromActs(e: Event) { e.Refused? || e.DodgeStarted? }

  /** Acts change only the buffered strike and the guard. */
  lemma {:induction false} ActsFrame(cfg: Config, s: DotState, acts: seq<Act>)
    ensures var t := DoActs(cfg, s, acts).s; t == s.(pending := t.pending, guard := t.guard)
    ensures forall i :: 0 <= i < |DoActs(cfg, s, acts).events| ==> FromActs(DoActs(cfg, s, acts).events[i])
    decreases |acts|
  {
    if acts != [] { ActsFrame(cfg, DoAct(cfg, s, acts[0]).s, acts[1..]); }
  }

  /** A strike changes the motion and feats (its kick), cooldowns, debuffs, the buffer and the volleys. */
  lemma BufferedFrame(m: Maths, cfg: Config, s: DotState)
    ensures var t := Buffered(m, cfg, s).s;
      t == s.(motion := t.motion, feats := t.feats, cool := t.cool, debuffs := t.debuffs, pending := t.pending,
              volleys := t.volleys)
  {
  }

  lemma {:induction false} KicksFrame(m: Maths, cfg: Config, s: DotState, volleys: seq<Volley>)
    ensures var t := VolleyKicks(m, cfg, s, volleys); t == s.(motion := t.motion, feats := t.feats)
    decreases |volleys|
  {
    if volleys != [] { KicksFrame(m, cfg, VolleyKick(m, cfg, s, volleys[0]), volleys[1..]); }
  }

  /** Volleys change only themselves, the motion and the feats. */
  lemma VolleysFrame(m: Maths, cfg: Config, s: DotState)
    ensures var t := Volleys(m, cfg, s).s; t == s.(motion := t.motion, feats := t.feats, volleys := t.volleys)
  {
    KicksFrame(m, cfg, s, s.volleys);
  }

  lemma BlownFrame(m: Maths, cfg: Config, s: DotState, blow: Blow)
    ensures var t := Blown1(m, cfg, s, blow).s;
      t == s.(motion := t.motion, footing := t.footing, feats := t.feats, debuffs := t.debuffs)
  {
  }

  lemma {:induction false} BlowsFrame(m: Maths, cfg: Config, s: DotState, blows: seq<Blow>)
    ensures var t := BlownAll(m, cfg, s, blows).s;
      t == s.(motion := t.motion, footing := t.footing, feats := t.feats, debuffs := t.debuffs)
    decreases |blows|
  {
    if blows != [] {
      BlownFrame(m, cfg, s, blows[0]);
      BlowsFrame(m, cfg, Blown1(m, cfg, s, blows[0]).s, blows[1..]);
    }
  }

  lemma PhysicsFrame(m: Maths, cfg: Config, s: DotState, keys: Keys)
    ensures var t := Physics(m, cfg, s, keys).s; t == s.(motion := t.motion, footing := t.footing, feats := t.feats)
  {
  }

  /** Blows and movement change only the motion, the footing, the feats and the debuffs. */
  lemma ClosingFrame(m: Maths, cfg: Config, s: DotState, keys: Keys, blows: seq<Blow>)
    ensures var t := Closing(m, cfg, s, keys, blows).s;
      t == s.(motion := t.motion, footing := t.footing, feats := t.feats, debuffs := t.debuffs)
  {
    BlowsFrame(m, cfg, s, blows);
    PhysicsFrame(m, cfg, BlownAll(m, cfg, s, blows).s, keys);
  }

  /** So after a step the count, generator, draws and well are as the opening left
      them; the footing is the opening's until the blows land; and the cooldowns,
      the buffer and the volleys are as they were when the blows landed. */
  lemma StepFrame(m: Maths, cfg: Config, s: DotState, i: Input)
    ensures var o, t := AtActs(m, cfg, s), StepOn(m, cfg, s, i).s;
      t.n == o.n && t.rng == o.rng && t.draws == o.draws && t.orbit == o.orbit
    ensures AtBlows(m, cfg, s, i).footing == AtActs(m, cfg, s).footing
    ensures var b, t := AtBlows(m, cfg, s, i), StepOn(m, cfg, s, i).s;
      t.cool == b.cool && t.pending == b.pending && t.volleys == b.volleys
    ensures AtBlows(m, cfg, s, i).cool == AtVolleys(m, cfg, s, i).cool
    ensures AtBlows(m, cfg, s, i).pending == AtVolleys(m, cfg, s, i).pending
  {
    ActsFrame(cfg, AtActs(m, cfg, s), i.acts);
    BufferedFrame(m, cfg, AtStrike(m, cfg, s, i));
    VolleysFrame(m, cfg, AtVolleys(m, cfg, s, i));
    ClosingFrame(m, cfg, AtBlows(m, cfg, s, i), i.keys, i.blows);
  }
}
