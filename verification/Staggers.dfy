/** Staggers are rationed: after one, neither a blow nor the rim can stagger the
    dot again until it has recovered and its immunity has run out. */
module Staggers {
  import opened Basics
  import opened Balance
  import opened Runs

  predicate IsStagger(e: Event) { e.Staggered? }

  function Lasts(cfg: Config): int { Steps(cfg.rules.staggerMs) }

  function Immune(cfg: Config): int { Steps(cfg.rules.staggerImmuneMs) }

  /** How many steps must still pass before the dot can stagger. */
  function Wait(cfg: Config, f: Footing): int {
    if f.stagger > 0 then f.stagger + Immune(cfg) else f.immune
  }

  /** A stage staggers the dot at most once, only when it may, and otherwise leaves its footing. */
  ghost predicate StaggersOnce(cfg: Config, f: Footing, o: Out) {
    var c, g := Count(o.events, IsStagger), o.s.footing;
    if c == 0 then g.stagger == f.stagger && g.immune == f.immune
    else c == 1 && Wait(cfg, f) <= 0 && f.stagger <= 0 && g.stagger == Lasts(cfg) && g.immune == f.immune
  }

  lemma OpeningWaits(m: Maths, cfg: Config, s: DotState)
    ensures Wait(cfg, Opening(m, cfg, s).s.footing) >= Wait(cfg, s.footing) - 1
    ensures Count(Opening(m, cfg, s).events, IsStagger) == 0
  {
  }

  lemma BlowStaggersOnce(m: Maths, cfg: Config, s: DotState, blow: Blow)
    ensures StaggersOnce(cfg, s.footing, Blown1(m, cfg, s, blow))
  {
    var e := Blown1(m, cfg, s, blow).events;
    if |e| == 2 { assert e[1..] == [e[1]]; }
  }

  lemma {:induction false} BlowsStaggerOnce(m: Maths, cfg: Config, s: DotState, blows: seq<Blow>)
    requires Lasts(cfg) >= 1
    ensures StaggersOnce(cfg, s.footing, BlownAll(m, cfg, s, blows))
    decreases |blows|
  {
    if blows != [] {
      hide Blown1;
      var o := Blown1(m, cfg, s, blows[0]);
      BlowStaggersOnce(m, cfg, s, blows[0]);
      BlowsStaggerOnce(m, cfg, o.s, blows[1..]);
      CountConcat(o.events, BlownAll(m, cfg, o.s, blows[1..]).events, IsStagger);
    }
  }

  lemma PhysicsStaggersOnce(m: Maths, cfg: Config, s: DotState, keys: Keys)
    ensures StaggersOnce(cfg, s.footing, Physics(m, cfg, s, keys))
  {
    if s.footing.stagger <= 0 {
      var d := Drifted(m, cfg, s, keys);
      var o := AtRim(m, cfg, d);
      RimStaggersOnce(m, cfg, d);
      CountConcat(o.events, Settled(m, cfg, o.s).events, IsStagger);
    }
  }

  lemma RimStaggersOnce(m: Maths, cfg: Config, s: DotState)
    requires s.footing.stagger <= 0
    ensures StaggersOnce(cfg, s.footing, AtRim(m, cfg, s))
  {
  }

  lemma ClosingStaggersOnce(m: Maths, cfg: Config, s: DotState, keys: Keys, blows: seq<Blow>)
    requires Lasts(cfg) >= 1
    ensures StaggersOnce(cfg, s.footing, Closing(m, cfg, s, keys, blows))
  {
    hide Physics, BlownAll;
    var o := BlownAll(m, cfg, s, blows);
    BlowsStaggerOnce(m, cfg, s, blows);
    PhysicsStaggersOnce(m, cfg, o.s, keys);
    CountConcat(o.events, Physics(m, cfg, o.s, keys).events, IsStagger);
  }

  lemma {:induction false} NoStaggerInVolleys(cfg: Config, volleys: seq<Volley>)
    ensures forall i :: 0 <= i < |VolleysHit(cfg, volleys)| ==> VolleysHit(cfg, volleys)[i].Struck?
    decreases |volleys|
  {
    if volleys != [] { NoStaggerInVolleys(cfg, volleys[1..]); }
  }

  lemma ActingStaggersNever(m: Maths, cfg: Config, s: DotState, i: Input)
    ensures Count(DoActs(cfg, AtActs(m, cfg, s), i.acts).events, IsStagger) == 0
    ensures Count(Buffered(m, cfg, AtStrike(m, cfg, s, i)).events, IsStagger) == 0
    ensures Count(Volleys(m, cfg, AtVolleys(m, cfg, s, i)).events, IsStagger) == 0
  {
    hide Opening;
    ActsFrame(cfg, AtActs(m, cfg, s), i.acts);
    CountNone(DoActs(cfg, AtActs(m, cfg, s), i.acts).events, IsStagger);
    NoStaggerInVolleys(cfg, AtVolleys(m, cfg, s, i).volleys);
    CountNone(Volleys(m, cfg, AtVolleys(m, cfg, s, i)).events, IsStagger);
  }

  /** One step: the wait shrinks by one at most; a stagger needs it to be over,
      happens once, and starts it afresh. */
  lemma StepWaits(m: Maths, cfg: Config, s: DotState, i: Input)
    requires Lasts(cfg) >= 1
    ensures var o := StepOn(m, cfg, s, i); var c := Count(o.events, IsStagger);
      && c <= 1
      && (c == 0 ==> Wait(cfg, o.s.footing) >= Wait(cfg, s.footing) - 1)
      && (c == 1 ==> Wait(cfg, s.footing) <= 1 && Wait(cfg, o.s.footing) == Lasts(cfg) + Immune(cfg))
  {
    hide Opening, Closing, Buffered, Volleys, DoActs, Step;
    CountStep(m, cfg, s, i, IsStagger);
    OpeningWaits(m, cfg, s);
    ActingStaggersNever(m, cfg, s, i);
    StepFrame(m, cfg, s, i);
    StepEvents(m, cfg, s, i);
    ClosingStaggersOnce(m, cfg, AtBlows(m, cfg, s, i), i.keys, i.blows);
  }

  ghost predicate StaggersAt(m: Maths, cfg: Config, s: DotState, run: seq<Input>, k: nat) {
    1 <= k <= |run| && Count(EventsAt(m, cfg, s, run, k), IsStagger) > 0
  }

  /** After a stagger at step i the wait shrinks by one a step at most. */
  lemma {:induction false} WaitAfter(m: Maths, cfg: Config, s: DotState, run: seq<Input>, i: nat, k: nat)
    requires Lasts(cfg) >= 1
    requires StaggersAt(m, cfg, s, run, i) && i <= k <= |run|
    ensures Wait(cfg, StateAt(m, cfg, s, run, k).footing) >= Lasts(cfg) + Immune(cfg) - (k - i)
    decreases k
  {
    hide StepOn;
    StepWaits(m, cfg, StateAt(m, cfg, s, run, k - 1), run[k - 1]);
    if i < k { WaitAfter(m, cfg, s, run, i, k - 1); }
  }

  /** In a run no step staggers twice, and staggers at different steps are apart
      by a stagger's length and the immunity after it. */
  ghost predicate Rationed(m: Maths, cfg: Config, s: DotState, run: seq<Input>) {
    && (Lasts(cfg) + Immune(cfg) >= 1 ==>
          (forall k :: 1 <= k <= |run| ==> Count(EventsAt(m, cfg, s, run, k), IsStagger) <= 1))
    && (forall i: nat, j: nat ::
          i < j && StaggersAt(m, cfg, s, run, i) && StaggersAt(m, cfg, s, run, j) ==> j - i >= Lasts(cfg) + Immune(cfg))
  }

  lemma StaggersRationed(m: Maths, cfg: Config, s: DotState, run: seq<Input>)
    requires Lasts(cfg) >= 1
    ensures Rationed(m, cfg, s, run)
  {
    hide StepOn;
    forall k | 1 <= k <= |run| ensures Count(EventsAt(m, cfg, s, run, k), IsStagger) <= 1 {
      StepWaits(m, cfg, StateAt(m, cfg, s, run, k - 1), run[k - 1]);
    }
    forall i: nat, j: nat | i < j && StaggersAt(m, cfg, s, run, i) && StaggersAt(m, cfg, s, run, j)
      ensures j - i >= Lasts(cfg) + Immune(cfg)
    {
      StepWaits(m, cfg, StateAt(m, cfg, s, run, j - 1), run[j - 1]);
      WaitAfter(m, cfg, s, run, i, j - 1);
    }
  }

  // Where a stagger takes no steps -----------------------------------------------------------

  const SIGNATURE := Blow(0.0, 0.0, NoDefence, true, None, false)

  /** A dot that has just started takes each of several signature blows in a step:
      Steady Hands can catch the first, and each of the others staggers it. */
  lemma SignatureBlow(m: Maths, cfg: Config, s: DotState)
    requires s.footing.stagger <= 0 && s.footing.immune == 0 && Lasts(cfg) <= 0
    ensures var o := Blown1(m, cfg, s, SIGNATURE);
      && o.s.footing.stagger <= 0 && o.s.footing.immune == 0
      && Count(o.events, IsStagger) == (if HandsSteady(cfg, s.feats) then 0 else 1)
      && !HandsSteady(cfg, o.s.feats)
  {
    var e := Blown1(m, cfg, s, SIGNATURE).events;
    assert |e| == 2 && e[1..] == [e[1]];
  }

  lemma ThreeSignatures(m: Maths, cfg: Config, s: DotState)
    requires s.footing.stagger <= 0 && s.footing.immune == 0 && Lasts(cfg) <= 0
    ensures Count(BlownAll(m, cfg, s, [SIGNATURE, SIGNATURE, SIGNATURE]).events, IsStagger) >= 2
  {
    hide Blown1;
    var b := SIGNATURE;
    var o1 := Blown1(m, cfg, s, b);
    var o2 := Blown1(m, cfg, o1.s, b);
    var o3 := Blown1(m, cfg, o2.s, b);
    SignatureBlow(m, cfg, s);
    SignatureBlow(m, cfg, o1.s);
    SignatureBlow(m, cfg, o2.s);
    assert [b, b, b][1..] == [b, b] && [b, b][1..] == [b] && [b][1..] == [];
    assert BlownAll(m, cfg, o2.s, [b]).events == o3.events;
    CountConcat(o2.events, o3.events, IsStagger);
    CountConcat(o1.events, o2.events + o3.events, IsStagger);
  }

  /** Staggers are rationed in every run from the start of an encounter exactly
      when a stagger lasts at least a step (or there is nothing to ration). */
  lemma RationedExactlyWhen(m: Maths, cfg: Config, seed: int)
    ensures (forall run :: Rationed(m, cfg, Start(m, cfg, seed), run))
      <==> Lasts(cfg) >= 1 || Lasts(cfg) + Immune(cfg) <= 0
  {
    hide StepOn;
    var s := Start(m, cfg, seed);
    if Lasts(cfg) >= 1 {
      forall run ensures Rationed(m, cfg, s, run) { StaggersRationed(m, cfg, s, run); }
    } else if Lasts(cfg) + Immune(cfg) <= 0 {
      forall run ensures Rationed(m, cfg, s, run) {}
    } else {
      var run := [Input(0, [], [SIGNATURE, SIGNATURE, SIGNATURE])];
      TwiceInOneStep(m, cfg, seed);
      assert EventsAt(m, cfg, s, run, 1) == StepOn(m, cfg, s, run[0]).events;
      assert !Rationed(m, cfg, s, run);
    }
  }

  lemma TwiceInOneStep(m: Maths, cfg: Config, seed: int)
    requires Lasts(cfg) <= 0
    ensures Count(StepOn(m, cfg, Start(m, cfg, seed), Input(0, [], [SIGNATURE, SIGNATURE, SIGNATURE])).events,
                  IsStagger) >= 2
  {
    hide Closing, Buffered, Volleys, Step, DoActs, Opening;
    var s, i := Start(m, cfg, seed), Input(0, [], [SIGNATURE, SIGNATURE, SIGNATURE]);
    CountStep(m, cfg, s, i, IsStagger);
    StepFrame(m, cfg, s, i);
    StartFooting(m, cfg, seed);
    var b := AtBlows(m, cfg, s, i);
    ThreeSignatures(m, cfg, b);
    ClosingCounts(m, cfg, b, i.keys, i.blows);
  }

  lemma StartFooting(m: Maths, cfg: Config, seed: int)
    ensures var f := Opening(m, cfg, Start(m, cfg, seed)).s.footing; f.stagger == 0 && f.immune == 0
  {
  }

  lemma ClosingCounts(m: Maths, cfg: Config, s: DotState, keys: Keys, blows: seq<Blow>)
    ensures Count(Closing(m, cfg, s, keys, blows).events, IsStagger)
      >= Count(BlownAll(m, cfg, s, blows).events, IsStagger)
  {
    hide Physics, BlownAll;
    var o := BlownAll(m, cfg, s, blows);
    CountConcat(o.events, Physics(m, cfg, o.s, keys).events, IsStagger);
  }
}
