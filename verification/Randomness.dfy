/** The generator: its state depends on the seed and the step alone, and doesn't
    come round for 2^32 draws; and so the well is the same whatever the player does. */
module Randomness {
  import opened Balance
  import opened Runs

  // The state after n draws ------------------------------------------------------------------

  function Draw(s: int, n: nat): int {
    if n == 0 then s else Advance(Draw(s, n - 1))
  }

  /** n draws on, the state has moved by n strides. */
  lemma {:induction false} DrawIs(seed: int, n: nat)
    ensures Draw(seed % 0x1_0000_0000, n) == (seed + n * 0x6D2B79F5) % 0x1_0000_0000
  {
    if n > 0 {
      DrawIs(seed, n - 1);
      AddMod(seed + (n - 1) * 0x6D2B79F5, 0x6D2B79F5);
    }
  }

  lemma AddMod(a: int, b: int)
    ensures (a % 0x1_0000_0000 + b) % 0x1_0000_0000 == (a + b) % 0x1_0000_0000
  {
  }

  /** The stride is odd, so it has an inverse, and draws fewer than 2^32 apart never
      have the same state. */
  lemma NoRepeat(seed: int, i: nat, j: nat)
    requires i < j < i + 0x1_0000_0000
    ensures Draw(seed % 0x1_0000_0000, i) != Draw(seed % 0x1_0000_0000, j)
  {
    DrawIs(seed, i);
    DrawIs(seed, j);
    var d := j - i;
    if (seed + i * 0x6D2B79F5) % 0x1_0000_0000 == (seed + j * 0x6D2B79F5) % 0x1_0000_0000 {
      var k := (seed + j * 0x6D2B79F5) / 0x1_0000_0000 - (seed + i * 0x6D2B79F5) / 0x1_0000_0000;
      assert d * 0x6D2B79F5 == k * 0x1_0000_0000;
      InverseOfStride(d, k);
    }
  }

  /** The stride times 0xDC58AA5D is 1 modulo 2^32, so only multiples of 2^32 give
      multiples of it when multiplied by the stride. */
  lemma InverseOfStride(d: int, k: int)
    requires d * 0x6D2B79F5 == k * 0x1_0000_0000
    ensures d % 0x1_0000_0000 == 0
  {
    var k' := k * 0xDC58AA5D - d * 0x5DF72C67;
    assert d * 0x6D2B79F5 * 0xDC58AA5D == k * 0x1_0000_0000 * 0xDC58AA5D;
    assert d == k' * 0x1_0000_0000;
  }

  /** A dot's generator, started with a seed, stands n steps later at 3 + 4n draws,
      whatever the inputs were. */
  lemma {:induction false} InputsCannotTouchTheStream(m: Maths, cfg: Config, seed: int, run: seq<Input>, n: nat)
    requires n <= |run|
    ensures StateAt(m, cfg, Start(m, cfg, seed), run, n).rng == (seed + (3 + 4 * n) * 0x6D2B79F5) % 0x1_0000_0000
  {
    hide StateAt, Start, Draw;
    StreamIsDraws(m, cfg, seed, run, n);
    DrawIs(seed, 3 + 4 * n);
  }

  lemma {:induction false} StreamIsDraws(m: Maths, cfg: Config, seed: int, run: seq<Input>, n: nat)
    requires n <= |run|
    ensures StateAt(m, cfg, Start(m, cfg, seed), run, n).rng == Draw(seed % 0x1_0000_0000, 3 + 4 * n)
  {
    hide StepOn, Advance;
    if n == 0 {
      StartDraws(m, cfg, seed);
    } else {
      StreamIsDraws(m, cfg, seed, run, n - 1);
      StepDrawsFour(m, cfg, StateAt(m, cfg, Start(m, cfg, seed), run, n - 1), run[n - 1]);
      FourDraws(seed % 0x1_0000_0000, 3 + 4 * (n - 1));
    }
  }

  lemma StartDraws(m: Maths, cfg: Config, seed: int)
    ensures Start(m, cfg, seed).rng == Draw(seed % 0x1_0000_0000, 3)
  {
    hide Advance;
    var s := seed % 0x1_0000_0000;
    assert Draw(s, 1) == Advance(Draw(s, 0));
    assert Draw(s, 2) == Advance(Draw(s, 1));
    assert Draw(s, 3) == Advance(Draw(s, 2));
  }

  lemma FourDraws(s: int, n: nat)
    ensures Draw(s, n + 4) == Advance(Advance(Advance(Advance(Draw(s, n)))))
  {
    hide Advance;
    assert Draw(s, n + 1) == Advance(Draw(s, n));
    assert Draw(s, n + 2) == Advance(Draw(s, n + 1));
    assert Draw(s, n + 3) == Advance(Draw(s, n + 2));
    assert Draw(s, n + 4) == Advance(Draw(s, n + 3));
  }

  lemma OpeningDrawsFour(m: Maths, cfg: Config, s: DotState)
    ensures Opening(m, cfg, s).s.rng == Advance(Advance(Advance(Advance(s.rng))))
  {
    hide Advance;
  }

  lemma StepDrawsFour(m: Maths, cfg: Config, s: DotState, i: Input)
    ensures StepOn(m, cfg, s, i).s.rng == Advance(Advance(Advance(Advance(s.rng))))
  {
    hide Opening, Closing, Buffered, Volleys, DoActs, Step, Advance, StepOn;
    OpeningDrawsFour(m, cfg, s);
    StepFrame(m, cfg, s, i);
  }

  // The well ---------------------------------------------------------------------------------

  /** The reeling strength the well goes by in a step: the debuff's, once timed. */
  function ReelingIn(cfg: Config, s: DotState): real {
    Reeling(TimedDebuffs(cfg, s.guard, s.debuffs))
  }

  lemma OpeningMovesWell(m: Maths, cfg: Config, s: DotState)
    ensures Opening(m, cfg, s).s.orbit == OrbitNext(m, cfg, s.orbit, ReelingIn(cfg, s), Drawn(m, s).draws)
  {
    hide OrbitNext, Reeling, TimedDebuffs, Advance;
  }

  lemma StepMovesWell(m: Maths, cfg: Config, s: DotState, i: Input)
    ensures StepOn(m, cfg, s, i).s.orbit == OrbitNext(m, cfg, s.orbit, ReelingIn(cfg, s), Drawn(m, s).draws)
  {
    hide Opening, Closing, Buffered, Volleys, DoActs, Step, OrbitNext, ReelingIn, Drawn, StepOn;
    OpeningMovesWell(m, cfg, s);
    StepFrame(m, cfg, s, i);
  }

  /** The draws depend on the generator alone. */
  lemma SameDraws(m: Maths, a: DotState, b: DotState)
    requires a.rng == b.rng
    ensures Drawn(m, a).draws == Drawn(m, b).draws
  {
    hide Advance;
  }

  /** Two dots with one seed and the same well rules have the same well at every
      step, whatever their gear, keys, strikes and blows, so long as their reeling
      debuffs agree. */
  lemma {:induction false} WellsAgree(m: Maths, cfg1: Config, cfg2: Config, seed: int, run1: seq<Input>,
                                      run2: seq<Input>, n: nat)
    requires cfg1.rules.wellLo == cfg2.rules.wellLo && cfg1.rules.wellHi == cfg2.rules.wellHi
    requires cfg1.rules.wellSpeed == cfg2.rules.wellSpeed
    requires n <= |run1| && n <= |run2|
    requires forall k: nat :: k < n ==>
      ReelingIn(cfg1, StateAt(m, cfg1, Start(m, cfg1, seed), run1, k))
        == ReelingIn(cfg2, StateAt(m, cfg2, Start(m, cfg2, seed), run2, k))
    ensures StateAt(m, cfg1, Start(m, cfg1, seed), run1, n).orbit
      == StateAt(m, cfg2, Start(m, cfg2, seed), run2, n).orbit
  {
    hide StepOn, Drawn, ReelingIn, OrbitNext, Advance;
    if n == 0 {
      SameStart(m, cfg1, cfg2, seed);
    } else {
      WellsAgree(m, cfg1, cfg2, seed, run1, run2, n - 1);
      var a, b := StateAt(m, cfg1, Start(m, cfg1, seed), run1, n - 1),
        StateAt(m, cfg2, Start(m, cfg2, seed), run2, n - 1);
      StreamIsDraws(m, cfg1, seed, run1, n - 1);
      StreamIsDraws(m, cfg2, seed, run2, n - 1);
      SameDraws(m, a, b);
      StepMovesWell(m, cfg1, a, run1[n - 1]);
      StepMovesWell(m, cfg2, b, run2[n - 1]);
      SameOrbitNext(m, cfg1, cfg2, a.orbit, ReelingIn(cfg1, a), Drawn(m, a).draws);
    }
  }

  lemma SameStart(m: Maths, cfg1: Config, cfg2: Config, seed: int)
    requires cfg1.rules.wellLo == cfg2.rules.wellLo && cfg1.rules.wellHi == cfg2.rules.wellHi
    ensures Start(m, cfg1, seed).orbit == Start(m, cfg2, seed).orbit
  {
    hide Advance;
  }

  lemma SameOrbitNext(m: Maths, cfg1: Config, cfg2: Config, o: Orbit, r: real, draws: Draws)
    requires cfg1.rules.wellLo == cfg2.rules.wellLo && cfg1.rules.wellHi == cfg2.rules.wellHi
    requires cfg1.rules.wellSpeed == cfg2.rules.wellSpeed
    ensures OrbitNext(m, cfg1, o, r, draws) == OrbitNext(m, cfg2, o, r, draws)
  {
  }
}
