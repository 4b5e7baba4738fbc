/** A dot at rest at the centre of a disc without gravity or damping, pushed to the
    right for a step: the examples of what can go wrong start from it. */
module Rest {
  import opened Basics
  import opened Balance
  import opened Disc

  /** No gravity, no damping, and a stagger that lasts no step at all. */
  function RulesOf(push: real): Rules {
    Rules(0.22, 0.06, 0.14, 0.0, 0.0, push, 0.0, 0.3, 0.5, 0.85, 0.3, 1500.0, 100.0, 0.0, 1.8, 3000.0,
          600.0, 3000.0, 0.0, 2500.0, 0.15, 40.0, 4000.0, 5.0, 60.0, 1.0)
  }

  function ConfigOf(push: real): Config { Config(RulesOf(push), map[], false, {}) }

  /** At the centre, still, with nothing running that tells on it. */
  ghost predicate Still(s: DotState) {
    && s.motion == Motion(0.0, 0.0, 0.0, 0.0, 0.0) && s.footing == Footing(0, 0.0, 0.0, 0)
    && s.guard == Guard(0, 0, false, false, 0) && s.feats == Feats(0, false, false, true)
    && "heavy" !in s.debuffs && "wobble" !in s.debuffs && "steady" !in s.debuffs
  }

  /** And with no strike buffered or under way. */
  ghost predicate AtRest(s: DotState) { Still(s) && s.pending == None && s.volleys == [] }

  lemma StartsAtRest(m: Maths, cfg: Config, seed: int)
    ensures AtRest(Start(m, cfg, seed))
  {
    hide Advance, RadiusAt, Around;
  }

  lemma OpeningStill(m: Maths, cfg: Config, s: DotState)
    requires Still(s)
    ensures var o := Opening(m, cfg, s);
      Still(o.s) && o.events == [] && o.s.pending == s.pending && o.s.volleys == s.volleys
  {
    hide OrbitNext, Steps, CoolDown, Reeling, Advance, WithDebuff;
  }

  lemma OpeningAtRest(m: Maths, cfg: Config, s: DotState)
    requires AtRest(s)
    ensures AtRest(Opening(m, cfg, s).s) && Opening(m, cfg, s).events == []
  {
    hide Opening, Still;
    OpeningStill(m, cfg, s);
  }

  lemma NoGravity(m: Maths, cfg: Config, push: real, s: DotState)
    requires Still(s) && cfg.rules == RulesOf(push)
    ensures Gravity(m, cfg, s.motion, s.orbit, Reeling(s.debuffs), Calm(s.guard)) == Pair(0.0, 0.0)
  {
    hide Length, Reeling;
  }

  lemma PushRight(m: Maths, cfg: Config, push: real, s: DotState, keys: Keys)
    requires Still(s) && cfg.rules == RulesOf(push) && (keys == 0 || keys == RIGHT)
    ensures Push(m, cfg, s.guard, s.debuffs, keys) == Pair(if keys == RIGHT then push else 0.0, 0.0)
  {
    assert (0 as bv4) & RIGHT == 0 && (0 as bv4) & LEFT == 0 && (0 as bv4) & UP == 0 && (0 as bv4) & DOWN == 0;
    assert RIGHT & RIGHT != 0 && RIGHT & LEFT == 0 && RIGHT & UP == 0 && RIGHT & DOWN == 0;
  }

  /** A step's push to the right, or none, takes it this far. */
  lemma Drifts(m: Maths, cfg: Config, push: real, s: DotState, keys: Keys)
    requires m.Valid() && Still(s) && cfg.rules == RulesOf(push) && (keys == 0 || keys == RIGHT)
    ensures var v := if keys == RIGHT then push / 60.0 else 0.0;
      Drifted(m, cfg, s, keys) == s.(motion := Motion(v / 60.0, 0.0, v, 0.0, 0.0))
  {
    hide Accelerated, Wobbled, Damp, Moved;
    PushedRight(m, cfg, push, s, keys);
    NoDamping(m, cfg, push, s);
    var pushed := Accelerated(m, cfg, s, keys);
    NoWobble(m, s, pushed);
    MovedBy(pushed);
  }

  lemma PushedRight(m: Maths, cfg: Config, push: real, s: DotState, keys: Keys)
    requires Still(s) && cfg.rules == RulesOf(push) && (keys == 0 || keys == RIGHT)
    ensures Accelerated(m, cfg, s, keys) == Motion(0.0, 0.0, if keys == RIGHT then push / 60.0 else 0.0, 0.0, 0.0)
  {
    hide Gravity, Push, Reeling;
    NoGravity(m, cfg, push, s);
    PushRight(m, cfg, push, s, keys);
  }

  lemma NoWobble(m: Maths, s: DotState, mo: Motion)
    requires Still(s) && mo.wobbleClock == 0.0
    ensures Wobbled(m, mo, Fade(s.debuffs, "wobble"), Calm(s.guard), Around(m, s.draws.wobble)) == mo
  {
    hide Around, FadeOf;
  }

  lemma NoDamping(m: Maths, cfg: Config, push: real, s: DotState)
    requires m.Valid() && Still(s) && cfg.rules == RulesOf(push)
    ensures Damp(m, cfg, s.guard) == 1.0
  {
  }

  lemma MovedBy(mo: Motion)
    ensures Moved(mo, 1.0) == mo.(x := mo.x + mo.vx / 60.0, y := mo.y + mo.vy / 60.0)
  {
  }

  lemma LengthAlong(m: Maths, x: real)
    requires m.Valid() && 0.0 <= x
    ensures Length(m, x, 0.0) == x
  {
    LengthBelow(m, x, 0.0, x);
  }

  /** Not steered, it stays as it is. */
  lemma StaysStill(m: Maths, cfg: Config, push: real, s: DotState)
    requires m.Valid() && Still(s) && cfg.rules == RulesOf(push)
    ensures Physics(m, cfg, s, 0) == Out(s, [])
  {
    hide Drifted, Length, Bounced, IntoStagger, Fade;
    Drifts(m, cfg, push, s, 0);
    LengthAlong(m, 0.0);
  }
}
