/** The dot keeps to its disc: never more than 1 from the centre after a step, and
    short of the rim unless it is staggered. */
module Disc {
  import opened Reals
  import opened Balance
  import opened Runs
  import opened Staggers

  function Square(x: real): real { x * x }

  /** Distance from the centre, squared. */
  function Norm2(x: real, y: real): real { Square(x) + Square(y) }

  // Distances -----------------------------------------------------------------------------

  lemma SquarePositive(b: real)
    requires 0.0 < b
    ensures 0.0 < Square(b)
  {
    ProductPos(b, b, Square(b));
  }

  lemma SquareGrows(a: real, b: real)
    requires 0.0 <= a < b
    ensures Square(a) < Square(b)
  {
    SquarePositive(b);
    if a == 0.0 {
      SquareZero(a);
    } else {
      Scale(a, b, b);
      Scale(a, b, a);
      assert a * b == b * a;
    }
  }

  lemma SquareZero(a: real)
    requires a == 0.0
    ensures Square(a) == 0.0
  {
  }

  lemma SquareOrder(a: real, b: real)
    requires 0.0 <= a && 0.0 <= b
    ensures a < b <==> Square(a) < Square(b)
    ensures a == b <==> Square(a) == Square(b)
  {
    hide Square;
    if a < b { SquareGrows(a, b); }
    if b < a { SquareGrows(b, a); }
  }

  lemma SquareNonNegative(a: real)
    ensures 0.0 <= Square(a)
  {
    if a > 0.0 { MulPos(a, a); }
    if a < 0.0 { MulPos(-a, -a); }
  }

  /** The distance is what its square says. */
  lemma LengthIs(m: Maths, x: real, y: real)
    requires m.Valid()
    ensures 0.0 <= Length(m, x, y) && Square(Length(m, x, y)) == Norm2(x, y)
  {
    SquareNonNegative(x);
    SquareNonNegative(y);
  }

  lemma LengthBelow(m: Maths, x: real, y: real, r: real)
    requires m.Valid() && 0.0 <= r
    ensures Length(m, x, y) < r <==> Norm2(x, y) < Square(r)
    ensures Length(m, x, y) == r <==> Norm2(x, y) == Square(r)
  {
    LengthIs(m, x, y);
    SquareOrder(Length(m, x, y), r);
  }

  /** The point at an angle is on the rim. */
  lemma OnRim(m: Maths, angle: real)
    requires m.Valid()
    ensures Norm2(m.cos(angle), m.sin(angle)) == 1.0
  {
  }

  // The bounce ----------------------------------------------------------------------------

  /** Where a dot meets the rim is a direction of length 1. */
  lemma RimPoint(x: real, y: real, d: real)
    requires 0.0 < d && Square(d) == Norm2(x, y)
    ensures Norm2(x / d, y / d) == 1.0
  {
    Share(x, 0.0, d);
    Share(y, 0.0, d);
    ScaleNorm(x / d, y / d, d);
    SquareGrows(0.0, d);
    Scale(Norm2(x / d, y / d), 1.0, Square(d));
  }

  lemma ScaleNorm(x: real, y: real, k: real)
    ensures Norm2(x * k, y * k) == Norm2(x, y) * Square(k)
  {
    FactorSquare(x, k);
    FactorSquare(y, k);
  }

  lemma FactorSquare(n: real, d: real)
    ensures Square(n * d) == Square(n) * Square(d)
  {
  }

  /** A bounce keeps the speed and turns an outward one inward, as much; it leaves
      an inward one alone, and puts the dot just short of the rim. */
  lemma BounceReflects(mo: Motion, nx: real, ny: real)
    requires Norm2(nx, ny) == 1.0
    ensures var b := Bounced(mo, nx, ny);
      && Norm2(b.vx, b.vy) == Norm2(mo.vx, mo.vy)
      && (Outward(mo, nx, ny) > 0.0 ==> Outward(b, nx, ny) == -Outward(mo, nx, ny))
      && (Outward(mo, nx, ny) <= 0.0 ==> b.vx == mo.vx && b.vy == mo.vy)
      && Norm2(b.x, b.y) == Square(0.999)
  {
    var twice := 2.0 * Outward(mo, nx, ny);
    ReflectKeepsSpeed(mo.vx, mo.vy, twice, nx, ny);
    ReflectTurns(mo.vx, mo.vy, twice, nx, ny);
    NearRim(nx, ny);
  }

  lemma NearRim(nx: real, ny: real)
    requires Norm2(nx, ny) == 1.0
    ensures Norm2(nx * 0.999, ny * 0.999) == Square(0.999)
  {
    ScaleNorm(nx, ny, 0.999);
  }

  lemma ReflectTurns(vx: real, vy: real, k: real, nx: real, ny: real)
    requires Norm2(nx, ny) == 1.0 && k == 2.0 * (vx * nx + vy * ny)
    ensures (vx - k * nx) * nx + (vy - k * ny) * ny == -(vx * nx + vy * ny)
  {
    Regroup(vx, k, nx);
    Regroup(vy, k, ny);
    Sum2(k, Square(nx), Square(ny));
  }

  lemma Regroup(v: real, k: real, n: real)
    ensures (v - k * n) * n == v * n - k * Square(n)
  {
  }

  lemma ReflectKeepsSpeed(vx: real, vy: real, k: real, nx: real, ny: real)
    requires Norm2(nx, ny) == 1.0 && k == 2.0 * (vx * nx + vy * ny)
    ensures Norm2(vx - k * nx, vy - k * ny) == Norm2(vx, vy)
  {
    Expand(vx, k, nx);
    Expand(vy, k, ny);
    Sum2(k, vx * nx, vy * ny);
    Sum2(Square(k), Square(nx), Square(ny));
    HalfTwice(k, vx * nx + vy * ny);
  }

  lemma HalfTwice(k: real, a: real)
    requires k == 2.0 * a
    ensures 2.0 * (k * a) == Square(k)
  {
  }

  lemma Expand(v: real, k: real, n: real)
    ensures Square(v - k * n) == Square(v) - 2.0 * (k * (v * n)) + Square(k) * Square(n)
  {
  }

  // Easing --------------------------------------------------------------------------------

  /** Easing part of the way from inside the disc to a point inside it stays inside:
      the squared distance is at most the mean of the two, weighted. */
  lemma EaseStaysIn(x: real, y: real, sx: real, sy: real, e: real)
    requires 0.0 < e < 1.0
    requires Norm2(x, y) <= 1.0 && Norm2(sx, sy) < 1.0
    ensures Norm2(EaseToward(x, sx, e), EaseToward(y, sy, e)) < 1.0
  {
    hide Square, Times, EaseToward;
    Convex(x, sx, e);
    Convex(y, sy, e);
    Sum2(1.0 - e, Square(x), Square(y));
    Sum2(e, Square(sx), Square(sy));
    TimesBelow(1.0 - e, Norm2(x, y));
    TimesBelow(e, Norm2(sx, sy));
  }

  lemma Sum2(k: real, a: real, b: real)
    ensures Times(k, a) + Times(k, b) == Times(k, a + b)
  {
  }

  lemma Convex(a: real, b: real, e: real)
    requires 0.0 < e < 1.0
    ensures Square(EaseToward(a, b, e)) <= Times(1.0 - e, Square(a)) + Times(e, Square(b))
  {
    ConvexGap(a, b, e);
    SquareNonNegative(a - b);
    MulPos(e, 1.0 - e);
    if Square(a - b) > 0.0 { MulPos(e * (1.0 - e), Square(a - b)); }
  }

  lemma ConvexGap(a: real, b: real, e: real)
    ensures (1.0 - e) * Square(a) + e * Square(b) - Square(EaseToward(a, b, e)) == e * (1.0 - e) * Square(a - b)
  {
    hide Square;
    var d := b - a;
    var p := d * e;
    SquareOfSum(a, p);
    SquareOfSum(a, d);
    FactorSquare(d, e);
    SquareOfMinus(d);
    assert EaseToward(a, b, e) == a + p && a + d == b && a - b == -d;
    ThreeTerms(a, d, e);
  }

  lemma SquareOfSum(a: real, b: real)
    ensures Square(a + b) == Square(a) + 2.0 * (a * b) + Square(b)
  {
  }

  lemma SquareOfMinus(a: real)
    ensures Square(-a) == Square(a)
  {
  }

  lemma ThreeTerms(a: real, d: real, e: real)
    ensures (1.0 - e) * Square(a)
      + e * (Square(a) + 2.0 * (a * d) + Square(d)) - (Square(a) + 2.0 * (a * (d * e)) + Square(d) * Square(e))
      == e * (1.0 - e) * Square(d)
  {
  }

  // A step --------------------------------------------------------------------------------

  /** The dot is in the disc, and while staggered eases to a point well inside it. */
  ghost predicate InDisc(m: Maths, s: DotState) {
    && Dist(m, s.motion) <= 1.0
    && (s.footing.stagger > 0 ==> Norm2(s.footing.sx, s.footing.sy) == Square(0.35))
  }

  lemma RimStaggerIn(m: Maths, cfg: Config, s: DotState, angle: real)
    requires m.Valid()
    ensures InDisc(m, IntoStagger(m, cfg, s, angle))
    ensures Dist(m, IntoStagger(m, cfg, s, angle).motion) == 1.0
  {
    OnRim(m, angle);
    LengthBelow(m, m.cos(angle), m.sin(angle), 1.0);
    BackAt(m, s.draws.spare, angle);
  }

  lemma BackAt(m: Maths, u: Unit, angle: real)
    requires m.Valid()
    ensures Norm2(Back(m, u, angle).x, Back(m, u, angle).y) == Square(0.35)
  {
    var a := angle + (u * 2.0 - 1.0) * 0.8;
    OnRim(m, a);
    ScaleNorm(m.cos(a), m.sin(a), 0.35);
  }

  /** A blow leaves the dot where it is, or on the rim staggered. */
  lemma BlowStaysIn(m: Maths, cfg: Config, s: DotState, blow: Blow)
    requires m.Valid() && InDisc(m, s)
    ensures InDisc(m, Blown1(m, cfg, s, blow).s)
  {
    hide IntoStagger, WithDebuffIf, KnockOf;
    var s1 := s.(motion := Pushed(s.motion, Toward(m, blow.kick, blow.angle)), feats := Knocked(s.feats, blow.kick),
                 debuffs := WithDebuffIf(cfg, s.debuffs, blow.debuff));
    RimStaggerIn(m, cfg, s1, blow.angle);
  }

  lemma {:induction false} BlowsStayIn(m: Maths, cfg: Config, s: DotState, blows: seq<Blow>)
    requires m.Valid() && InDisc(m, s)
    ensures InDisc(m, BlownAll(m, cfg, s, blows).s)
    decreases |blows|
  {
    hide Blown1, InDisc;
    if blows != [] {
      BlowStaysIn(m, cfg, s, blows[0]);
      BlowsStayIn(m, cfg, Blown1(m, cfg, s, blows[0]).s, blows[1..]);
    }
  }

  /** Where a free dot ends up, however far it would have gone: inside the rim, or
      on it with a rim stagger. */
  lemma RimKeepsIn(m: Maths, cfg: Config, s: DotState)
    requires m.Valid() && s.footing.stagger <= 0
    ensures var o := AtRim(m, cfg, s);
      InDisc(m, o.s)
      && if Staggered(ByRim) in o.events then Dist(m, o.s.motion) == 1.0 && o.s.footing.stagger == Lasts(cfg)
         else Dist(m, o.s.motion) < 1.0 && o.s.footing.stagger <= 0
  {
    hide IntoStagger, Bounced;
    var d := Dist(m, s.motion);
    if d >= 1.0 {
      var nx, ny := s.motion.x / d, s.motion.y / d;
      LengthIs(m, s.motion.x, s.motion.y);
      RimPoint(s.motion.x, s.motion.y, d);
      BounceReflects(s.motion, nx, ny);
      var b := Bounced(s.motion, nx, ny);
      LengthBelow(m, b.x, b.y, 1.0);
      RimStaggerIn(m, cfg, s, m.atan2(ny, nx));
      StaggerLasts(m, cfg, s, m.atan2(ny, nx));
      NotQuiteOne();
    }
  }

  lemma NotQuiteOne()
    ensures Square(0.999) < Square(1.0)
  {
  }

  lemma StaggerLasts(m: Maths, cfg: Config, s: DotState, angle: real)
    ensures IntoStagger(m, cfg, s, angle).footing.stagger == Lasts(cfg)
  {
  }

  lemma EasedStaysIn(m: Maths, s: DotState)
    requires m.Valid() && InDisc(m, s) && s.footing.stagger > 0
    ensures InDisc(m, Eased(m, s)) && Dist(m, Eased(m, s).motion) < 1.0
  {
    assert m.exp(-3.0 / 60.0) < 1.0 && 0.0 < m.exp(-3.0 / 60.0);
    LengthIs(m, s.motion.x, s.motion.y);
    LengthBelow(m, s.motion.x, s.motion.y, 1.0);
    WellInside();
    EaseStaysIn(s.motion.x, s.motion.y, s.footing.sx, s.footing.sy, Ease(m));
    var t := Eased(m, s).motion;
    LengthBelow(m, t.x, t.y, 1.0);
  }

  lemma WellInside()
    ensures Square(0.35) < 1.0 && Square(1.0) == 1.0
  {
  }

  lemma SettledKeeps(m: Maths, cfg: Config, s: DotState)
    ensures var o := Settled(m, cfg, s); o.s.motion == s.motion && o.s.footing == s.footing
    ensures Staggered(ByRim) !in Settled(m, cfg, s).events
  {
  }

  lemma DriftedFooting(m: Maths, cfg: Config, s: DotState, keys: Keys)
    ensures Drifted(m, cfg, s, keys).footing == s.footing
  {
    hide Accelerated, Wobbled, Moved, Damp;
  }

  /** What a step leaves: in the disc; on the rim exactly when the rim staggered it
      this step, and then staggered if a stagger lasts at all. */
  lemma PhysicsKeepsIn(m: Maths, cfg: Config, s: DotState, keys: Keys)
    requires m.Valid() && InDisc(m, s)
    ensures var o := Physics(m, cfg, s, keys);
      InDisc(m, o.s)
      && (Dist(m, o.s.motion) == 1.0 <==> Staggered(ByRim) in o.events)
      && (Staggered(ByRim) in o.events ==> o.s.footing.stagger == Lasts(cfg))
  {
    hide AtRim, Drifted, Settled, Eased, InDisc;
    if s.footing.stagger > 0 {
      EasedStaysIn(m, s);
    } else {
      var t := Drifted(m, cfg, s, keys);
      DriftedFooting(m, cfg, s, keys);
      RimKeepsIn(m, cfg, t);
      var o := AtRim(m, cfg, t);
      SettledKeeps(m, cfg, o.s);
      SettledInDisc(m, cfg, o.s);
    }
  }

  lemma SettledInDisc(m: Maths, cfg: Config, s: DotState)
    ensures InDisc(m, s) ==> InDisc(m, Settled(m, cfg, s).s)
  {
  }

  // Steps before the movement leave the dot where it was.
  lemma InPlaceTillBlows(m: Maths, cfg: Config, s: DotState, i: Input)
    ensures var b := AtBlows(m, cfg, s, i);
      b.motion.x == s.motion.x && b.motion.y == s.motion.y && b.footing.sx == s.footing.sx
        && b.footing.sy == s.footing.sy
      && (b.footing.stagger > 0 ==> s.footing.stagger > 0)
  {
    hide Opening, Closing, Buffered, Volleys, DoActs, Step, StepOn;
    OpeningInPlace(m, cfg, s);
    ActsFrame(cfg, AtActs(m, cfg, s), i.acts);
    BufferedInPlace(m, cfg, AtStrike(m, cfg, s, i));
    BufferedFrame(m, cfg, AtStrike(m, cfg, s, i));
    VolleysInPlace(m, cfg, AtVolleys(m, cfg, s, i));
    StepFrame(m, cfg, s, i);
  }

  lemma OpeningInPlace(m: Maths, cfg: Config, s: DotState)
    ensures var t := Opening(m, cfg, s).s;
      t.motion == s.motion && t.footing.sx == s.footing.sx && t.footing.sy == s.footing.sy
      && (t.footing.stagger > 0 ==> s.footing.stagger > 0)
  {
  }

  lemma BufferedInPlace(m: Maths, cfg: Config, s: DotState)
    ensures var t := Buffered(m, cfg, s).s.motion; t.x == s.motion.x && t.y == s.motion.y
  {
  }

  lemma {:induction false} KicksInPlace(m: Maths, cfg: Config, s: DotState, volleys: seq<Volley>)
    ensures var t := VolleyKicks(m, cfg, s, volleys).motion; t.x == s.motion.x && t.y == s.motion.y
    decreases |volleys|
  {
    if volleys != [] { KicksInPlace(m, cfg, VolleyKick(m, cfg, s, volleys[0]), volleys[1..]); }
  }

  lemma VolleysInPlace(m: Maths, cfg: Config, s: DotState)
    ensures var t := Volleys(m, cfg, s).s.motion; t.x == s.motion.x && t.y == s.motion.y
  {
    KicksInPlace(m, cfg, s, s.volleys);
  }

  lemma InDiscMoved(m: Maths, s: DotState, t: DotState)
    requires InDisc(m, s)
    requires t.motion.x == s.motion.x && t.motion.y == s.motion.y && t.footing.sx == s.footing.sx
      && t.footing.sy == s.footing.sy
    requires t.footing.stagger > 0 ==> s.footing.stagger > 0
    ensures InDisc(m, t)
  {
  }

  /** One step of any input keeps the dot in its disc: short of the rim, except
      that a stagger at the rim puts it on it. */
  lemma StepKeepsIn(m: Maths, cfg: Config, s: DotState, i: Input)
    requires m.Valid() && InDisc(m, s)
    ensures var o := StepOn(m, cfg, s, i);
      InDisc(m, o.s)
      && (Dist(m, o.s.motion) == 1.0 ==> o.s.footing.stagger == Lasts(cfg) && Staggered(ByRim) in o.events)
  {
    hide Opening, Closing, Buffered, Volleys, DoActs, Step, StepOn, AtBlows, InDisc;
    var b := AtBlows(m, cfg, s, i);
    InPlaceTillBlows(m, cfg, s, i);
    InDiscMoved(m, s, b);
    ClosingKeepsIn(m, cfg, b, i.keys, i.blows);
    StepEvents(m, cfg, s, i);
  }

  lemma ClosingKeepsIn(m: Maths, cfg: Config, s: DotState, keys: Keys, blows: seq<Blow>)
    requires m.Valid() && InDisc(m, s)
    ensures var o := Closing(m, cfg, s, keys, blows);
      InDisc(m, o.s)
      && (Dist(m, o.s.motion) == 1.0 ==> o.s.footing.stagger == Lasts(cfg) && Staggered(ByRim) in o.events)
  {
    hide Physics, BlownAll, InDisc;
    BlowsStayIn(m, cfg, s, blows);
    PhysicsKeepsIn(m, cfg, BlownAll(m, cfg, s, blows).s, keys);
  }

  lemma StartAtCentre(m: Maths, cfg: Config, seed: int)
    ensures Start(m, cfg, seed).motion == Motion(0.0, 0.0, 0.0, 0.0, 0.0) && Start(m, cfg, seed).footing.stagger == 0
  {
    hide Advance;
  }

  lemma StartInDisc(m: Maths, cfg: Config, seed: int)
    requires m.Valid()
    ensures InDisc(m, Start(m, cfg, seed))
  {
    hide Start, Length, Norm2, Square;
    StartAtCentre(m, cfg, seed);
    CentreInside(m);
  }

  lemma CentreInside(m: Maths)
    requires m.Valid()
    ensures Length(m, 0.0, 0.0) <= 1.0
  {
    LengthBelow(m, 0.0, 0.0, 1.0);
  }

  /** The disc invariant: in every run from the start of an encounter, whatever the
      inputs, the dot is in its disc after every step, and where a stagger lasts at
      least a step it is short of the rim whenever it isn't staggered. */
  lemma {:induction false} DiscInvariant(m: Maths, cfg: Config, seed: int, run: seq<Input>, k: nat)
    requires m.Valid() && k <= |run|
    ensures var s := StateAt(m, cfg, Start(m, cfg, seed), run, k);
      InDisc(m, s)
      && (k > 0 && Lasts(cfg) >= 1 ==> Dist(m, s.motion) < 1.0 || s.footing.stagger > 0)
  {
    hide StepOn, Start;
    if k == 0 {
      StartInDisc(m, cfg, seed);
    } else {
      DiscInvariant(m, cfg, seed, run, k - 1);
      StepKeepsIn(m, cfg, StateAt(m, cfg, Start(m, cfg, seed), run, k - 1), run[k - 1]);
    }
  }
}
