/** When a dot can be on the rim without being staggered. */
module Rim {
  import opened Basics
  import opened Reals
  import opened Balance
  import opened Runs
  import opened Staggers
  import opened Disc
  import opened Rest

  /** The dot is short of the rim, or staggered. */
  ghost predicate OffRim(m: Maths, s: DotState) {
    Dist(m, s.motion) < 1.0 || s.footing.stagger > 0
  }

  lemma ActsNotRim(cfg: Config, s: DotState, acts: seq<Act>)
    ensures Staggered(ByRim) !in DoActs(cfg, s, acts).events
  {
    ActsFrame(cfg, s, acts);
  }

  lemma BlowNotRim(m: Maths, cfg: Config, s: DotState, blow: Blow)
    ensures Staggered(ByRim) !in Blown1(m, cfg, s, blow).events
  {
    hide Met, WouldStagger, IntoStagger, WithDebuffIf, Pushed;
  }

  lemma {:induction false} BlowsNotRim(m: Maths, cfg: Config, s: DotState, blows: seq<Blow>)
    ensures Staggered(ByRim) !in BlownAll(m, cfg, s, blows).events
    decreases |blows|
  {
    hide Blown1;
    if blows != [] {
      BlowNotRim(m, cfg, s, blows[0]);
      BlowsNotRim(m, cfg, Blown1(m, cfg, s, blows[0]).s, blows[1..]);
    }
  }

  lemma {:induction false} VolleysNotRim(cfg: Config, volleys: seq<Volley>)
    ensures Staggered(ByRim) !in VolleysHit(cfg, volleys)
    decreases |volleys|
  {
    if volleys != [] { VolleysNotRim(cfg, volleys[1..]); }
  }

  lemma BufferedNotRim(m: Maths, cfg: Config, s: DotState)
    ensures Staggered(ByRim) !in Buffered(m, cfg, s).events
  {
    hide StrikeCheck, Tier, KnockOf, CoolAfter;
  }

  lemma OpeningNotRim(m: Maths, cfg: Config, s: DotState)
    ensures Staggered(ByRim) !in Opening(m, cfg, s).events
  {
    hide Drawn, Well;
  }

  /** A dot as it comes to its movement: free to move, and moving past the rim with
      neither wobble nor immunity to bounce it nor Steady Hands to catch it. */
  ghost predicate RimStaggers(m: Maths, cfg: Config, t: DotState, keys: Keys) {
    && t.footing.stagger <= 0 && Dist(m, Drifted(m, cfg, t, keys).motion) >= 1.0
    && Fade(t.debuffs, "wobble") <= 0.15 && t.footing.immune <= 0 && !HandsSteady(cfg, t.feats)
  }

  lemma DriftedOnlyMoves(m: Maths, cfg: Config, t: DotState, keys: Keys)
    ensures Drifted(m, cfg, t, keys) == t.(motion := Drifted(m, cfg, t, keys).motion)
  {
    hide Accelerated, Wobbled, Moved, Damp;
  }

  lemma PhysicsRim(m: Maths, cfg: Config, t: DotState, keys: Keys)
    ensures Staggered(ByRim) in Physics(m, cfg, t, keys).events <==> RimStaggers(m, cfg, t, keys)
  {
    hide Drifted, Dist, IntoStagger, Bounced, Fade, HandsSteady, InCore;
    DriftedOnlyMoves(m, cfg, t, keys);
  }

  /** In every step from within the disc, the dot ends short of the rim or
      staggered exactly when the rim is not about to stagger it as it comes to
      its movement, or staggers last a step. */
  lemma OffRimExactlyWhen(m: Maths, cfg: Config, s: DotState, i: Input)
    requires m.Valid() && InDisc(m, s)
    ensures var t := BlownAll(m, cfg, AtBlows(m, cfg, s, i), i.blows).s;
      OffRim(m, StepOn(m, cfg, s, i).s) <==> !RimStaggers(m, cfg, t, i.keys) || Lasts(cfg) >= 1
  {
    hide Opening, Buffered, Volleys, DoActs, BlownAll, Physics, InDisc, VolleysHit, Step, StepOn, AtBlows, Closing,
      Dist, RimStaggers;
    var b := AtBlows(m, cfg, s, i);
    InPlaceTillBlows(m, cfg, s, i);
    InDiscMoved(m, s, b);
    BlowsStayIn(m, cfg, b, i.blows);
    var t := BlownAll(m, cfg, b, i.blows).s;
    PhysicsKeepsIn(m, cfg, t, i.keys);
    PhysicsRim(m, cfg, t, i.keys);
    NotRimTillMoved(m, cfg, s, i);
    AtMostOne(m, Physics(m, cfg, t, i.keys).s);
  }

  lemma AtMostOne(m: Maths, s: DotState)
    requires InDisc(m, s)
    ensures Dist(m, s.motion) <= 1.0
  {
    hide Dist;
  }

  /** A step's rim stagger is its movement's, and its movement's state its own. */
  lemma NotRimTillMoved(m: Maths, cfg: Config, s: DotState, i: Input)
    ensures var o := StepOn(m, cfg, s, i);
      var p := Physics(m, cfg, BlownAll(m, cfg, AtBlows(m, cfg, s, i), i.blows).s, i.keys);
      o.s == p.s && (Staggered(ByRim) in o.events <==> Staggered(ByRim) in p.events)
  {
    hide Opening, Buffered, DoActs, BlownAll, Physics, VolleysHit, Step, StepOn, VolleyKicks, VolleysNext;
    StepEvents(m, cfg, s, i);
    OpeningNotRim(m, cfg, s);
    ActsNotRim(cfg, AtActs(m, cfg, s), i.acts);
    BufferedNotRim(m, cfg, AtStrike(m, cfg, s, i));
    VolleysNotRim(cfg, AtVolleys(m, cfg, s, i).volleys);
    BlowsNotRim(m, cfg, AtBlows(m, cfg, s, i), i.blows);
  }

  // Onto the rim in the first step ---------------------------------------------------------------

  /** A blow of half the force that staggers, along the direction of angle 0. */
  function Nudge(cfg: Config): Blow { Blow(cfg.rules.staggerKick / 2.0, 0.0, NoDefence, false, None, false) }

  function Nudges(cfg: Config, n: nat): seq<Blow> {
    if n == 0 then [] else [Nudge(cfg)] + Nudges(cfg, n - 1)
  }

  /** At the centre and still, with nothing to keep the rim from staggering it. */
  ghost predicate Exposed(cfg: Config, s: DotState) {
    && s.motion == Motion(0.0, 0.0, 0.0, 0.0, 0.0) && s.footing.stagger == 0 && s.footing.immune == 0
    && s.guard == Guard(0, 0, false, false, 0) && "wobble" !in s.debuffs && !HandsSteady(cfg, s.feats)
  }

  /** A position pushed out by d/60 for each unit of a velocity of at least 60/d along (c, s) is past the rim. */
  lemma FarEnough(c: real, s: real, along: real, x: real, y: real)
    requires c * c + s * s == 1.0 && along == x * c + y * s && along <= -1.0
    ensures Norm2(x, y) >= 1.0
  {
    var u, v := x - along * c, y - along * s;
    Nearer(c, s, along, x, y, u, v);
    SquareNonNegative(u);
    SquareNonNegative(v);
    SquareAtLeastOne(-along);
  }

  lemma SquareAtLeastOne(a: real)
    requires a >= 1.0
    ensures Square(a) >= 1.0
  {
    if a > 1.0 { SquareGrows(1.0, a); }
  }

  lemma Nearer(c: real, s: real, k: real, x: real, y: real, u: real, v: real)
    requires c * c + s * s == 1.0 && k == x * c + y * s && u == x - k * c && v == y - k * s
    ensures Norm2(x, y) == Norm2(u, v) + Square(-k)
  {
    SquareOfGap(x, k, c);
    SquareOfGap(y, k, s);
    var a, b := x * c, y * s;
    assert k * a + k * b == k * k by { assert k * a + k * b == k * (a + b); }
    var kk, cc, ss := k * k, c * c, s * s;
    assert kk * cc + kk * ss == kk by { assert kk * cc + kk * ss == kk * (cc + ss); }
  }

  lemma SquareOfGap(x: real, k: real, c: real)
    ensures Square(x - k * c) == Square(x) - 2.0 * (k * (x * c)) + (k * k) * (c * c)
  {
    var p := k * c;
    assert Square(x - p) == x * x - 2.0 * (x * p) + p * p;
    assert x * p == k * (x * c);
    assert p * p == (k * k) * (c * c);
  }

  /** What gravity and the held keys add to the dot's velocity in a step. */
  function Pulled(m: Maths, cfg: Config, s: DotState, keys: Keys): Pair {
    OneStep(Gravity(m, cfg, s.motion, s.orbit, Reeling(s.debuffs), Calm(s.guard)),
            Push(m, cfg, s.guard, s.debuffs, keys))
  }

  /** The dot knocked to a velocity: where it is stays as it was. */
  function Going(s: DotState, v: Pair): DotState {
    s.(motion := s.motion.(vx := v.x, vy := v.y), feats := s.feats.(knocked := true))
  }

  lemma PulledAlike(m: Maths, cfg: Config, s: DotState, v: Pair, keys: Keys)
    ensures Pulled(m, cfg, Going(s, v), keys) == Pulled(m, cfg, s, keys)
  {
    hide Length, PullAt, Push, Reeling;
  }

  lemma GoingDrifts(m: Maths, cfg: Config, s: DotState, v: Pair, keys: Keys, d: real)
    requires Exposed(cfg, s) && d == Damp(m, cfg, s.guard)
    ensures var a := Pulled(m, cfg, s, keys); var mo := Drifted(m, cfg, Going(s, v), keys).motion;
      mo.x == (v.x + a.x) * d / 60.0 && mo.y == (v.y + a.y) * d / 60.0
  {
    hide Pulled, Damp, Around, FadeOf, Gravity, Push, Reeling;
    PulledAlike(m, cfg, s, v, keys);
    GoingSpeeds(m, cfg, Going(s, v), keys);
  }

  lemma GoingSpeeds(m: Maths, cfg: Config, s: DotState, keys: Keys)
    ensures var a := Pulled(m, cfg, s, keys);
      Accelerated(m, cfg, s, keys) == s.motion.(vx := s.motion.vx + a.x, vy := s.motion.vy + a.y)
  {
    hide Gravity, Push, Reeling;
  }

  /** A blow too weak to stagger only knocks a dot that neither blocks nor dodges. */
  lemma Knocks(m: Maths, cfg: Config, s: DotState, kick: real)
    requires s.footing.stagger == 0 && s.guard == Guard(0, 0, false, false, 0) && 0.0 < kick < cfg.rules.staggerKick
    ensures var h := Toward(m, kick, 0.0);
      Blown1(m, cfg, s, Blow(kick, 0.0, NoDefence, false, None, false)).s
        == Going(s, Pair(s.motion.vx + h.x, s.motion.vy + h.y))
  {
  }

  lemma OneNudge(m: Maths, cfg: Config, s: DotState, v: Pair)
    requires Exposed(cfg, s) && 0.0 < cfg.rules.staggerKick
    ensures var h := Toward(m, cfg.rules.staggerKick / 2.0, 0.0); var t := Going(s, Pair(v.x + h.x, v.y + h.y));
      Blown1(m, cfg, Going(s, v), Nudge(cfg)).s == t && Blown1(m, cfg, s, Nudge(cfg)).s == Going(s, h)
  {
    hide Blown1, Toward, HandsSteady;
    Knocks(m, cfg, s, cfg.rules.staggerKick / 2.0);
    Knocks(m, cfg, Going(s, v), cfg.rules.staggerKick / 2.0);
  }

  /** A speed after n nudges more. */
  function Faster(speed: real, h: real, n: nat): real
    decreases n
  {
    if n == 0 then speed else Faster(speed + h, h, n - 1)
  }

  lemma {:induction false} FasterIs(speed: real, h: real, n: nat)
    ensures Faster(speed, h, n) == speed + n as real * h
    decreases n
  {
    if n > 0 {
      FasterIs(speed + h, h, n - 1);
      assert n as real * h == (n - 1) as real * h + h;
    }
  }

  lemma {:induction false} ManyNudges(m: Maths, cfg: Config, s: DotState, speed: real, n: nat)
    requires Exposed(cfg, s) && 0.0 < cfg.rules.staggerKick
    ensures BlownAll(m, cfg, Going(s, Toward(m, speed, 0.0)), Nudges(cfg, n)).s
      == Going(s, Toward(m, Faster(speed, cfg.rules.staggerKick / 2.0, n), 0.0))
    decreases n
  {
    hide Blown1, Exposed, Toward, Going;
    var t := Going(s, Toward(m, speed, 0.0));
    if n == 0 {
      assert BlownAll(m, cfg, t, Nudges(cfg, 0)).s == t by { BlownOneByOne(m, cfg, t, Nudge(cfg), []); }
    } else {
      var h := cfg.rules.staggerKick / 2.0;
      OneNudge(m, cfg, s, Toward(m, speed, 0.0));
      MoreAlong(m, speed, h);
      BlownOneByOne(m, cfg, t, Nudge(cfg), Nudges(cfg, n - 1));
      ManyNudges(m, cfg, s, speed + h, n - 1);
    }
  }

  lemma MoreAlong(m: Maths, speed: real, h: real)
    ensures var v, w := Toward(m, speed, 0.0), Toward(m, h, 0.0);
      Toward(m, speed + h, 0.0) == Pair(v.x + w.x, v.y + w.y)
  {
    assert (speed + h) * m.cos(0.0) == speed * m.cos(0.0) + h * m.cos(0.0);
    assert (speed + h) * m.sin(0.0) == speed * m.sin(0.0) + h * m.sin(0.0);
  }

  lemma NudgedFromRest(m: Maths, cfg: Config, s: DotState, n: nat)
    requires Exposed(cfg, s) && 0.0 < cfg.rules.staggerKick
    ensures BlownAll(m, cfg, s, Nudges(cfg, n + 1)).s
      == Going(s, Toward(m, Faster(0.0, cfg.rules.staggerKick / 2.0, n + 1), 0.0))
  {
    hide Blown1, Exposed, BlownAll, Toward, Going;
    OneNudge(m, cfg, s, Pair(0.0, 0.0));
    BlownOneByOne(m, cfg, s, Nudge(cfg), Nudges(cfg, n));
    ManyNudges(m, cfg, s, cfg.rules.staggerKick / 2.0, n);
  }

  /** How fast it must go: past the pull and the damping. */
  ghost function FarOf(m: Maths, cfg: Config, s: DotState, keys: Keys): real {
    var a, d := Pulled(m, cfg, s, keys), Damp(m, cfg, s.guard);
    var q := -(a.x * m.cos(0.0) + a.y * m.sin(0.0));
    if d > 0.0 then (if q < 0.0 then 0.0 else q) + 60.0 / d else 0.0
  }

  /** How many nudges come to that: one more than this. */
  ghost function NudgesFor(m: Maths, cfg: Config, s: DotState, keys: Keys): nat
    requires m.Valid() && 0.0 < cfg.rules.staggerKick
  {
    DampPositive(m, cfg, s.guard);
    Share(60.0, 60.0, Damp(m, cfg, s.guard));
    var r := FarOf(m, cfg, s, keys) / (cfg.rules.staggerKick / 2.0);
    if r.Floor < 0 then 0 else r.Floor
  }

  lemma EnoughNudges(far: real, h: real, n: nat)
    requires 0.0 < h && (far / h).Floor <= n
    ensures (n + 1) as real * h >= far
  {
    Share(far, far, h);
    var r, w := far / h, (n + 1) as real;
    assert r < w;
    Scale(r, w, h);
  }

  lemma PastRim(c: real, s: real, ax: real, ay: real, far: real, d: real, x: real, y: real)
    requires c * c + s * s == 1.0 && 0.0 < d && far >= ax * c + ay * s + 60.0 / d
    requires x == (-far * c + ax) * d / 60.0 && y == (-far * s + ay) * d / 60.0
    ensures Norm2(x, y) >= 1.0
  {
    var q := ax * c + ay * s;
    var u, v := -far * c + ax, -far * s + ay;
    assert u * c + v * s == q - far by { AlongIs(c, s, ax, ay, far); }
    var along := x * c + y * s;
    assert along == (u * c + v * s) * d / 60.0 by { Scaled(c, s, u, v, d); }
    Share(60.0, 60.0, d);
    var r, w := 60.0 / d, far - q;
    if r < w { Scale(r, w, d); }
    assert w * d >= 60.0;
    assert along == -(w * d) / 60.0 by { assert (q - far) * d == -(w * d); }
    FarEnough(c, s, along, x, y);
  }

  lemma AlongIs(c: real, s: real, ax: real, ay: real, far: real)
    requires c * c + s * s == 1.0
    ensures (-far * c + ax) * c + (-far * s + ay) * s == ax * c + ay * s - far
  {
    var cc, ss := c * c, s * s;
    assert (-far * c + ax) * c == -far * cc + ax * c;
    assert (-far * s + ay) * s == -far * ss + ay * s;
    assert -far * cc + -far * ss == -far by { assert -far * cc + -far * ss == -far * (cc + ss); }
  }

  lemma Scaled(c: real, s: real, u: real, v: real, d: real)
    ensures (u * d / 60.0) * c + (v * d / 60.0) * s == (u * c + v * s) * d / 60.0
  {
    assert (u * d) * c == (u * c) * d && (v * d) * s == (v * s) * d;
    assert (u * d / 60.0) * c == (u * d) * c / 60.0 && (v * d / 60.0) * s == (v * d) * s / 60.0;
    assert (u * c) * d + (v * s) * d == (u * c + v * s) * d;
  }

  lemma PastRimAhead(c: real, s: real, ax: real, ay: real, far: real, d: real, x: real, y: real)
    requires c * c + s * s == 1.0 && 0.0 < d && far >= -(ax * c + ay * s) + 60.0 / d
    requires x == (far * c + ax) * d / 60.0 && y == (far * s + ay) * d / 60.0
    ensures Norm2(x, y) >= 1.0
  {
    Backwards(c, s, ax, ay, far);
    PastRim(-c, -s, ax, ay, far, d, x, y);
  }

  /** Going that fast, an exposed dot moves past the rim. */
  lemma FastPastRim(m: Maths, cfg: Config, s: DotState, keys: Keys, far: real)
    requires m.Valid() && Exposed(cfg, s) && far >= FarOf(m, cfg, s, keys)
    ensures Dist(m, Drifted(m, cfg, Going(s, Toward(m, far, 0.0)), keys).motion) >= 1.0
  {
    hide Drifted, Pulled, Damp, Going, Exposed, Length, Norm2;
    var d, a, v := Damp(m, cfg, s.guard), Pulled(m, cfg, s, keys), Toward(m, far, 0.0);
    DampPositive(m, cfg, s.guard);
    GoingDrifts(m, cfg, s, v, keys, d);
    var mo := Drifted(m, cfg, Going(s, v), keys).motion;
    PastRimAhead(m.cos(0.0), m.sin(0.0), a.x, a.y, far, d, mo.x, mo.y);
    LengthBelow(m, mo.x, mo.y, 1.0);
  }

  /** So it comes to its movement about to be staggered by the rim. */
  lemma FastReachesRim(m: Maths, cfg: Config, s: DotState, keys: Keys, far: real)
    requires m.Valid() && Exposed(cfg, s) && far >= FarOf(m, cfg, s, keys)
    ensures RimStaggers(m, cfg, Going(s, Toward(m, far, 0.0)), keys)
  {
    hide Drifted, Dist, Going, Toward, Exposed, FarOf, HandsSteady, FadeOf;
    FastPastRim(m, cfg, s, keys, far);
    GoingStaysExposed(cfg, s, Toward(m, far, 0.0));
  }

  lemma NudgesReachRim(m: Maths, cfg: Config, s: DotState, keys: Keys)
    requires m.Valid() && Exposed(cfg, s) && 0.0 < cfg.rules.staggerKick
    ensures RimStaggers(m, cfg, BlownAll(m, cfg, s, Nudges(cfg, NudgesFor(m, cfg, s, keys) + 1)).s, keys)
  {
    hide RimStaggers, FarOf, Going, Toward, BlownAll, Nudges, Exposed;
    var n, h := NudgesFor(m, cfg, s, keys), cfg.rules.staggerKick / 2.0;
    EnoughNudges(FarOf(m, cfg, s, keys), h, n);
    FasterIs(0.0, h, n + 1);
    NudgedFromRest(m, cfg, s, n);
    FastReachesRim(m, cfg, s, keys, Faster(0.0, h, n + 1));
  }

  /** The direction of angle 0 seen from behind. */
  lemma Backwards(c: real, s: real, ax: real, ay: real, far: real)
    requires c * c + s * s == 1.0
    ensures (-c) * (-c) + (-s) * (-s) == 1.0 && ax * (-c) + ay * (-s) == -(ax * c + ay * s)
    ensures -far * (-c) == far * c && -far * (-s) == far * s
  {
    Twice(c, c);
    Twice(s, s);
    Twice(far, c);
    Twice(far, s);
    assert ax * (-c) == -(ax * c);
    assert ay * (-s) == -(ay * s);
  }

  lemma Twice(a: real, b: real)
    ensures (-a) * (-b) == a * b
  {
  }

  lemma DampPositive(m: Maths, cfg: Config, g: Guard)
    requires m.Valid()
    ensures 0.0 < Damp(m, cfg, g)
  {
  }

  lemma GoingStaysExposed(cfg: Config, s: DotState, v: Pair)
    requires Exposed(cfg, s)
    ensures var t := Going(s, v);
      t.footing.stagger <= 0 && t.footing.immune <= 0 && !HandsSteady(cfg, t.feats) && Fade(t.debuffs, "wobble") <= 0.15
  {
  }

  // From the start -----------------------------------------------------------------------------

  /** Blows on a dot as it comes to them in its first step, its Steady Hands first spent if it has them. */
  ghost function FirstBlows(m: Maths, cfg: Config, s: DotState, keys: Keys): seq<Blow>
    requires m.Valid() && 0.0 < cfg.rules.staggerKick
  {
    if HandsSteady(cfg, s.feats) then
      [SIGNATURE] + Nudges(cfg, NudgesFor(m, cfg, Blown1(m, cfg, s, SIGNATURE).s, keys) + 1)
    else Nudges(cfg, NudgesFor(m, cfg, s, keys) + 1)
  }

  /** A blow as an attack in the world can land it: its kick isn't negative, and it is no parting one. */
  predicate Landable(blow: Blow) { 0.0 <= blow.kick && !blow.parting }

  ghost predicate AllLandable(run: seq<Input>) {
    forall i :: 0 <= i < |run| ==> forall j :: 0 <= j < |run[i].blows| ==> Landable(run[i].blows[j])
  }

  lemma {:induction false} NudgesLandable(cfg: Config, n: nat)
    requires 0.0 < cfg.rules.staggerKick
    ensures forall j :: 0 <= j < |Nudges(cfg, n)| ==> Landable(Nudges(cfg, n)[j])
  {
    if n > 0 { NudgesLandable(cfg, n - 1); }
  }

  lemma SignatureExposes(m: Maths, cfg: Config, s: DotState)
    requires AtRest(s) && HandsSteady(cfg, s.feats)
    ensures Exposed(cfg, Blown1(m, cfg, s, SIGNATURE).s)
  {
  }

  lemma BlownOneByOne(m: Maths, cfg: Config, s: DotState, blow: Blow, more: seq<Blow>)
    ensures BlownAll(m, cfg, s, [blow] + more).s == BlownAll(m, cfg, Blown1(m, cfg, s, blow).s, more).s
    ensures BlownAll(m, cfg, s, []).s == s
  {
    hide Blown1;
    assert ([blow] + more)[1..] == more;
  }

  lemma FirstBlowsReachRim(m: Maths, cfg: Config, s: DotState, keys: Keys)
    requires m.Valid() && AtRest(s) && 0.0 < cfg.rules.staggerKick
    ensures RimStaggers(m, cfg, BlownAll(m, cfg, s, FirstBlows(m, cfg, s, keys)).s, keys)
    ensures AllLandable([Input(keys, [], FirstBlows(m, cfg, s, keys))])
  {
    hide Blown1, RimStaggers, NudgesFor, BlownAll, Nudges;
    if HandsSteady(cfg, s.feats) {
      var t := Blown1(m, cfg, s, SIGNATURE).s;
      var more := Nudges(cfg, NudgesFor(m, cfg, t, keys) + 1);
      SignatureExposes(m, cfg, s);
      NudgesReachRim(m, cfg, t, keys);
      NudgesLandable(cfg, NudgesFor(m, cfg, t, keys) + 1);
      BlownOneByOne(m, cfg, s, SIGNATURE, more);
    } else {
      NudgesReachRim(m, cfg, s, keys);
      NudgesLandable(cfg, NudgesFor(m, cfg, s, keys) + 1);
    }
  }

  lemma NothingBefore(m: Maths, cfg: Config, s: DotState, i: Input)
    requires s.pending == None && s.volleys == [] && i.acts == []
    ensures Opening(m, cfg, s).s.pending == None && Opening(m, cfg, s).s.volleys == [] ==>
      AtBlows(m, cfg, s, i) == Opening(m, cfg, s).s
  {
    hide Opening;
  }

  /** By rules whose staggers last no step, attacks that land together, none of
      them hard enough to stagger, put a dot on the rim, unstaggered, in its first step. */
  lemma OntoRim(m: Maths, cfg: Config, seed: int) returns (i: Input)
    requires m.Valid() && Lasts(cfg) <= 0 && 0.0 < cfg.rules.staggerKick
    ensures AllLandable([i]) && !OffRim(m, StepOn(m, cfg, Start(m, cfg, seed), i).s)
  {
    hide Start, Opening, AtRest, StepOn, OffRim, RimStaggers, FirstBlows, BlownAll, AtBlows;
    var s := Start(m, cfg, seed);
    StartInDisc(m, cfg, seed);
    StartsAtRest(m, cfg, seed);
    OpeningAtRest(m, cfg, s);
    var b := Opening(m, cfg, s).s;
    i := Input(0, [], FirstBlows(m, cfg, b, 0));
    RestHasNothing(s);
    RestHasNothing(b);
    NothingBefore(m, cfg, s, i);
    FirstBlowsReachRim(m, cfg, b, 0);
    OffRimExactlyWhen(m, cfg, s, i);
  }

  lemma RestHasNothing(s: DotState)
    requires AtRest(s)
    ensures s.pending == None && s.volleys == []
  {
  }

  /** So by rules without gravity, damping or staggers, a dot steered hard in its
      first step of an encounter is on the rim and not staggered. */
  lemma OnRimUnstaggered(m: Maths, seed: int)
    requires m.Valid()
    ensures var cfg := ConfigOf(7200.0);
      Lasts(cfg) == 0 && !OffRim(m, StepOn(m, cfg, Start(m, cfg, seed), Input(RIGHT, [], [])).s)
  {
    hide Start, Opening, AtRest, StepOn, OffRim, RimStaggers, BlownAll, AtBlows;
    var cfg, i := ConfigOf(7200.0), Input(RIGHT, [], []);
    var s := Start(m, cfg, seed);
    StartInDisc(m, cfg, seed);
    StartsAtRest(m, cfg, seed);
    OpeningAtRest(m, cfg, s);
    var b := Opening(m, cfg, s).s;
    RestHasNothing(s);
    RestHasNothing(b);
    NothingBefore(m, cfg, s, i);
    BlownOneByOne(m, cfg, b, SIGNATURE, []);
    SteeredToRim(m, b);
    OffRimExactlyWhen(m, cfg, s, i);
  }

  lemma SteeredToRim(m: Maths, s: DotState)
    requires m.Valid() && AtRest(s)
    ensures RimStaggers(m, ConfigOf(7200.0), s, RIGHT)
  {
    hide Drifted, Length;
    Drifts(m, ConfigOf(7200.0), 7200.0, s, RIGHT);
    LengthAlong(m, 2.0);
  }

  /** Off the rim or staggered after every step of every run of blows that attacks can land. */
  ghost predicate AlwaysOffRim(m: Maths, cfg: Config, s: DotState) {
    forall run: seq<Input>, k: nat :: AllLandable(run) && 1 <= k <= |run| ==> OffRim(m, StateAt(m, cfg, s, run, k))
  }

  /** That holds of the runs from the start of an encounter by rules whose staggers
      last at least a step, and where it takes some force to stagger, only by those. */
  lemma AlwaysOffRimExactlyWhen(m: Maths, cfg: Config, seed: int)
    requires m.Valid()
    ensures Lasts(cfg) >= 1 ==> AlwaysOffRim(m, cfg, Start(m, cfg, seed))
    ensures 0.0 < cfg.rules.staggerKick ==> (AlwaysOffRim(m, cfg, Start(m, cfg, seed)) <==> Lasts(cfg) >= 1)
  {
    hide Start, StepOn, InDisc;
    var s := Start(m, cfg, seed);
    if Lasts(cfg) >= 1 {
      forall run: seq<Input>, k: nat | AllLandable(run) && 1 <= k <= |run|
        ensures OffRim(m, StateAt(m, cfg, s, run, k))
      {
        DiscInvariant(m, cfg, seed, run, k);
      }
    } else if 0.0 < cfg.rules.staggerKick {
      var i := OntoRim(m, cfg, seed);
      assert StateAt(m, cfg, s, [i], 0) == s;
      assert !OffRim(m, StateAt(m, cfg, s, [i], 1));
    }
  }
}
