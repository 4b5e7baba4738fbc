/** The combat simulation as a function of values: one player's dot, moved on
    one fixed step of 1/60 s at a time. The class Dot changes its fields step by
    step and is proved to compute exactly this. */
module Balance {
  import opened Basics
  import opened Reals

  type Unit = u: real | 0.0 <= u < 1.0 witness 0.0
  type Positive = k: int | 1 <= k witness 1
  type NonNegative = r: real | 0.0 <= r
  type Keys = bv4

  const UP: Keys := 1
  const DOWN: Keys := 2
  const LEFT: Keys := 4
  const RIGHT: Keys := 8

  /** The library's functions of reals, and the generator's output as a function
      of its state. What little is assumed of them is `Valid`, and only where it's needed. */
  datatype Maths = Maths(cos: real -> real, sin: real -> real, sqrt: real -> real, exp: real -> real,
                         atan2: (real, real) -> real, draw: int -> Unit, tau: real)
  {
    ghost predicate Valid() {
      && (forall a :: cos(a) * cos(a) + sin(a) * sin(a) == 1.0)
      && (forall z :: 0.0 <= z ==> 0.0 <= sqrt(z) && sqrt(z) * sqrt(z) == z)
      && (forall k :: 0.0 < exp(k) && (k < 0.0 ==> exp(k) < 1.0))
      && exp(0.0) == 1.0
    }
  }

  // Rules and gear -----------------------------------------------------------------------

  datatype Rules = Rules(
    core: real, perfectR: real, cleanR: real, damping: real, blockDamping: real, push: real,
    gravity: real, gravityFalloff: real, wellLo: real, wellHi: real, wellSpeed: real,
    warnMs: real, bufferMs: real, staggerMs: real, staggerKick: real, staggerImmuneMs: real,
    dodgeMs: real, dodgeCdMs: real, globalCdMs: real, wobbleMs: real, blockKick: real,
    perfectBlockPoise: real, bossStaggerMs: real, bossPoiseDecay: real,
    defendPerfectMs: real, debuffScale: real)

  datatype Pattern = Bump | Side | Taps

  datatype DebuffSpec = DebuffSpec(kind: string, strength: NonNegative, ms: real)

  datatype Gear = Gear(cooldown: real, kick: real, pattern: Pattern, hits: int, gap: real, debuff: Option<DebuffSpec>)

  datatype Defence = Both | BlockOnly | DodgeOnly | NoDefence

  datatype Blow = Blow(kick: real, angle: real, defend: Defence, stagger: bool, debuff: Option<DebuffSpec>,
                       parting: bool)

  /** What doesn't change about a dot. */
  datatype Config = Config(rules: Rules, slots: map<int, Gear>, shield: bool, perks: set<string>)
  {
    /** The gear in a slot; only slots with gear ever start a volley (SlotsKnown). */
    function GearIn(slot: int): Gear {
      if slot in slots then slots[slot] else Gear(0.0, 0.0, Bump, 1, 0.0, None)
    }
  }

  /** Milliseconds as whole steps, half rounding up. */
  function Steps(ms: real): int {
    (ms * 60.0 / 1000.0 + 0.5).Floor
  }

  function Max(a: int, b: int): int { if a < b then b else a }

  function MaxReal(a: NonNegative, b: NonNegative): NonNegative { if a < b then b else a }

  function MinReal(a: real, b: real): real { if b < a then b else a }

  /** The steps between a volley's hits. */
  function Gap(gear: Gear): Positive { Max(1, Steps(gear.gap)) }

  // The dot ------------------------------------------------------------------------------

  datatype Debuff = Debuff(strength: NonNegative, left: Positive, total: Positive)

  datatype Pending = Pending(slot: int, target: Option<string>, left: int)

  datatype Volley = Volley(slot: int, target: Option<string>, tier: int, hit: int, left: int, angle: real)

  datatype Draws = Draws(spin: Unit, radius: Unit, wobble: Unit, spare: Unit)

  /** Where the dot is and how it moves, with the clock of its wobble's kicks. */
  datatype Motion = Motion(x: real, y: real, vx: real, vy: real, wobbleClock: real)

  /** Its stagger: the steps left, the point it eases back to, and the immunity after. */
  datatype Footing = Footing(stagger: int, sx: real, sy: real, immune: int)

  /** Its well: angle, radius, the radius it makes for, and which way round it goes. */
  datatype Orbit = Orbit(a: real, r: real, target: real, spin: int)

  datatype Guard = Guard(dodgeCd: int, invuln: int, wobbleAfter: bool, blocking: bool, blockN: int)

  /** Long Breath's steps, Steady Hands spent, and what Second Wind watches. */
  datatype Feats = Feats(breath: int, steadied: bool, knocked: bool, inside: bool)

  datatype DotState = DotState(
    n: int, motion: Motion, footing: Footing, orbit: Orbit, guard: Guard, feats: Feats,
    rng: int, cool: map<int, int>, debuffs: map<string, Debuff>,
    pending: Option<Pending>, volleys: seq<Volley>, draws: Draws)

  datatype Act = Strike(slot: int, target: Option<string>) | Dodge | Block | Unblock

  datatype Reason = IsStaggered | NotSteady | OnCooldown | EmptySlot | IsBlocking | NoShield

  datatype Result = Parting | Dodged | PerfectBlock | Blocked | WhileStaggered | Hit

  datatype By = ByRim | ByBlow

  datatype Event =
    | Struck(slot: int, target: Option<string>, tier: int, hit: int, hits: int)
    | StrikeRefused(slot: int, reason: Reason)
    | Refused(act: Act, reason: Reason)
    | DodgeStarted
    | Recovered
    | Blown(result: Result, staggers: bool)
    | Staggered(cause: By)
    | Steadied
    | SecondWind

  /** A state and the events of coming to it. */
  datatype Out = Out(s: DotState, events: seq<Event>)
  {
    function Then(next: Out): Out { Out(next.s, events + next.events) }
  }

  // The generator ------------------------------------------------------------------------

  function Advance(s: int): int { (s + 0x6D2B79F5) % 0x1_0000_0000 }

  /** The well radius a share of the way through its range. */
  function RadiusAt(cfg: Config, share: real): real {
    cfg.rules.wellLo + (cfg.rules.wellHi - cfg.rules.wellLo) * share
  }

  function Start(m: Maths, cfg: Config, seed: int): DotState {
    var r1 := Advance(seed % 0x1_0000_0000);
    var r2 := Advance(r1);
    var r3 := Advance(r2);
    var radius := RadiusAt(cfg, m.draw(r2));
    DotState(0, Motion(0.0, 0.0, 0.0, 0.0, 0.0), Footing(0, 0.0, 0.0, 0),
             Orbit(Around(m, m.draw(r1)), radius, radius, if m.draw(r3) < 0.5 then -1 else 1),
             Guard(0, 0, false, false, 0), Feats(0, false, false, true),
             r3, map[], map[], None, [], Draws(0.0, 0.0, 0.0, 0.0))
  }

  // Reading a dot ------------------------------------------------------------------------

  function Length(m: Maths, x: real, y: real): real { m.sqrt(x * x + y * y) }

  function Dist(m: Maths, mo: Motion): real { Length(m, mo.x, mo.y) }

  function Core(cfg: Config, breath: int): real {
    if breath > 0 then cfg.rules.core * 1.2 else cfg.rules.core
  }

  function FadeOf(d: Debuff): real { d.strength * d.left as real / d.total as real }

  function Fade(debuffs: map<string, Debuff>, kind: string): real {
    if kind in debuffs then FadeOf(debuffs[kind]) else 0.0
  }

  function Cool(cool: map<int, int>, slot: int): int {
    if slot in cool then cool[slot] else 0
  }

  /** A strike's tier by its distance: 2 within the perfect radius, 1 within the clean one, else 0. */
  function Tier(m: Maths, cfg: Config, mo: Motion): int {
    var d := Dist(m, mo);
    if d <= cfg.rules.perfectR then 2 else if d <= cfg.rules.cleanR then 1 else 0
  }

  predicate InCore(m: Maths, cfg: Config, s: DotState) {
    Dist(m, s.motion) <= Core(cfg, s.feats.breath)
  }

  function StrikeCheck(m: Maths, cfg: Config, s: DotState, slot: int): Option<Reason> {
    if s.footing.stagger > 0 then Some(IsStaggered)
    else if s.guard.blocking || !InCore(m, cfg, s) then Some(NotSteady)
    else if Cool(s.cool, slot) > 0 then Some(OnCooldown)
    else if slot !in cfg.slots then Some(EmptySlot)
    else None
  }

  // Changing a dot -----------------------------------------------------------------------

  /** A debuff's length in steps, shortened by Resilience. */
  function DebuffSteps(cfg: Config, ms: real): Positive {
    Max(1, Steps(ms * cfg.rules.debuffScale))
  }

  /** The debuffs with one more, at full length: if its kind was there, as strong as the stronger of the two. */
  function WithDebuff(cfg: Config, debuffs: map<string, Debuff>, d: DebuffSpec): map<string, Debuff> {
    var total := DebuffSteps(cfg, d.ms);
    var strength := if d.kind in debuffs then MaxReal(d.strength, debuffs[d.kind].strength) else d.strength;
    debuffs[d.kind := Debuff(strength, total, total)]
  }

  function WithDebuffIf(cfg: Config, debuffs: map<string, Debuff>, d: Option<DebuffSpec>): map<string, Debuff> {
    if d.Some? then WithDebuff(cfg, debuffs, d.value) else debuffs
  }

  datatype Pair = Pair(x: real, y: real)

  /** A vector of a length in a direction. */
  function Toward(m: Maths, length: real, angle: real): Pair {
    Pair(length * m.cos(angle), length * m.sin(angle))
  }

  /** Sideways, left or right, with a small lean, by one draw. */
  function Sideways(u: Unit, kick: real): Pair {
    var sign := if u < 0.5 then -1.0 else 1.0;
    var twice := if u < 0.5 then u * 2.0 else u * 2.0 - 1.0;
    Pair(sign * kick, kick * 0.2 * (twice * 2.0 - 1.0))
  }

  /** The direction a draw stands for. */
  function Around(m: Maths, u: Unit): real { u * m.tau }

  /** A knock's change of velocity, and its direction. */
  datatype Knock = Knock(push: Pair, angle: real)

  function KnockOf(m: Maths, u: Unit, kick: real, pattern: Pattern, given: Option<real>): Knock {
    if pattern == Side then
      var d := Sideways(u, kick);
      Knock(d, m.atan2(d.y, d.x))
    else
      var a := if given.Some? then given.value else Around(m, u);
      Knock(Toward(m, kick, a), a)
  }

  function Pushed(mo: Motion, d: Pair): Motion {
    mo.(vx := mo.vx + d.x, vy := mo.vy + d.y)
  }

  function Kicked(m: Maths, s: DotState, kick: real, pattern: Pattern, angle: Option<real>): DotState {
    var k := KnockOf(m, s.draws.spare, kick, pattern, angle);
    s.(motion := Pushed(s.motion, k.push), feats := Knocked(s.feats, kick))
  }

  function Knocked(feats: Feats, kick: real): Feats {
    if kick > 0.0 then feats.(knocked := true) else feats
  }

  /** Where a stagger takes the dot: at distance 0.35, by a draw up to 0.8 rad to either side. */
  function Back(m: Maths, u: Unit, angle: real): Pair {
    Toward(m, 0.35, angle + (u * 2.0 - 1.0) * 0.8)
  }

  /** Staggered at an angle: put on the rim there without speed, with that point to make for. */
  function IntoStagger(m: Maths, cfg: Config, s: DotState, angle: real): DotState {
    var back := Back(m, s.draws.spare, angle);
    s.(motion := Motion(m.cos(angle), m.sin(angle), 0.0, 0.0, s.motion.wobbleClock),
       footing := Footing(Steps(cfg.rules.staggerMs), back.x, back.y, s.footing.immune),
       feats := s.feats.(knocked := true))
  }

  predicate HandsSteady(cfg: Config, feats: Feats) {
    "steady_hands" in cfg.perks && !feats.steadied
  }

  function CancelVolleys(volleys: seq<Volley>, target: Option<string>): seq<Volley> {
    if volleys == [] then []
    else
      (if target.Some? && volleys[0].target != target then [volleys[0]] else [])
      + CancelVolleys(volleys[1..], target)
  }

  function Cancelled(s: DotState, target: Option<string>): DotState {
    s.(volleys := CancelVolleys(s.volleys, target))
  }

  // The stages of a step -------------------------------------------------------------------

  function CoolDown(cool: map<int, int>): map<int, int> {
    if cool == map[] then map[] else map k | k in cool :: if cool[k] > 0 then cool[k] - 1 else cool[k]
  }

  function FadeAll(debuffs: map<string, Debuff>): map<string, Debuff> {
    var going := set k | k in debuffs && debuffs[k].left > 1;
    if going == {} then map[] else map k | k in going :: debuffs[k].(left := debuffs[k].left - 1)
  }

  function Down(k: int): int { if k > 0 then k - 1 else k }

  /** A dodge's wobble is due as it ends. */
  predicate WobbleDue(g: Guard) { g.invuln == 1 && g.wobbleAfter }

  function TimedGuard(g: Guard): Guard {
    g.(dodgeCd := Down(g.dodgeCd), invuln := Down(g.invuln), wobbleAfter := g.wobbleAfter && !WobbleDue(g))
  }

  function TimedFooting(cfg: Config, f: Footing): Footing {
    f.(stagger := Down(f.stagger),
       immune := if f.stagger == 1 then Steps(cfg.rules.staggerImmuneMs) else Down(f.immune))
  }

  function TimedDebuffs(cfg: Config, g: Guard, debuffs: map<string, Debuff>): map<string, Debuff> {
    FadeAll(if WobbleDue(g) then WithDebuff(cfg, debuffs, DebuffSpec("wobble", 1.0, cfg.rules.wobbleMs)) else debuffs)
  }

  /** Timers count down; a dodge's wobble starts when it ends, and immunity when a stagger does. */
  function Timers(cfg: Config, s: DotState): Out {
    Out(s.(cool := CoolDown(s.cool), guard := TimedGuard(s.guard), feats := s.feats.(breath := Down(s.feats.breath)),
           footing := TimedFooting(cfg, s.footing), debuffs := TimedDebuffs(cfg, s.guard, s.debuffs)),
        if s.footing.stagger == 1 then [Recovered] else [])
  }

  /** The four random draws of every step. */
  function Drawn(m: Maths, s: DotState): DotState {
    var r1 := Advance(s.rng);
    var r2 := Advance(r1);
    var r3 := Advance(r2);
    var r4 := Advance(r3);
    s.(rng := r4, draws := Draws(m.draw(r1), m.draw(r2), m.draw(r3), m.draw(r4)))
  }

  function Reeling(debuffs: map<string, Debuff>): real { MinReal(1.0, Fade(debuffs, "reeling")) }

  /** The chance a step that the well turns, and that it makes for another radius. */
  function TurnChance(r: real): real { (0.08 + 0.6 * r) / 60.0 }

  function ShiftChance(r: real): real { (0.25 + r) / 60.0 }

  /** The new radius reuses its draw, scaled. */
  function NewRadius(cfg: Config, u: Unit, p: real): real
    requires u < p
  {
    RadiusAt(cfg, u / p)
  }

  function EasedRadius(m: Maths, r: real, target: real): real {
    r + (target - r) * (1.0 - m.exp(-0.8 / 60.0))
  }

  function RoundBy(cfg: Config, spin: int, r: real): real {
    spin as real * cfg.rules.wellSpeed * (1.0 + 3.0 * r) / 60.0
  }

  /** The well, by the reeling strength r and two draws: it may turn, may make for
      another radius, eases toward it and goes round. */
  function OrbitNext(m: Maths, cfg: Config, o: Orbit, r: real, draws: Draws): Orbit {
    var spin := if draws.spin < TurnChance(r) then -o.spin else o.spin;
    var target := if draws.radius < ShiftChance(r) then NewRadius(cfg, draws.radius, ShiftChance(r)) else o.target;
    Orbit(o.a + RoundBy(cfg, spin, r), EasedRadius(m, o.r, target), target, spin)
  }

  function Well(m: Maths, cfg: Config, s: DotState): DotState {
    s.(orbit := OrbitNext(m, cfg, s.orbit, Reeling(s.debuffs), s.draws))
  }

  /** What keeps a dodge from being done, if anything. */
  function DodgeRefusal(s: DotState): Option<Reason> {
    if s.footing.stagger > 0 then Some(IsStaggered)
    else if s.guard.blocking then Some(IsBlocking)
    else if s.guard.dodgeCd > 0 then Some(OnCooldown)
    else None
  }

  function DoAct(cfg: Config, s: DotState, act: Act): Out {
    match act
    case Strike(slot, target) => Out(s.(pending := Some(Pending(slot, target, Steps(cfg.rules.bufferMs)))), [])
    case Dodge =>
      var why := DodgeRefusal(s);
      if why.Some? then Out(s, [Refused(Dodge, why.value)])
      else
        Out(s.(guard := s.guard.(invuln := Steps(cfg.rules.dodgeMs), dodgeCd := Steps(cfg.rules.dodgeCdMs),
                                 wobbleAfter := true)),
            [DodgeStarted])
    case Block =>
      if !cfg.shield then Out(s, [Refused(Block, NoShield)])
      else if s.guard.blocking then Out(s, [])
      else Out(s.(guard := s.guard.(blocking := true, blockN := s.n)), [])
    case Unblock => Out(s.(guard := s.guard.(blocking := false)), [])
  }

  function DoActs(cfg: Config, s: DotState, acts: seq<Act>): Out
    decreases |acts|
  {
    if acts == [] then Out(s, [])
    else
      var o := DoAct(cfg, s, acts[0]);
      o.Then(DoActs(cfg, o.s, acts[1..]))
  }

  function SharedCooldown(cfg: Config): int { Steps(cfg.rules.globalCdMs) }

  /** The given slots held at least as long as the shared cooldown. */
  function CoolShared(slots: set<int>, shared: int, cool: map<int, int>): map<int, int> {
    var held := cool.Keys + (if 0 < shared then slots else {});
    if held == {} then map[]
    else map k | k in held :: if k in slots && Cool(cool, k) < shared then shared else Cool(cool, k)
  }

  /** After a strike every slot waits at least the shared cooldown, and the slot its own. */
  function CoolAfter(cfg: Config, cool: map<int, int>, slot: int): map<int, int> {
    var shared := SharedCooldown(cfg);
    CoolShared(cfg.slots.Keys, shared, cool)[slot := Max(Steps(cfg.GearIn(slot).cooldown), shared)]
  }

  /** A valid strike. */
  function StrikeNow(m: Maths, cfg: Config, s: DotState, slot: int, target: Option<string>): Out {
    var gear := cfg.GearIn(slot);
    var t := Tier(m, cfg, s.motion);
    var k := KnockOf(m, s.draws.spare, gear.kick, gear.pattern, None);
    var rest := if gear.hits > 1 then [Volley(slot, target, t, 2, Gap(gear), k.angle)] else [];
    Out(s.(motion := Pushed(s.motion, k.push),
           feats := Knocked(Breathed(cfg, s.feats, t), gear.kick),
           cool := CoolAfter(cfg, s.cool, slot),
           debuffs := WithDebuffIf(cfg, s.debuffs, gear.debuff),
           pending := None,
           volleys := s.volleys + rest),
        [Struck(slot, target, t, 1, gear.hits)])
  }

  /** Long Breath: a perfect strike's larger core. */
  function Breathed(cfg: Config, feats: Feats, t: int): Feats {
    if t == 2 && "long_breath" in cfg.perks then feats.(breath := Steps(3000.0)) else feats
  }

  /** A buffered strike: fires, is refused, or waits on. */
  function Buffered(m: Maths, cfg: Config, s: DotState): Out {
    if s.pending == None then Out(s, [])
    else
      var p := s.pending.value;
      var why := StrikeCheck(m, cfg, s, p.slot);
      if why == None then StrikeNow(m, cfg, s, p.slot, p.target)
      else if why == Some(EmptySlot) || p.left <= 0 then Out(s.(pending := None), [StrikeRefused(p.slot, why.value)])
      else Out(s.(pending := Some(p.(left := p.left - 1))), [])
  }

  /** What one volley's step leaves of it. */
  function VolleyNext(cfg: Config, v: Volley): seq<Volley> {
    if v.left > 1 then [v.(left := v.left - 1)]
    else if v.hit < cfg.GearIn(v.slot).hits then [v.(hit := v.hit + 1, left := Gap(cfg.GearIn(v.slot)))]
    else []
  }

  /** The hit it lands, if it does. */
  function VolleyHits(cfg: Config, v: Volley): seq<Event> {
    if v.left > 1 then [] else [Struck(v.slot, v.target, v.tier, v.hit, cfg.GearIn(v.slot).hits)]
  }

  function VolleyKick(m: Maths, cfg: Config, s: DotState, v: Volley): DotState {
    if v.left > 1 then s
    else
      var gear := cfg.GearIn(v.slot);
      Kicked(m, s, gear.kick, gear.pattern, if gear.pattern == Taps then Some(v.angle) else None)
  }

  function VolleysNext(cfg: Config, volleys: seq<Volley>): seq<Volley> {
    if volleys == [] then [] else VolleyNext(cfg, volleys[0]) + VolleysNext(cfg, volleys[1..])
  }

  function VolleysHit(cfg: Config, volleys: seq<Volley>): seq<Event> {
    if volleys == [] then [] else VolleyHits(cfg, volleys[0]) + VolleysHit(cfg, volleys[1..])
  }

  function VolleyKicks(m: Maths, cfg: Config, s: DotState, volleys: seq<Volley>): DotState
    decreases |volleys|
  {
    if volleys == [] then s else VolleyKicks(m, cfg, VolleyKick(m, cfg, s, volleys[0]), volleys[1..])
  }

  function Volleys(m: Maths, cfg: Config, s: DotState): Out {
    Out(VolleyKicks(m, cfg, s, s.volleys).(volleys := VolleysNext(cfg, s.volleys)), VolleysHit(cfg, s.volleys))
  }

  predicate CanDodge(d: Defence) { d != BlockOnly && d != NoDefence }

  predicate CanBlock(d: Defence) { d != DodgeOnly && d != NoDefence }

  /** How a blow is met. */
  datatype Meeting = MeetParting | MeetDodge | MeetBlock | MeetStaggered | MeetOpen

  function Met(s: DotState, blow: Blow): Meeting {
    if blow.parting then MeetParting
    else if s.guard.invuln > 0 && CanDodge(blow.defend) then MeetDodge
    else if s.guard.blocking && s.footing.stagger <= 0 && CanBlock(blow.defend) then MeetBlock
    else if s.footing.stagger > 0 then MeetStaggered
    else MeetOpen
  }

  predicate WouldStagger(cfg: Config, s: DotState, blow: Blow) {
    (blow.stagger || blow.kick >= cfg.rules.staggerKick) && s.footing.immune == 0
  }

  /** A blow landing on a dot that neither meets it nor is staggered. */
  function BlownOpen(m: Maths, cfg: Config, s: DotState, blow: Blow): Out {
    var s1 := s.(motion := Pushed(s.motion, Toward(m, blow.kick, blow.angle)),
                 feats := Knocked(s.feats, blow.kick),
                 debuffs := WithDebuffIf(cfg, s.debuffs, blow.debuff));
    if !WouldStagger(cfg, s, blow) then Out(s1, [Blown(Hit, false)])
    else if HandsSteady(cfg, s.feats) then Out(s1.(feats := s1.feats.(steadied := true)), [Blown(Hit, false), Steadied])
    else Out(IntoStagger(m, cfg, s1, blow.angle), [Blown(Hit, true), Staggered(ByBlow)])
  }

  /** A blow landing: what came of it, whether it staggered, and Steady Hands catching it. */
  function Blown1(m: Maths, cfg: Config, s: DotState, blow: Blow): Out {
    match Met(s, blow)
    case MeetParting => Out(s, [Blown(Parting, false)])
    case MeetDodge => Out(s, [Blown(Dodged, false)])
    case MeetBlock =>
      var perfect := s.n - s.guard.blockN <= Steps(cfg.rules.defendPerfectMs);
      Out(s.(motion := Pushed(s.motion, Toward(m, blow.kick * cfg.rules.blockKick, blow.angle))),
          [Blown(if perfect then PerfectBlock else Blocked, false)])
    case MeetStaggered => Out(s.(debuffs := WithDebuffIf(cfg, s.debuffs, blow.debuff)), [Blown(WhileStaggered, false)])
    case MeetOpen => BlownOpen(m, cfg, s, blow)
  }

  function BlownAll(m: Maths, cfg: Config, s: DotState, blows: seq<Blow>): Out
    decreases |blows|
  {
    if blows == [] then Out(s, [])
    else
      var o := Blown1(m, cfg, s, blows[0]);
      o.Then(BlownAll(m, cfg, o.s, blows[1..]))
  }

  // The dot's own movement -------------------------------------------------------------------

  function Calm(g: Guard): real { if g.blocking then 0.1 else 1.0 }

  /** How far the well is from the dot, each way. */
  function ToWell(m: Maths, mo: Motion, o: Orbit): Pair {
    Pair(o.r * m.cos(o.a) - mo.x, o.r * m.sin(o.a) - mo.y)
  }

  /** Gravity's strength, by the reeling strength, eased off close to the well. */
  function PullAt(cfg: Config, reel: real, calm: real, dg: real): real
    requires dg > 0.0
  {
    var full := cfg.rules.gravity * (1.0 + 0.6 * reel) * calm;
    if dg < cfg.rules.gravityFalloff then full * dg / cfg.rules.gravityFalloff else full
  }

  /** Gravity toward the well. */
  function Gravity(m: Maths, cfg: Config, mo: Motion, o: Orbit, reel: real, calm: real): Pair {
    var to := ToWell(m, mo, o);
    var dg := Length(m, to.x, to.y);
    if dg > 0.0 then
      var g := PullAt(cfg, reel, calm, dg);
      Pair(g * to.x / dg, g * to.y / dg)
    else Pair(0.0, 0.0)
  }

  function Axis(keys: Keys, plus: Keys, minus: Keys): real {
    (if keys & plus != 0 then 1.0 else 0.0) - (if keys & minus != 0 then 1.0 else 0.0)
  }

  /** What the held keys' push is divided by. */
  function Weight(debuffs: map<string, Debuff>): (w: real)
    ensures 1.0 <= w
  {
    if "heavy" in debuffs then
      FadePositive(debuffs["heavy"]);
      1.0 + FadeOf(debuffs["heavy"])
    else 1.0
  }

  lemma FadePositive(d: Debuff)
    ensures 0.0 <= FadeOf(d)
  {
    var a, t := d.strength * d.left as real, d.total as real;
    Scale(0.0, d.strength, d.left as real);
    Share(a, 0.0, t);
    Share(0.0, a, t);
  }

  /** The strength of a push: half as much again while steady, less while heavy. */
  function PushStrength(cfg: Config, debuffs: map<string, Debuff>): real {
    cfg.rules.push * (if "steady" in debuffs then 1.5 else 1.0) / Weight(debuffs)
  }

  /** The held keys' push, against it; a diagonal one is no stronger. */
  function Push(m: Maths, cfg: Config, g: Guard, debuffs: map<string, Debuff>, keys: Keys): Pair {
    if g.blocking then Pair(0.0, 0.0)
    else
      var px, py := Axis(keys, RIGHT, LEFT), Axis(keys, DOWN, UP);
      var diagonal := if px != 0.0 && py != 0.0 then m.sqrt(0.5) else 1.0;
      var push := diagonal * PushStrength(cfg, debuffs);
      Pair(px * push, py * push)
  }

  function OneStep(a: Pair, b: Pair): Pair { Pair((a.x + b.x) / 60.0, (a.y + b.y) / 60.0) }

  function Accelerated(m: Maths, cfg: Config, s: DotState, keys: Keys): Motion {
    Pushed(s.motion,
           OneStep(Gravity(m, cfg, s.motion, s.orbit, Reeling(s.debuffs), Calm(s.guard)),
           Push(m, cfg, s.guard, s.debuffs, keys)))
  }

  function WobbleKick(wob: real, calm: real): real { 1.1 * wob * calm }

  /** While a wobble is on, its clock runs; each time it reaches 0.07 s the dot is pushed along a. */
  function Wobbled(m: Maths, mo: Motion, wob: real, calm: real, a: real): Motion {
    if wob > 0.0 then
      var clock := mo.wobbleClock + 1.0 / 60.0;
      if clock >= 0.07 then Pushed(mo, Toward(m, WobbleKick(wob, calm), a)).(wobbleClock := clock - 0.07)
      else mo.(wobbleClock := clock)
    else mo.(wobbleClock := 0.0)
  }

  /** Damped, then moved. */
  function Moved(mo: Motion, damp: real): Motion {
    var vx, vy := mo.vx * damp, mo.vy * damp;
    mo.(vx := vx, vy := vy, x := mo.x + vx / 60.0, y := mo.y + vy / 60.0)
  }

  function Damp(m: Maths, cfg: Config, g: Guard): real {
    m.exp(-(if g.blocking then cfg.rules.blockDamping else cfg.rules.damping) / 60.0)
  }

  /** Where a free dot would be after the step, before it meets the rim. */
  function Drifted(m: Maths, cfg: Config, s: DotState, keys: Keys): DotState {
    var pushed := Accelerated(m, cfg, s, keys);
    var wobbled := Wobbled(m, pushed, Fade(s.debuffs, "wobble"), Calm(s.guard), Around(m, s.draws.wobble));
    s.(motion := Moved(wobbled, Damp(m, cfg, s.guard)))
  }

  /** The speed outward at the rim point (nx, ny). */
  function Outward(mo: Motion, nx: real, ny: real): real { mo.vx * nx + mo.vy * ny }

  /** The velocity with its outward part turned inward. */
  function Reflected(mo: Motion, nx: real, ny: real): Motion {
    var twice := 2.0 * Outward(mo, nx, ny);
    mo.(vx := mo.vx - twice * nx, vy := mo.vy - twice * ny)
  }

  /** Back off the rim where it hit. */
  function Bounced(mo: Motion, nx: real, ny: real): Motion {
    (if Outward(mo, nx, ny) > 0.0 then Reflected(mo, nx, ny) else mo).(x := nx * 0.999, y := ny * 0.999)
  }

  /** A dot moved to distance 1 or more: bounced (by a wobble, immunity or Steady Hands) or staggered. */
  function AtRim(m: Maths, cfg: Config, s: DotState): Out {
    var d := Dist(m, s.motion);
    if d >= 1.0 then
      var nx, ny := s.motion.x / d, s.motion.y / d;
      if Fade(s.debuffs, "wobble") > 0.15 || s.footing.immune > 0 then Out(s.(motion := Bounced(s.motion, nx, ny)), [])
      else if HandsSteady(cfg, s.feats) then
        Out(s.(motion := Bounced(s.motion, nx, ny), feats := s.feats.(steadied := true)), [Steadied])
      else Out(IntoStagger(m, cfg, s, m.atan2(ny, nx)), [Staggered(ByRim)])
    else Out(s, [])
  }

  /** Whether the dot ends in its core, and the perk's event if it does so for the first time since a knock. */
  function Settled(m: Maths, cfg: Config, s: DotState): Out {
    var inside := s.footing.stagger == 0 && InCore(m, cfg, s);
    var back := inside && !s.feats.inside && s.feats.knocked;
    Out(s.(feats := s.feats.(inside := inside, knocked := s.feats.knocked && !back)),
        if back && "second_wind" in cfg.perks then [SecondWind] else [])
  }

  function EaseToward(at: real, point: real, ease: real): real { at + (point - at) * ease }

  /** A staggered dot eases toward its point, still. */
  function EasedMotion(mo: Motion, f: Footing, ease: real): Motion {
    Motion(EaseToward(mo.x, f.sx, ease), EaseToward(mo.y, f.sy, ease), 0.0, 0.0, mo.wobbleClock)
  }

  function Ease(m: Maths): real { 1.0 - m.exp(-3.0 / 60.0) }

  function Eased(m: Maths, s: DotState): DotState {
    s.(motion := EasedMotion(s.motion, s.footing, Ease(m)), feats := s.feats.(inside := false))
  }

  function Physics(m: Maths, cfg: Config, s: DotState, keys: Keys): Out {
    if s.footing.stagger > 0 then Out(Eased(m, s), [])
    else
      var o := AtRim(m, cfg, Drifted(m, cfg, s, keys));
      o.Then(Settled(m, cfg, o.s))
  }

  // A step ---------------------------------------------------------------------------------

  /** Up to the acts: timers, the draws and the well. */
  function Opening(m: Maths, cfg: Config, s: DotState): Out {
    var t := Timers(cfg, s.(n := s.n + 1));
    Out(Well(m, cfg, Drawn(m, t.s)), t.events)
  }

  /** The acts, then any buffered strike, then the volleys. */
  function Acting(m: Maths, cfg: Config, s: DotState, acts: seq<Act>): Out {
    var o1 := DoActs(cfg, s, acts);
    var o2 := o1.Then(Buffered(m, cfg, o1.s));
    o2.Then(Volleys(m, cfg, o2.s))
  }

  /** The blows, and then the dot's own movement. */
  function Closing(m: Maths, cfg: Config, s: DotState, keys: Keys, blows: seq<Blow>): Out {
    var o := BlownAll(m, cfg, s, blows);
    o.Then(Physics(m, cfg, o.s, keys))
  }

  /** The three parts of a step, each on the state the one before left, their events in order. */
  function Step(m: Maths, cfg: Config, s: DotState, keys: Keys, acts: seq<Act>, blows: seq<Blow>): Out {
    var o1 := Opening(m, cfg, s);
    var o2 := o1.Then(Acting(m, cfg, o1.s, acts));
    o2.Then(Closing(m, cfg, o2.s, keys, blows))
  }

  // Snapshots --------------------------------------------------------------------------------

  /** A dot's state without what its next step doesn't depend on: the last draws
      and the cooldowns at zero. */
  datatype Snapshot = Snapshot(
    n: int, motion: Motion, footing: Footing, orbit: Orbit, guard: Guard, feats: Feats,
    rng: int, cool: map<int, int>, debuffs: map<string, Debuff>,
    pending: Option<Pending>, volleys: seq<Volley>)

  function Cooling(cool: map<int, int>): map<int, int> {
    cool - (set k | k in cool && cool[k] <= 0)
  }

  function SnapshotOf(s: DotState): Snapshot {
    Snapshot(s.n, s.motion, s.footing, s.orbit, s.guard, s.feats, s.rng, Cooling(s.cool), s.debuffs, s.pending,
             s.volleys)
  }

  function Restored(s: DotState, p: Snapshot): DotState {
    DotState(p.n, p.motion, p.footing, p.orbit, p.guard, p.feats, p.rng, p.cool, p.debuffs, p.pending, p.volleys,
             s.draws)
  }
}
