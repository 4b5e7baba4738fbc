/** The fight simulation's state as fields that methods change in place. Each
    method is proved to do what Balance says as a function. */
module Dots {
  import opened Basics
  import opened Balance

  class Dot {
    const m: Maths
    const cfg: Config
    var n: int
    var motion: Motion
    var footing: Footing
    var orbit: Orbit
    var guard: Guard
    var feats: Feats
    var rng: int
    var cool: map<int, int>
    var debuffs: map<string, Debuff>
    var pending: Option<Pending>
    var volleys: seq<Volley>
    var draws: Draws

    function State(): DotState
      reads this
    {
      DotState(n, motion, footing, orbit, guard, feats, rng, cool, debuffs, pending, volleys, draws)
    }

    /** Its well placed by the first three draws of the seed. */
    constructor (m: Maths, cfg: Config, seed: int)
      ensures this.m == m && this.cfg == cfg && State() == Start(m, cfg, seed)
    {
      hide Advance, RadiusAt, Around;
      this.m, this.cfg := m, cfg;
      var s := Advance(seed % 0x1_0000_0000);
      var a := Around(m, m.draw(s));
      s := Advance(s);
      var radius := RadiusAt(cfg, m.draw(s));
      s := Advance(s);
      orbit := Orbit(a, radius, radius, if m.draw(s) < 0.5 then -1 else 1);
      rng := s;
      n, motion, footing := 0, Motion(0.0, 0.0, 0.0, 0.0, 0.0), Footing(0, 0.0, 0.0, 0);
      guard, feats := Guard(0, 0, false, false, 0), Feats(0, false, false, true);
      cool, debuffs, pending, volleys := map[], map[], None, [];
      draws := Draws(0.0, 0.0, 0.0, 0.0);
    }

    /** The generator: mulberry32's additive state, and a number that depends on it alone. */
    method Next() returns (u: Unit)
      modifies this`rng
      ensures rng == Advance(old(rng)) && u == m.draw(rng)
    {
      rng := (rng + 0x6D2B79F5) % 0x1_0000_0000;
      u := m.draw(rng);
    }

    // Snapshots ----------------------------------------------------------------------------

    method TakeSnapshot() returns (snap: Snapshot)
      ensures snap == SnapshotOf(State())
    {
      var cooling := cool - (set k | k in cool && cool[k] <= 0);
      snap := Snapshot(n, motion, footing, orbit, guard, feats, rng, cooling, debuffs, pending, volleys);
    }

    method Restore(snap: Snapshot)
      modifies this
      ensures State() == Restored(old(State()), snap)
    {
      n, motion, footing, orbit := snap.n, snap.motion, snap.footing, snap.orbit;
      guard, feats, rng := snap.guard, snap.feats, snap.rng;
      cool, debuffs, pending, volleys := snap.cool, snap.debuffs, snap.pending, snap.volleys;
    }

    // Changes ------------------------------------------------------------------------------

    method AddDebuff(d: DebuffSpec)
      modifies this`debuffs
      ensures debuffs == WithDebuff(cfg, old(debuffs), d)
    {
      var total := DebuffSteps(cfg, d.ms);
      var strength: NonNegative := if d.kind in debuffs then MaxReal(d.strength, debuffs[d.kind].strength)
        else d.strength;
      debuffs := debuffs[d.kind := Debuff(strength, total, total)];
    }

    method ApplyKick(kick: real, pattern: Pattern, given: Option<real>) returns (angle: real)
      modifies this`motion, this`feats
      ensures State() == Kicked(m, old(State()), kick, pattern, given)
      ensures angle == KnockOf(m, draws.spare, kick, pattern, given).angle
    {
      var u := draws.spare;
      var d: Pair;
      if pattern == Side {
        d := Sideways(u, kick);
        angle := m.atan2(d.y, d.x);
      } else {
        angle := if given.Some? then given.value else Around(m, u);
        d := Toward(m, kick, angle);
      }
      if kick > 0.0 {
        feats := feats.(knocked := true);
      }
      motion := motion.(vx := motion.vx + d.x, vy := motion.vy + d.y);
    }

    method Stagger(angle: real)
      modifies this`motion, this`footing, this`feats
      ensures State() == IntoStagger(m, cfg, old(State()), angle)
    {
      motion := motion.(x := m.cos(angle), y := m.sin(angle));
      motion := motion.(vx := 0.0, vy := 0.0);
      footing := footing.(stagger := Steps(cfg.rules.staggerMs));
      feats := feats.(knocked := true);
      var back := Back(m, draws.spare, angle);
      footing := footing.(sx := back.x, sy := back.y);
    }

    /** Catches a stagger about to happen, once, for those with the perk. */
    method SteadyHands() returns (caught: bool, events: seq<Event>)
      modifies this`feats
      ensures caught == HandsSteady(cfg, old(feats))
      ensures feats == if caught then old(feats).(steadied := true) else old(feats)
      ensures events == if caught then [Steadied] else []
    {
      if "steady_hands" !in cfg.perks || feats.steadied {
        return false, [];
      }
      feats := feats.(steadied := true);
      return true, [Steadied];
    }

    method CancelVolleys(target: Option<string>)
      modifies this`volleys
      ensures State() == Cancelled(old(State()), target)
    {
      var keep := [];
      for i := 0 to |volleys|
        invariant volleys == old(volleys)
        invariant keep + Balance.CancelVolleys(volleys[i..], target) == Balance.CancelVolleys(volleys, target)
      {
        if target.Some? && volleys[i].target != target {
          keep := keep + [volleys[i]];
        }
        assert volleys[i..][1..] == volleys[i + 1..];
      }
      volleys := keep;
    }

    // Strikes ------------------------------------------------------------------------------

    /** A strike that may be done, done: what StrikeNow says of the state, and its one event. */
    method StrikeWith(slot: int, target: Option<string>) returns (events: seq<Event>)
      requires slot in cfg.slots
      modifies this
      ensures Out(State(), events) == StrikeNow(m, cfg, old(State()), slot, target)
    {
      hide Tier, CoolAfter, Breathed, WithDebuff, KnockOf;
      var gear := cfg.slots[slot];
      pending := None;
      var t := Tier(m, cfg, motion);
      Breathe(t);
      CoolSlots(slot);
      var angle := ApplyKick(gear.kick, gear.pattern, None);
      if gear.debuff.Some? {
        AddDebuff(gear.debuff.value);
      }
      events := [Struck(slot, target, t, 1, gear.hits)];
      StartVolley(Volley(slot, target, t, 2, Max(1, Steps(gear.gap)), angle), gear.hits);
    }

    /** The rest of a strike with several hits. */
    method StartVolley(v: Volley, hits: int)
      modifies this`volleys
      ensures volleys == old(volleys) + if hits > 1 then [v] else []
    {
      if hits > 1 {
        volleys := volleys + [v];
      }
    }

    /** Long Breath: a perfect strike's larger core. */
    method Breathe(t: int)
      modifies this`feats
      ensures feats == Breathed(cfg, old(feats), t)
    {
      if t == 2 && "long_breath" in cfg.perks {
        feats := feats.(breath := Steps(3000.0));
      }
    }

    method CoolSlots(slot: int)
      requires slot in cfg.slots
      modifies this`cool
      ensures cool == CoolAfter(cfg, old(cool), slot)
    {
      var shared := Steps(cfg.rules.globalCdMs);
      cool := CoolShared(cfg.slots.Keys, shared, cool);
      cool := cool[slot := Max(Steps(cfg.slots[slot].cooldown), shared)];
    }

    method FireBuffered() returns (events: seq<Event>)
      modifies this
      ensures Out(State(), events) == Buffered(m, cfg, old(State()))
    {
      hide StrikeNow, StrikeCheck;
      events := [];
      if pending.Some? {
        var p := pending.value;
        var why := Check(p.slot);
        if why == None {
          events := StrikeWith(p.slot, p.target);
        } else if why == Some(EmptySlot) || p.left <= 0 {
          pending := None;
          events := [StrikeRefused(p.slot, why.value)];
        } else {
          pending := Some(p.(left := p.left - 1));
        }
      }
    }

    /** The first reason against a strike with a slot; without one the slot has gear. */
    method Check(slot: int) returns (why: Option<Reason>)
      ensures why == StrikeCheck(m, cfg, State(), slot)
      ensures why == None ==> slot in cfg.slots
    {
      if footing.stagger > 0 {
        return Some(IsStaggered);
      }
      if guard.blocking || Dist(m, motion) > Core(cfg, feats.breath) {
        return Some(NotSteady);
      }
      if slot in cool && cool[slot] > 0 {
        return Some(OnCooldown);
      }
      if slot !in cfg.slots {
        return Some(EmptySlot);
      }
      return None;
    }

    method RunVolleys() returns (events: seq<Event>)
      modifies this`motion, this`feats, this`volleys
      ensures Out(State(), events) == Volleys(m, cfg, old(State()))
    {
      hide VolleyKick, VolleyNext, VolleyHits;
      var keep: seq<Volley> := [];
      events := [];
      for i := 0 to |volleys|
        invariant volleys == old(volleys)
        invariant VolleyKicks(m, cfg, State(), volleys[i..]) == VolleyKicks(m, cfg, old(State()), volleys)
        invariant keep + VolleysNext(cfg, volleys[i..]) == VolleysNext(cfg, volleys)
        invariant events + VolleysHit(cfg, volleys[i..]) == VolleysHit(cfg, volleys)
      {
        assert volleys[i..][0] == volleys[i] && volleys[i..][1..] == volleys[i + 1..];
        var left, hits := RunVolley(volleys[i]);
        keep, events := keep + left, events + hits;
      }
      volleys := keep;
    }

    /** One volley's step: it waits, or lands a hit and waits for the next. */
    method RunVolley(v: Volley) returns (keep: seq<Volley>, events: seq<Event>)
      modifies this`motion, this`feats
      ensures State() == VolleyKick(m, cfg, old(State()), v)
      ensures keep == VolleyNext(cfg, v) && events == VolleyHits(cfg, v)
    {
      if v.left - 1 > 0 {
        return [v.(left := v.left - 1)], [];
      }
      keep := [];
      var gear := cfg.GearIn(v.slot);
      var angle := ApplyKick(gear.kick, gear.pattern, if gear.pattern == Taps then Some(v.angle) else None);
      events := [Struck(v.slot, v.target, v.tier, v.hit, gear.hits)];
      if v.hit < gear.hits {
        keep := [v.(hit := v.hit + 1, left := Max(1, Steps(gear.gap)))];
      }
    }

    // Blows --------------------------------------------------------------------------------

    /** A blow met in one of five ways (Met). */
    method ApplyBlow(blow: Blow) returns (events: seq<Event>)
      modifies this`motion, this`footing, this`feats, this`debuffs
      ensures Out(State(), events) == Blown1(m, cfg, old(State()), blow)
    {
      if blow.parting {
        return [Blown(Parting, false)];
      }
      if guard.invuln > 0 && CanDodge(blow.defend) {
        return [Blown(Dodged, false)];
      }
      if guard.blocking && footing.stagger <= 0 && CanBlock(blow.defend) {
        var d := Toward(m, blow.kick * cfg.rules.blockKick, blow.angle);
        motion := motion.(vx := motion.vx + d.x, vy := motion.vy + d.y);
        var perfect := n - guard.blockN <= Steps(cfg.rules.defendPerfectMs);
        return [Blown(if perfect then PerfectBlock else Blocked, false)];
      }
      if footing.stagger > 0 {
        if blow.debuff.Some? {
          AddDebuff(blow.debuff.value);
        }
        return [Blown(WhileStaggered, false)];
      }
      events := TakeBlow(blow);
    }

    /** A blow neither met nor taken while staggered: the knock, the stagger, the debuff. */
    method TakeBlow(blow: Blow) returns (events: seq<Event>)
      modifies this`motion, this`footing, this`feats, this`debuffs
      ensures Out(State(), events) == BlownOpen(m, cfg, old(State()), blow)
    {
      hide Toward, WithDebuff, Back;
      var d := Toward(m, blow.kick, blow.angle);
      motion := motion.(vx := motion.vx + d.x, vy := motion.vy + d.y);
      if blow.kick > 0.0 {
        feats := feats.(knocked := true);
      }
      var staggers, caught := Totter(blow);
      if blow.debuff.Some? {
        AddDebuff(blow.debuff.value);
      }
      events := [Blown(Hit, staggers)] + caught + if staggers then [Staggered(ByBlow)] else [];
    }

    /** Whether a blow staggers; Steady Hands may catch it. */
    method Totter(blow: Blow) returns (staggers: bool, caught: seq<Event>)
      modifies this`motion, this`footing, this`feats
      ensures var s := old(State());
        if !WouldStagger(cfg, s, blow) then State() == s && !staggers && caught == []
        else if HandsSteady(cfg, s.feats) then
          State() == s.(feats := s.feats.(steadied := true)) && !staggers && caught == [Steadied]
        else State() == IntoStagger(m, cfg, s, blow.angle) && staggers && caught == []
    {
      staggers, caught := (blow.stagger || blow.kick >= cfg.rules.staggerKick) && footing.immune == 0, [];
      if staggers {
        var held, more := SteadyHands();
        if held {
          return false, more;
        }
        Stagger(blow.angle);
      }
    }

    method LandBlows(blows: seq<Blow>) returns (events: seq<Event>)
      modifies this`motion, this`footing, this`feats, this`debuffs
      ensures Out(State(), events) == BlownAll(m, cfg, old(State()), blows)
    {
      hide Blown1;
      events := [];
      for i := 0 to |blows|
        invariant Out(State(), events).Then(BlownAll(m, cfg, State(), blows[i..]))
          == BlownAll(m, cfg, old(State()), blows)
      {
        assert blows[i..][0] == blows[i] && blows[i..][1..] == blows[i + 1..];
        var more := ApplyBlow(blows[i]);
        events := events + more;
      }
    }

    // The stages of a step -----------------------------------------------------------------

    method RunTimers() returns (events: seq<Event>)
      modifies this`cool, this`guard, this`feats, this`footing, this`debuffs
      ensures Out(State(), events) == Timers(cfg, old(State()))
    {
      hide CoolDown, FadeAll, TimedGuard, TimedFooting, WithDebuff;
      cool := CoolDown(cool);
      if feats.breath > 0 {
        feats := feats.(breath := feats.breath - 1);
      }
      TimeGuard();
      events := TimeFooting();
      FadeDebuffs();
    }

    /** The dodge's timers, and its wobble when it ends. */
    method TimeGuard()
      modifies this`guard, this`debuffs
      ensures guard == TimedGuard(old(guard))
      ensures debuffs == if WobbleDue(old(guard))
        then WithDebuff(cfg, old(debuffs), DebuffSpec("wobble", 1.0, cfg.rules.wobbleMs)) else old(debuffs)
    {
      if guard.dodgeCd > 0 {
        guard := guard.(dodgeCd := guard.dodgeCd - 1);
      }
      if guard.invuln > 0 {
        guard := guard.(invuln := guard.invuln - 1);
        if guard.invuln == 0 && guard.wobbleAfter {
          guard := guard.(wobbleAfter := false);
          AddDebuff(DebuffSpec("wobble", 1.0, cfg.rules.wobbleMs));
        }
      }
    }

    method TimeFooting() returns (events: seq<Event>)
      modifies this`footing
      ensures footing == TimedFooting(cfg, old(footing))
      ensures events == if old(footing).stagger == 1 then [Recovered] else []
    {
      events := [];
      if footing.immune > 0 {
        footing := footing.(immune := footing.immune - 1);
      }
      if footing.stagger > 0 {
        footing := footing.(stagger := footing.stagger - 1);
        if footing.stagger == 0 {
          footing := footing.(immune := Steps(cfg.rules.staggerImmuneMs));
          events := [Recovered];
        }
      }
    }

    method FadeDebuffs()
      modifies this`debuffs
      ensures debuffs == FadeAll(old(debuffs))
    {
      var rest: set<string> := debuffs.Keys;
      while rest != {}
        invariant rest <= debuffs.Keys <= old(debuffs.Keys)
        invariant forall k :: k in old(debuffs) ==>
          if k in rest then k in debuffs && debuffs[k] == old(debuffs)[k]
          else
            (k in debuffs <==> k in FadeAll(old(debuffs))) && (k in debuffs ==> debuffs[k] == FadeAll(old(debuffs))[k])
      {
        var kind :| kind in rest;
        var d := debuffs[kind];
        if d.left - 1 <= 0 {
          debuffs := debuffs - {kind};
        } else {
          debuffs := debuffs[kind := d.(left := d.left - 1)];
        }
        rest := rest - {kind};
      }
    }

    method DrawAll()
      modifies this`rng, this`draws
      ensures State() == Drawn(m, old(State()))
    {
      var u1 := Next();
      var u2 := Next();
      var u3 := Next();
      var u4 := Next();
      draws := Draws(u1, u2, u3, u4);
    }

    method MoveWell()
      modifies this`orbit
      ensures State() == Well(m, cfg, old(State()))
    {
      var r := MinReal(1.0, Fade(debuffs, "reeling"));
      if draws.spin < TurnChance(r) {
        orbit := orbit.(spin := -orbit.spin);
      }
      if draws.radius < ShiftChance(r) {
        orbit := orbit.(target := NewRadius(cfg, draws.radius, ShiftChance(r)));
      }
      orbit := orbit.(r := EasedRadius(m, orbit.r, orbit.target));
      orbit := orbit.(a := orbit.a + RoundBy(cfg, orbit.spin, r));
    }

    method ActOn(act: Act) returns (events: seq<Event>)
      modifies this`pending, this`guard
      ensures Out(State(), events) == DoAct(cfg, old(State()), act)
    {
      events := [];
      match act {
        case Strike(slot, target) =>
          pending := Some(Pending(slot, target, Steps(cfg.rules.bufferMs)));
        case Dodge =>
          var why := if footing.stagger > 0 then Some(IsStaggered) else if guard.blocking then Some(IsBlocking)
                     else if guard.dodgeCd > 0 then Some(OnCooldown) else None;
          if why.Some? {
            return [Refused(Dodge, why.value)];
          }
          guard := guard.(invuln := Steps(cfg.rules.dodgeMs));
          guard := guard.(dodgeCd := Steps(cfg.rules.dodgeCdMs));
          guard := guard.(wobbleAfter := true);
          events := [DodgeStarted];
        case Block =>
          if !cfg.shield {
            events := [Refused(Block, NoShield)];
          } else if !guard.blocking {
            guard := guard.(blocking := true);
            guard := guard.(blockN := n);
          }
        case Unblock =>
          guard := guard.(blocking := false);
      }
    }

    method ActOnAll(acts: seq<Act>) returns (events: seq<Event>)
      modifies this`pending, this`guard
      ensures Out(State(), events) == DoActs(cfg, old(State()), acts)
    {
      hide DoAct;
      events := [];
      for i := 0 to |acts|
        invariant Out(State(), events).Then(DoActs(cfg, State(), acts[i..])) == DoActs(cfg, old(State()), acts)
      {
        assert acts[i..][0] == acts[i] && acts[i..][1..] == acts[i + 1..];
        var more := ActOn(acts[i]);
        events := events + more;
      }
    }

    // Movement -----------------------------------------------------------------------------

    method Wobble()
      modifies this`motion
      ensures motion == Wobbled(m, old(motion), Fade(debuffs, "wobble"), Calm(guard), Around(m, draws.wobble))
    {
      var wob := Fade(debuffs, "wobble");
      if wob > 0.0 {
        motion := motion.(wobbleClock := motion.wobbleClock + 1.0 / 60.0);
        if motion.wobbleClock >= 0.07 {
          motion := motion.(wobbleClock := motion.wobbleClock - 0.07);
          var d := Toward(m, WobbleKick(wob, Calm(guard)), Around(m, draws.wobble));
          motion := motion.(vx := motion.vx + d.x, vy := motion.vy + d.y);
        }
      } else {
        motion := motion.(wobbleClock := 0.0);
      }
    }

    /** Gravity, push, wobble, damping and the move itself. */
    method Drift(keys: Keys)
      modifies this`motion
      ensures State() == Drifted(m, cfg, old(State()), keys)
    {
      hide Accelerated, Wobbled, Moved, Damp;
      Accelerate(keys);
      Wobble();
      DampAndMove();
    }

    method Accelerate(keys: Keys)
      modifies this`motion
      ensures motion == Accelerated(m, cfg, old(State()), keys)
    {
      var d := OneStep(Gravity(m, cfg, motion, orbit, Reeling(debuffs), Calm(guard)),
                       Push(m, cfg, guard, debuffs, keys));
      motion := motion.(vx := motion.vx + d.x, vy := motion.vy + d.y);
    }

    method DampAndMove()
      modifies this`motion
      ensures motion == Moved(old(motion), Damp(m, cfg, guard))
    {
      var damp := m.exp(-(if guard.blocking then cfg.rules.blockDamping else cfg.rules.damping) / 60.0);
      motion := motion.(vx := motion.vx * damp, vy := motion.vy * damp);
      motion := motion.(x := motion.x + motion.vx / 60.0, y := motion.y + motion.vy / 60.0);
    }

    method MeetRim() returns (events: seq<Event>)
      modifies this`motion, this`footing, this`feats
      ensures Out(State(), events) == AtRim(m, cfg, old(State()))
    {
      events := [];
      var d := Dist(m, motion);
      if d >= 1.0 {
        var nx, ny := motion.x / d, motion.y / d;
        var bounces := Fade(debuffs, "wobble") > 0.15 || footing.immune > 0;
        if !bounces {
          bounces, events := SteadyHands();
        }
        if bounces {
          Bounce(nx, ny);
        } else {
          Stagger(m.atan2(ny, nx));
          events := [Staggered(ByRim)];
        }
      }
    }

    method Bounce(nx: real, ny: real)
      modifies this`motion
      ensures motion == Bounced(old(motion), nx, ny)
    {
      if Outward(motion, nx, ny) > 0.0 {
        motion := Reflected(motion, nx, ny);
      }
      motion := motion.(x := nx * 0.999, y := ny * 0.999);
    }

    method Settle() returns (events: seq<Event>)
      modifies this`feats
      ensures Out(State(), events) == Settled(m, cfg, old(State()))
    {
      events := [];
      var inside := footing.stagger == 0 && Dist(m, motion) <= Core(cfg, feats.breath);
      if inside && !feats.inside && feats.knocked {
        feats := feats.(knocked := false);
        if "second_wind" in cfg.perks {
          events := [SecondWind];
        }
      }
      feats := feats.(inside := inside);
    }

    method Move(keys: Keys) returns (events: seq<Event>)
      modifies this`motion, this`footing, this`feats
      ensures Out(State(), events) == Physics(m, cfg, old(State()), keys)
    {
      hide Drifted, AtRim, Settled, EaseToward, Ease;
      if footing.stagger > 0 {
        var ease := Ease(m);
        motion := motion.(x := EaseToward(motion.x, footing.sx, ease), y := EaseToward(motion.y, footing.sy, ease));
        motion := motion.(vx := 0.0, vy := 0.0);
        feats := feats.(inside := false);
        return [];
      }
      Drift(keys);
      events := MeetRim();
      var more := Settle();
      events := events + more;
    }

    /** One step: the whole new state, and the events, are those of Balance.Step. */
    method Step(keys: Keys, acts: seq<Act>, blows: seq<Blow>) returns (events: seq<Event>)
      modifies this
      ensures Out(State(), events) == Balance.Step(m, cfg, old(State()), keys, acts, blows)
    {
      hide Opening, Acting, Closing;
      events := Open();
      var more := ActAndStrike(acts);
      events := events + more;
      more := Close(keys, blows);
      events := events + more;
    }

    method Open() returns (events: seq<Event>)
      modifies this
      ensures Out(State(), events) == Opening(m, cfg, old(State()))
    {
      hide Timers, Drawn, Well;
      n := n + 1;
      events := RunTimers();
      DrawAll();
      MoveWell();
    }

    method ActAndStrike(acts: seq<Act>) returns (events: seq<Event>)
      modifies this
      ensures Out(State(), events) == Acting(m, cfg, old(State()), acts)
    {
      hide DoActs, Buffered, Volleys;
      events := ActOnAll(acts);
      var more := FireBuffered();
      events := events + more;
      more := RunVolleys();
      events := events + more;
    }

    method Close(keys: Keys, blows: seq<Blow>) returns (events: seq<Event>)
      modifies this`motion, this`footing, this`feats, this`debuffs
      ensures Out(State(), events) == Closing(m, cfg, old(State()), keys, blows)
    {
      hide BlownAll, Physics;
      events := LandBlows(blows);
      var more := Move(keys);
      events := events + more;
    }
  }
}
