/** Dots with equal snapshots are bisimilar, so a dot restored from a snapshot
    carries on exactly as the dot it was taken of. */
module Snapshots {
  import opened Basics
  import opened Balance
  import opened Runs

  /** Alike for every purpose: two dots with the same snapshot. They may differ in
      their last draws, and in cooldowns that have run out. */
  ghost predicate Alike(a: DotState, b: DotState) {
    SnapshotOf(a) == SnapshotOf(b)
  }

  /** And with the same draws, as within a step. */
  ghost predicate AlikeNow(a: DotState, b: DotState) {
    Alike(a, b) && a.draws == b.draws
  }

  ghost predicate SameOut(o: Out, p: Out) {
    AlikeNow(o.s, p.s) && o.events == p.events
  }

  lemma CoolAlike(a: map<int, int>, b: map<int, int>, slot: int)
    requires Cooling(a) == Cooling(b)
    ensures Cool(a, slot) > 0 || Cool(b, slot) > 0 ==> Cool(a, slot) == Cool(b, slot)
  {
    assert slot in Cooling(a) <==> slot in Cooling(b);
    if slot in Cooling(a) { assert Cooling(a)[slot] == Cooling(b)[slot]; }
  }

  lemma CoolDownAlike(a: map<int, int>, b: map<int, int>)
    requires Cooling(a) == Cooling(b)
    ensures Cooling(CoolDown(a)) == Cooling(CoolDown(b))
  {
    forall k ensures k in Cooling(CoolDown(a)) <==> k in Cooling(CoolDown(b)) { CoolAlike(a, b, k); }
    forall k | k in Cooling(CoolDown(a)) ensures Cooling(CoolDown(a))[k] == Cooling(CoolDown(b))[k] {
      CoolAlike(a, b, k);
    }
  }

  lemma CoolAfterAt(cfg: Config, cool: map<int, int>, slot: int, k: int)
    ensures Cool(CoolAfter(cfg, cool, slot), k) ==
      if k == slot then Max(Steps(cfg.GearIn(slot).cooldown), SharedCooldown(cfg))
      else if k in cfg.slots && Cool(cool, k) < SharedCooldown(cfg) then
        (if k in cool || 0 < SharedCooldown(cfg) then SharedCooldown(cfg) else 0)
      else Cool(cool, k)
  {
  }

  lemma CoolAfterAlike(cfg: Config, a: map<int, int>, b: map<int, int>, slot: int)
    requires Cooling(a) == Cooling(b)
    ensures Cooling(CoolAfter(cfg, a, slot)) == Cooling(CoolAfter(cfg, b, slot))
  {
    var a', b' := CoolAfter(cfg, a, slot), CoolAfter(cfg, b, slot);
    forall k
      ensures Cool(a', k) > 0 <==> Cool(b', k) > 0
      ensures Cool(a', k) > 0 ==> Cool(a', k) == Cool(b', k)
    {
      CoolAlike(a, b, k);
      CoolAfterAt(cfg, a, slot, k);
      CoolAfterAt(cfg, b, slot, k);
    }
    assert forall k :: k in Cooling(a') <==> Cool(a', k) > 0;
    assert forall k :: k in Cooling(b') <==> Cool(b', k) > 0;
  }

  // Stage by stage -----------------------------------------------------------------------

  lemma OpeningAlike(m: Maths, cfg: Config, a: DotState, b: DotState)
    requires Alike(a, b)
    ensures SameOut(Opening(m, cfg, a), Opening(m, cfg, b))
  {
    CoolDownAlike(a.cool, b.cool);
  }

  lemma DoActAlike(cfg: Config, a: DotState, b: DotState, act: Act)
    requires AlikeNow(a, b)
    ensures SameOut(DoAct(cfg, a, act), DoAct(cfg, b, act))
  {
  }

  lemma {:induction false} DoActsAlike(cfg: Config, a: DotState, b: DotState, acts: seq<Act>)
    requires AlikeNow(a, b)
    ensures SameOut(DoActs(cfg, a, acts), DoActs(cfg, b, acts))
    decreases |acts|
  {
    if acts != [] {
      hide DoAct;
      DoActAlike(cfg, a, b, acts[0]);
      DoActsAlike(cfg, DoAct(cfg, a, acts[0]).s, DoAct(cfg, b, acts[0]).s, acts[1..]);
    }
  }

  lemma CheckAlike(m: Maths, cfg: Config, a: DotState, b: DotState, slot: int)
    requires AlikeNow(a, b)
    ensures StrikeCheck(m, cfg, a, slot) == StrikeCheck(m, cfg, b, slot)
  {
    CoolAlike(a.cool, b.cool, slot);
  }

  lemma StrikeAlike(m: Maths, cfg: Config, a: DotState, b: DotState, slot: int, target: Option<string>)
    requires AlikeNow(a, b)
    ensures SameOut(StrikeNow(m, cfg, a, slot, target), StrikeNow(m, cfg, b, slot, target))
  {
    CoolAfterAlike(cfg, a.cool, b.cool, slot);
  }

  lemma BufferedAlike(m: Maths, cfg: Config, a: DotState, b: DotState)
    requires AlikeNow(a, b)
    ensures SameOut(Buffered(m, cfg, a), Buffered(m, cfg, b))
  {
    if a.pending.Some? {
      var p := a.pending.value;
      CheckAlike(m, cfg, a, b, p.slot);
      if StrikeCheck(m, cfg, a, p.slot) == None { StrikeAlike(m, cfg, a, b, p.slot, p.target); }
    }
  }

  lemma {:induction false} KicksAlike(m: Maths, cfg: Config, a: DotState, b: DotState, volleys: seq<Volley>)
    requires AlikeNow(a, b)
    ensures AlikeNow(VolleyKicks(m, cfg, a, volleys), VolleyKicks(m, cfg, b, volleys))
    decreases |volleys|
  {
    if volleys != [] {
      hide KnockOf;
      KicksAlike(m, cfg, VolleyKick(m, cfg, a, volleys[0]), VolleyKick(m, cfg, b, volleys[0]), volleys[1..]);
    }
  }

  lemma VolleysAlike(m: Maths, cfg: Config, a: DotState, b: DotState)
    requires AlikeNow(a, b)
    ensures SameOut(Volleys(m, cfg, a), Volleys(m, cfg, b))
  {
    KicksAlike(m, cfg, a, b, a.volleys);
  }

  lemma IntoStaggerAlike(m: Maths, cfg: Config, a: DotState, b: DotState, angle: real)
    requires AlikeNow(a, b)
    ensures AlikeNow(IntoStagger(m, cfg, a, angle), IntoStagger(m, cfg, b, angle))
  {
    hide Back, Cooling;
  }

  lemma BlownOpenAlike(m: Maths, cfg: Config, a: DotState, b: DotState, blow: Blow)
    requires AlikeNow(a, b)
    ensures SameOut(BlownOpen(m, cfg, a, blow), BlownOpen(m, cfg, b, blow))
  {
    hide WithDebuffIf, Toward, Knocked, IntoStagger, Cooling, Pushed;
    var motion, feats := Pushed(a.motion, Toward(m, blow.kick, blow.angle)), Knocked(a.feats, blow.kick);
    var debuffs := WithDebuffIf(cfg, a.debuffs, blow.debuff);
    IntoStaggerAlike(m, cfg, a.(motion := motion, feats := feats, debuffs := debuffs),
                     b.(motion := motion, feats := feats, debuffs := debuffs), blow.angle);
  }

  lemma BlownAlike(m: Maths, cfg: Config, a: DotState, b: DotState, blow: Blow)
    requires AlikeNow(a, b)
    ensures SameOut(Blown1(m, cfg, a, blow), Blown1(m, cfg, b, blow))
  {
    hide WithDebuffIf, Toward, BlownOpen, Cooling, Pushed;
    BlownOpenAlike(m, cfg, a, b, blow);
  }

  lemma {:induction false} BlowsAlike(m: Maths, cfg: Config, a: DotState, b: DotState, blows: seq<Blow>)
    requires AlikeNow(a, b)
    ensures SameOut(BlownAll(m, cfg, a, blows), BlownAll(m, cfg, b, blows))
    decreases |blows|
  {
    if blows != [] {
      hide Blown1;
      BlownAlike(m, cfg, a, b, blows[0]);
      BlowsAlike(m, cfg, Blown1(m, cfg, a, blows[0]).s, Blown1(m, cfg, b, blows[0]).s, blows[1..]);
    }
  }

  lemma RimAlike(m: Maths, cfg: Config, a: DotState, b: DotState)
    requires AlikeNow(a, b)
    ensures SameOut(AtRim(m, cfg, a), AtRim(m, cfg, b))
  {
    hide Bounced, Dist, Fade, Back, Cooling;
  }

  lemma DriftAlike(m: Maths, cfg: Config, a: DotState, b: DotState, keys: Keys)
    requires AlikeNow(a, b)
    ensures AlikeNow(Drifted(m, cfg, a, keys), Drifted(m, cfg, b, keys))
  {
    assert Accelerated(m, cfg, a, keys) == Accelerated(m, cfg, b, keys);
  }

  lemma PhysicsAlike(m: Maths, cfg: Config, a: DotState, b: DotState, keys: Keys)
    requires AlikeNow(a, b)
    ensures SameOut(Physics(m, cfg, a, keys), Physics(m, cfg, b, keys))
  {
    if a.footing.stagger <= 0 {
      DriftAlike(m, cfg, a, b, keys);
      RimAlike(m, cfg, Drifted(m, cfg, a, keys), Drifted(m, cfg, b, keys));
    }
  }

  lemma ActingAlike(m: Maths, cfg: Config, a: DotState, b: DotState, acts: seq<Act>)
    requires AlikeNow(a, b)
    ensures SameOut(Acting(m, cfg, a, acts), Acting(m, cfg, b, acts))
  {
    hide DoActs, Buffered, Volleys;
    DoActsAlike(cfg, a, b, acts);
    var a1, b1 := DoActs(cfg, a, acts).s, DoActs(cfg, b, acts).s;
    BufferedAlike(m, cfg, a1, b1);
    VolleysAlike(m, cfg, Buffered(m, cfg, a1).s, Buffered(m, cfg, b1).s);
  }

  lemma ClosingAlike(m: Maths, cfg: Config, a: DotState, b: DotState, keys: Keys, blows: seq<Blow>)
    requires AlikeNow(a, b)
    ensures SameOut(Closing(m, cfg, a, keys, blows), Closing(m, cfg, b, keys, blows))
  {
    hide BlownAll, Physics;
    BlowsAlike(m, cfg, a, b, blows);
    PhysicsAlike(m, cfg, BlownAll(m, cfg, a, blows).s, BlownAll(m, cfg, b, blows).s, keys);
  }

  /** Alike is a bisimulation: dots that are alike do the same in a step, whatever
      the keys, acts and blows, and are alike (draws too) after it. */
  lemma StepAlike(m: Maths, cfg: Config, a: DotState, b: DotState, keys: Keys, acts: seq<Act>, blows: seq<Blow>)
    requires Alike(a, b)
    ensures SameOut(Step(m, cfg, a, keys, acts, blows), Step(m, cfg, b, keys, acts, blows))
  {
    hide Opening, Acting, Closing;
    OpeningAlike(m, cfg, a, b);
    var a1, b1 := Opening(m, cfg, a).s, Opening(m, cfg, b).s;
    ActingAlike(m, cfg, a1, b1, acts);
    ClosingAlike(m, cfg, Acting(m, cfg, a1, acts).s, Acting(m, cfg, b1, acts).s, keys, blows);
  }

  lemma CancelAlike(a: DotState, b: DotState, target: Option<string>)
    requires Alike(a, b)
    ensures Alike(Cancelled(a, target), Cancelled(b, target))
  {
  }

  // Runs ---------------------------------------------------------------------------------

  lemma {:induction false} RunAlike(m: Maths, cfg: Config, a: DotState, b: DotState, run: seq<Input>, k: nat)
    requires Alike(a, b) && k <= |run|
    ensures Alike(StateAt(m, cfg, a, run, k), StateAt(m, cfg, b, run, k))
    ensures k > 0 ==> EventsAt(m, cfg, a, run, k) == EventsAt(m, cfg, b, run, k)
  {
    hide Step;
    if k > 0 {
      RunAlike(m, cfg, a, b, run, k - 1);
      var i := run[k - 1];
      StepAlike(m, cfg, StateAt(m, cfg, a, run, k - 1), StateAt(m, cfg, b, run, k - 1), i.keys, i.acts, i.blows);
    }
  }

  /** A snapshot of a dot, restored into any dot of the same rules and gear, does
      what the first dot does: the same events at every step of every later run,
      and the same snapshot after it. */
  lemma RestoredCarriesOn(m: Maths, cfg: Config, s: DotState, other: DotState, run: seq<Input>)
    ensures var copy := Restored(other, SnapshotOf(s));
      forall k :: 0 <= k <= |run| ==>
        SnapshotOf(StateAt(m, cfg, copy, run, k)) == SnapshotOf(StateAt(m, cfg, s, run, k))
        && (k > 0 ==> EventsAt(m, cfg, copy, run, k) == EventsAt(m, cfg, s, run, k))
  {
    SnapshotsAreSnapshots(s);
    SnapshotRestored(other, SnapshotOf(s));
    forall k | 0 <= k <= |run|
      ensures SnapshotOf(StateAt(m, cfg, Restored(other, SnapshotOf(s)), run, k))
        == SnapshotOf(StateAt(m, cfg, s, run, k))
      ensures k > 0 ==> EventsAt(m, cfg, Restored(other, SnapshotOf(s)), run, k) == EventsAt(m, cfg, s, run, k)
    {
      RunAlike(m, cfg, Restored(other, SnapshotOf(s)), s, run, k);
    }
  }

  /** What a snapshot is: it holds no cooldown that has run out. */
  ghost predicate IsSnapshot(p: Snapshot) {
    p.cool == Cooling(p.cool)
  }

  /** Restoring a snapshot and taking one again gives the snapshot back. */
  lemma SnapshotRestored(other: DotState, p: Snapshot)
    ensures SnapshotOf(Restored(other, p)) == p <==> IsSnapshot(p)
  {
  }

  lemma SnapshotsAreSnapshots(s: DotState)
    ensures IsSnapshot(SnapshotOf(s))
  {
  }
}
