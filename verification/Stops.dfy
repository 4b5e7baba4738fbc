/** What a stop of volleys leaves, and what a step does to volleys and strikes at
    the target stopped. */
module Stops {
  import opened Basics
  import opened Balance
  import opened Runs
  import opened Strikes

  /** What a stop is aimed at: a target, or everything. */
  predicate Aims(stop: Option<string>, target: Option<string>) { stop == None || target == stop }

  predicate NoneAt(volleys: seq<Volley>, stop: Option<string>) {
    forall i :: 0 <= i < |volleys| ==> !Aims(stop, volleys[i].target)
  }

  ghost predicate NoStruckAt(events: seq<Event>, stop: Option<string>) {
    forall i :: 0 <= i < |events| && events[i].Struck? ==> !Aims(stop, events[i].target)
  }

  /** Nothing buffered at the stop's target. */
  ghost predicate NoneBuffered(pending: Option<Pending>, stop: Option<string>) {
    pending.Some? ==> !Aims(stop, pending.value.target)
  }

  ghost predicate NoPress(acts: seq<Act>, stop: Option<string>) {
    forall i :: 0 <= i < |acts| && acts[i].Strike? ==> !Aims(stop, acts[i].target)
  }

  // A stop -----------------------------------------------------------------------------------

  /** A stop leaves no volley at its target, and every other where it was in order. */
  lemma {:induction false} StopLeavesNone(volleys: seq<Volley>, stop: Option<string>)
    ensures NoneAt(CancelVolleys(volleys, stop), stop)
    ensures NoneAt(volleys, stop) ==> CancelVolleys(volleys, stop) == volleys
    decreases |volleys|
  {
    if volleys != [] {
      StopLeavesNone(volleys[1..], stop);
      if NoneAt(volleys, stop) { assert NoneAt(volleys[1..], stop) && !Aims(stop, volleys[0].target); }
    }
  }

  // A step with no volley at the target ------------------------------------------------------

  lemma {:induction false} ActsBufferNone(cfg: Config, s: DotState, acts: seq<Act>, stop: Option<string>)
    requires NoneBuffered(s.pending, stop) && NoPress(acts, stop)
    ensures NoneBuffered(DoActs(cfg, s, acts).s.pending, stop)
    decreases |acts|
  {
    if acts != [] {
      var o := DoAct(cfg, s, acts[0]);
      assert NoPress(acts[1..], stop);
      assert NoneBuffered(o.s.pending, stop);
      ActsBufferNone(cfg, o.s, acts[1..], stop);
    }
  }

  lemma {:induction false} VolleysStayAway(cfg: Config, volleys: seq<Volley>, stop: Option<string>)
    requires NoneAt(volleys, stop)
    ensures NoneAt(VolleysNext(cfg, volleys), stop) && NoStruckAt(VolleysHit(cfg, volleys), stop)
    decreases |volleys|
  {
    if volleys != [] {
      assert !Aims(stop, volleys[0].target) && NoneAt(volleys[1..], stop);
      VolleysStayAway(cfg, volleys[1..], stop);
    }
  }

  lemma BufferedStaysAway(m: Maths, cfg: Config, s: DotState, stop: Option<string>)
    requires NoneBuffered(s.pending, stop) && NoneAt(s.volleys, stop)
    ensures var o := Buffered(m, cfg, s);
      NoneBuffered(o.s.pending, stop) && NoneAt(o.s.volleys, stop) && NoStruckAt(o.events, stop)
  {
    hide StrikeCheck, KnockOf, CoolAfter, WithDebuffIf, Tier, Breathed;
  }

  lemma QuietEnds(m: Maths, cfg: Config, s: DotState, i: Input, stop: Option<string>)
    ensures NoStruckAt(Opening(m, cfg, s).events, stop)
    ensures NoStruckAt(DoActs(cfg, AtActs(m, cfg, s), i.acts).events, stop)
    ensures NoStruckAt(Closing(m, cfg, AtBlows(m, cfg, s, i), i.keys, i.blows).events, stop)
  {
    hide Opening, Closing, DoActs, AtBlows;
    ClosingEvents(m, cfg, AtBlows(m, cfg, s, i), i.keys, i.blows);
    OpeningOnlyRecovers(m, cfg, s);
    var opening := Opening(m, cfg, s).events;
    forall k | 0 <= k < |opening| ensures !opening[k].Struck? { assert opening[k] in opening; }
    ActsFrame(cfg, AtActs(m, cfg, s), i.acts);
  }

  /** No press, no buffered press and no volley at a target: no strike lands on it
      in a step, and none is buffered or under way after it. */
  lemma StepStaysAway(m: Maths, cfg: Config, s: DotState, i: Input, stop: Option<string>)
    requires NoneBuffered(s.pending, stop) && NoPress(i.acts, stop) && NoneAt(s.volleys, stop)
    ensures var o := StepOn(m, cfg, s, i);
      NoneBuffered(o.s.pending, stop) && NoneAt(o.s.volleys, stop) && NoStruckAt(o.events, stop)
  {
    hide Opening, Closing, Buffered, DoActs, Step, StepOn, VolleysHit, VolleysNext, NoneAt, NoStruckAt, VolleyKicks;
    OpeningEvents(m, cfg, s);
    ActsFrame(cfg, AtActs(m, cfg, s), i.acts);
    ActsBufferNone(cfg, AtActs(m, cfg, s), i.acts, stop);
    BufferedStaysAway(m, cfg, AtStrike(m, cfg, s, i), stop);
    VolleysStayAway(cfg, AtVolleys(m, cfg, s, i).volleys, stop);
    QuietEnds(m, cfg, s, i, stop);
    StepFrame(m, cfg, s, i);
    StepEvents(m, cfg, s, i);
    var a, b, c := Opening(m, cfg, s).events, DoActs(cfg, AtActs(m, cfg, s), i.acts).events,
      Buffered(m, cfg, AtStrike(m, cfg, s, i)).events;
    var d, e := Volleys(m, cfg, AtVolleys(m, cfg, s, i)).events,
      Closing(m, cfg, AtBlows(m, cfg, s, i), i.keys, i.blows).events;
    NoStruckBoth(a, b, stop);
    NoStruckBoth(a + b, c, stop);
    NoStruckBoth(a + b + c, d, stop);
    NoStruckBoth(a + b + c + d, e, stop);
  }

  lemma NoStruckBoth(a: seq<Event>, b: seq<Event>, stop: Option<string>)
    requires NoStruckAt(a, stop) && NoStruckAt(b, stop)
    ensures NoStruckAt(a + b, stop)
  {
  }

  // A step with a volley at the target -------------------------------------------------------

  /** A volley lands in a step, or is there after it with one step less. */
  lemma {:induction false} LandsOrGoesOn(cfg: Config, volleys: seq<Volley>, i: nat)
    requires i < |volleys|
    ensures var v := volleys[i];
      if v.left > 1 then v.(left := v.left - 1) in VolleysNext(cfg, volleys)
      else Struck(v.slot, v.target, v.tier, v.hit, cfg.GearIn(v.slot).hits) in VolleysHit(cfg, volleys)
    decreases |volleys|
  {
    hide VolleyNext, VolleyHits;
    if i == 0 {
      OneLandsOrGoesOn(cfg, volleys[0]);
    } else {
      LandsOrGoesOn(cfg, volleys[1..], i - 1);
    }
  }

  lemma OneLandsOrGoesOn(cfg: Config, v: Volley)
    ensures if v.left > 1 then VolleyNext(cfg, v) == [v.(left := v.left - 1)]
      else VolleyHits(cfg, v) == [Struck(v.slot, v.target, v.tier, v.hit, cfg.GearIn(v.slot).hits)]
  {
  }

  lemma BufferedKeeps(m: Maths, cfg: Config, s: DotState)
    ensures s.volleys <= Buffered(m, cfg, s).s.volleys
  {
    hide StrikeCheck, KnockOf, CoolAfter, WithDebuffIf, Tier, Breathed;
  }

  lemma StepLandsOrGoesOn(m: Maths, cfg: Config, s: DotState, i: Input, k: nat)
    requires k < |s.volleys|
    ensures var o, v := StepOn(m, cfg, s, i), s.volleys[k];
      if v.left > 1 then v.(left := v.left - 1) in o.s.volleys
      else Struck(v.slot, v.target, v.tier, v.hit, cfg.GearIn(v.slot).hits) in o.events
  {
    hide Opening, Closing, Buffered, DoActs, Step, StepOn, VolleysHit, VolleysNext, VolleyKicks;
    OpeningEvents(m, cfg, s);
    ActsFrame(cfg, AtActs(m, cfg, s), i.acts);
    BufferedKeeps(m, cfg, AtStrike(m, cfg, s, i));
    LandsOrGoesOn(cfg, AtVolleys(m, cfg, s, i).volleys, k);
    StepFrame(m, cfg, s, i);
    StepEvents(m, cfg, s, i);
  }
}
