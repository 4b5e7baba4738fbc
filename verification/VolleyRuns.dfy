/** A volley delivers its hits exactly: one after another at the gear's gap, at
    the press's tier and target, whatever else happens to the dot meanwhile, until a
    stop is aimed at its target. */
module VolleyRuns {
  import opened Basics
  import opened Balance
  import opened Runs
  import opened Stops
  import opened Strikes

  // Volleys don't affect each other ----------------------------------------------------------

  lemma {:induction false} NextConcat(cfg: Config, a: seq<Volley>, b: seq<Volley>)
    ensures VolleysNext(cfg, a + b) == VolleysNext(cfg, a) + VolleysNext(cfg, b)
    ensures VolleysHit(cfg, a + b) == VolleysHit(cfg, a) + VolleysHit(cfg, b)
    decreases |a|
  {
    hide VolleyNext, VolleyHits;
    if a == [] {
      assert a + b == b;
    } else {
      assert (a + b)[1..] == a[1..] + b;
      NextConcat(cfg, a[1..], b);
    }
  }

  /** What some volleys come to in n steps of their own. */
  function Later(cfg: Config, volleys: seq<Volley>, n: nat): seq<Volley> {
    if n == 0 then volleys else VolleysNext(cfg, Later(cfg, volleys, n - 1))
  }

  // One volley's schedule ----------------------------------------------------------------------

  /** A volley as its press starts it: its second hit is due in a gap. */
  ghost predicate JustStarted(cfg: Config, v: Volley) {
    v.hit == 2 && v.left == Gap(cfg.GearIn(v.slot)) && cfg.GearIn(v.slot).hits > 1
  }

  /** The volley after q whole gaps and r steps more, if hits are left. */
  function Scheduled(cfg: Config, v: Volley, q: nat, r: nat): seq<Volley>
    requires r < Gap(cfg.GearIn(v.slot))
  {
    if q + 2 <= cfg.GearIn(v.slot).hits then [v.(hit := q + 2, left := Gap(cfg.GearIn(v.slot)) - r)] else []
  }

  lemma ScheduleTick(cfg: Config, v: Volley, q: nat, r: nat)
    requires r < Gap(cfg.GearIn(v.slot))
    ensures VolleysNext(cfg, Scheduled(cfg, v, q, r)) ==
      if r + 1 < Gap(cfg.GearIn(v.slot)) then Scheduled(cfg, v, q, r + 1) else Scheduled(cfg, v, q + 1, 0)
    ensures VolleysHit(cfg, Scheduled(cfg, v, q, r)) ==
      if r + 1 < Gap(cfg.GearIn(v.slot)) || q + 2 > cfg.GearIn(v.slot).hits then []
      else [Struck(v.slot, v.target, v.tier, q + 2, cfg.GearIn(v.slot).hits)]
  {
    var l := Scheduled(cfg, v, q, r);
    if l != [] { assert l == [l[0]] && l[1..] == []; }
  }

  lemma {:induction false} ScheduleAt(cfg: Config, v: Volley, q: nat, r: nat)
    requires JustStarted(cfg, v) && r < Gap(cfg.GearIn(v.slot))
    ensures q * Gap(cfg.GearIn(v.slot)) >= 0
    ensures Later(cfg, [v], q * Gap(cfg.GearIn(v.slot)) + r) == Scheduled(cfg, v, q, r)
    decreases q, r
  {
    hide VolleysNext, Scheduled;
    var g: int := Gap(cfg.GearIn(v.slot));
    GapsNonNegative(q, g);
    if r > 0 {
      ScheduleAt(cfg, v, q, r - 1);
      ScheduleTick(cfg, v, q, r - 1);
    } else if q > 0 {
      ScheduleAt(cfg, v, q - 1, g - 1);
      ScheduleTick(cfg, v, q - 1, g - 1);
      OneGapBack(q, g);
    } else {
      FirstScheduled(cfg, v);
    }
  }

  lemma FirstScheduled(cfg: Config, v: Volley)
    requires JustStarted(cfg, v)
    ensures Scheduled(cfg, v, 0, 0) == [v]
  {
  }

  lemma GapsNonNegative(q: nat, g: Positive)
    ensures 0 <= q * g
  {
  }

  lemma OneGapBack(q: nat, g: Positive)
    requires q > 0
    ensures (q - 1) * g + (g - 1) == q * g - 1
  {
  }

  /** A step count as whole gaps and a rest. */
  lemma {:induction false} InGaps(n: nat, g: Positive) returns (q: nat, r: nat)
    ensures r < g && n == q * g + r
  {
    if n < g {
      q, r := 0, n;
    } else {
      var q', r' := InGaps(n - g, g);
      q, r := q' + 1, r';
    }
  }

  /** Hit h is due in the n-th step of a volley's life. */
  predicate Due(h: int, g: Positive, n: int) { (h - 1) * g == n }

  /** A volley on its own lands hit h in step (h - 1) × gap of its life, counting
      the press's as step 1, for each h from 2 to its hits, and nothing else. */
  lemma ScheduleExact(cfg: Config, v: Volley, n: nat)
    requires JustStarted(cfg, v) && n >= 1
    ensures var hits, g := cfg.GearIn(v.slot).hits, Gap(cfg.GearIn(v.slot));
      || (VolleysHit(cfg, Later(cfg, [v], n - 1)) == [] && forall h :: 2 <= h <= hits ==> !Due(h, g, n))
      || exists h :: 2 <= h <= hits && Due(h, g, n)
           && VolleysHit(cfg, Later(cfg, [v], n - 1)) == [Struck(v.slot, v.target, v.tier, h, hits)]
  {
    hide VolleysHit, Later;
    var hits, g := cfg.GearIn(v.slot).hits, Gap(cfg.GearIn(v.slot));
    var q, r := InGaps(n - 1, g);
    ScheduleAt(cfg, v, q, r);
    ScheduleTick(cfg, v, q, r);
    if r + 1 == g && q + 2 <= hits {
      var h := q + 2;
      OneGapBack(q + 1, g);
      assert Due(h, g, n);
    } else {
      forall h | 2 <= h <= hits ensures !Due(h, g, n) { NotAGap(q, r, g, h - 1, hits - 1); }
    }
  }

  lemma NotAGap(q: nat, r: nat, g: Positive, h: int, most: int)
    requires r < g && 1 <= h <= most
    requires r + 1 < g || q + 1 > most
    ensures h * g != q * g + r + 1
  {
    if h <= q { GapsOrdered(h, q, g); } else { GapsOrdered(q + 1, h, g); }
  }

  lemma GapsOrdered(a: int, b: int, g: Positive)
    requires a <= b
    ensures a * g <= b * g
    ensures (a + 1) * g == a * g + g
  {
    assert (b - a) * g >= 0;
  }

  // In a run ---------------------------------------------------------------------------------

  /** What a step's strike adds to the volleys. */
  lemma BufferedAdds(m: Maths, cfg: Config, s: DotState) returns (born: seq<Volley>)
    ensures Buffered(m, cfg, s).s.volleys == s.volleys + born
    ensures |born| <= 1 && forall i :: 0 <= i < |born| ==> JustStarted(cfg, born[i])
    ensures forall e :: e in Buffered(m, cfg, s).events && e.Struck? && e.hits > 1 ==>
      |born| == 1 && born[0].slot == e.slot && born[0].target == e.target && born[0].tier == e.tier
    ensures born != [] ==> exists e :: e in Buffered(m, cfg, s).events && e.Struck? && e.hits > 1
  {
    var t := Buffered(m, cfg, s).s.volleys;
    born := t[|s.volleys|..];
    if born != [] { assert Buffered(m, cfg, s).events[0].Struck?; }
  }

  lemma StepAdds(m: Maths, cfg: Config, s: DotState, i: Input) returns (born: seq<Volley>)
    ensures AtVolleys(m, cfg, s, i).volleys == s.volleys + born
    ensures StepOn(m, cfg, s, i).s.volleys == VolleysNext(cfg, s.volleys + born)
    ensures |born| <= 1 && forall k :: 0 <= k < |born| ==> JustStarted(cfg, born[k])
    ensures forall e :: e in Buffered(m, cfg, AtStrike(m, cfg, s, i)).events && e.Struck? && e.hits > 1 ==>
      |born| == 1 && born[0].slot == e.slot && born[0].target == e.target && born[0].tier == e.tier
  {
    hide Opening, Closing, Buffered, DoActs, Step, VolleysNext;
    OpeningEvents(m, cfg, s);
    ActsFrame(cfg, AtActs(m, cfg, s), i.acts);
    born := BufferedAdds(m, cfg, AtStrike(m, cfg, s, i));
    StepFrame(m, cfg, s, i);
  }

  // Runs with stops ----------------------------------------------------------------------------

  /** Volleys stopped at some targets, one after another, and then a step. */
  datatype Turn = Turn(stops: seq<Option<string>>, input: Input)

  function AllStopped(volleys: seq<Volley>, stops: seq<Option<string>>): seq<Volley>
    decreases |stops|
  {
    if stops == [] then volleys else AllStopped(CancelVolleys(volleys, stops[0]), stops[1..])
  }

  /** The state after the first k turns. */
  function TurnedTo(m: Maths, cfg: Config, s: DotState, run: seq<Turn>, k: nat): DotState
    requires k <= |run|
    decreases k, 1
  {
    if k == 0 then s else StepOn(m, cfg, BeforeStep(m, cfg, s, run, k), run[k - 1].input).s
  }

  /** And as the k-th turn's step begins, its stops made. */
  function BeforeStep(m: Maths, cfg: Config, s: DotState, run: seq<Turn>, k: nat): DotState
    requires 1 <= k <= |run|
    decreases k, 0
  {
    var t := TurnedTo(m, cfg, s, run, k - 1);
    t.(volleys := AllStopped(t.volleys, run[k - 1].stops))
  }

  function TurnEvents(m: Maths, cfg: Config, s: DotState, run: seq<Turn>, k: nat): seq<Event>
    requires 1 <= k <= |run|
  {
    StepOn(m, cfg, BeforeStep(m, cfg, s, run, k), run[k - 1].input).events
  }

  /** The volleys as the k-th turn's step comes to them. */
  function VolleysAt(m: Maths, cfg: Config, s: DotState, run: seq<Turn>, k: nat): seq<Volley>
    requires 1 <= k <= |run|
  {
    AtVolleys(m, cfg, BeforeStep(m, cfg, s, run, k), run[k - 1].input).volleys
  }

  /** What volleys of the i-th turn come to n turns later on their own, stops and all. */
  function Carried(cfg: Config, volleys: seq<Volley>, run: seq<Turn>, i: nat, n: nat): seq<Volley>
    requires i + n <= |run|
  {
    if n == 0 then volleys else AllStopped(VolleysNext(cfg, Carried(cfg, volleys, run, i, n - 1)), run[i + n - 1].stops)
  }

  /** None of the stops of the n turns after the i-th is aimed at a target. */
  ghost predicate Spared(run: seq<Turn>, i: nat, n: nat, target: Option<string>)
    requires i + n <= |run|
  {
    forall j :: i <= j < i + n ==> NotAimed(run[j].stops, target)
  }

  ghost predicate NotAimed(stops: seq<Option<string>>, target: Option<string>) {
    forall k :: 0 <= k < |stops| ==> !Aims(stops[k], target)
  }

  // Stops volley by volley -----------------------------------------------------------------------

  lemma {:induction false} CancelConcat(a: seq<Volley>, b: seq<Volley>, stop: Option<string>)
    ensures CancelVolleys(a + b, stop) == CancelVolleys(a, stop) + CancelVolleys(b, stop)
    decreases |a|
  {
    if a == [] {
      assert a + b == b;
    } else {
      assert (a + b)[1..] == a[1..] + b;
      CancelConcat(a[1..], b, stop);
    }
  }

  lemma {:induction false} StoppedConcat(a: seq<Volley>, b: seq<Volley>, stops: seq<Option<string>>)
    ensures AllStopped(a + b, stops) == AllStopped(a, stops) + AllStopped(b, stops)
    decreases |stops|
  {
    hide CancelVolleys;
    if stops != [] {
      CancelConcat(a, b, stops[0]);
      StoppedConcat(CancelVolleys(a, stops[0]), CancelVolleys(b, stops[0]), stops[1..]);
    }
  }

  /** At most one volley, at a target. */
  ghost predicate AtMostOneAt(volleys: seq<Volley>, target: Option<string>) {
    |volleys| <= 1 && (volleys != [] ==> volleys[0].target == target)
  }

  /** One volley and some stops: untouched by those aimed elsewhere, gone if any is aimed at it. */
  lemma {:induction false} OneStopped(volleys: seq<Volley>, stops: seq<Option<string>>, target: Option<string>)
    requires AtMostOneAt(volleys, target)
    ensures AllStopped(volleys, stops) == if NotAimed(stops, target) then volleys else []
    decreases |stops|
  {
    if stops != [] {
      var left := CancelVolleys(volleys, stops[0]);
      assert left == if Aims(stops[0], target) then [] else volleys by { OneCancelled(volleys, stops[0], target); }
      OneStopped(left, stops[1..], target);
      if NotAimed(stops, target) {
        assert !Aims(stops[0], target);
        assert NotAimed(stops[1..], target);
      } else if !Aims(stops[0], target) {
        assert !NotAimed(stops[1..], target) by {
          var k :| 0 <= k < |stops| && Aims(stops[k], target);
          assert stops[1..][k - 1] == stops[k];
        }
      }
    }
  }

  lemma OneCancelled(volleys: seq<Volley>, stop: Option<string>, target: Option<string>)
    requires AtMostOneAt(volleys, target)
    ensures CancelVolleys(volleys, stop) == if Aims(stop, target) then [] else volleys
  {
    if volleys != [] { assert volleys[1..] == []; }
  }

  lemma OneNext(cfg: Config, volleys: seq<Volley>, target: Option<string>)
    requires AtMostOneAt(volleys, target)
    ensures AtMostOneAt(VolleysNext(cfg, volleys), target)
  {
    if volleys != [] { assert volleys[1..] == []; }
  }

  /** A volley on its own: on its schedule while it's spared, gone for good once it isn't. */
  lemma {:induction false} CarriedIs(cfg: Config, v: Volley, run: seq<Turn>, i: nat, n: nat)
    requires i + n <= |run|
    ensures Carried(cfg, [v], run, i, n) == if Spared(run, i, n, v.target) then Later(cfg, [v], n) else []
    ensures AtMostOneAt(Carried(cfg, [v], run, i, n), v.target)
    decreases n
  {
    hide VolleysNext, AllStopped, NotAimed;
    if n > 0 {
      CarriedIs(cfg, v, run, i, n - 1);
      var was := Carried(cfg, [v], run, i, n - 1);
      OneNext(cfg, was, v.target);
      OneStopped(VolleysNext(cfg, was), run[i + n - 1].stops, v.target);
      SparedMore(run, i, n, v.target);
      NothingNext(cfg);
    }
  }

  lemma SparedMore(run: seq<Turn>, i: nat, n: nat, target: Option<string>)
    requires 1 <= n && i + n <= |run|
    ensures Spared(run, i, n, target) <==> Spared(run, i, n - 1, target) && NotAimed(run[i + n - 1].stops, target)
  {
    hide NotAimed;
  }

  lemma NothingNext(cfg: Config)
    ensures VolleysNext(cfg, []) == []
  {
  }

  // Among other volleys --------------------------------------------------------------------------

  /** Any volleys among those of the i-th turn carry on as on their own: n turns
      later what's left of them stands in its place among the rest. */
  lemma {:induction false} VolleysCarryOn(m: Maths, cfg: Config, s: DotState, run: seq<Turn>, i: nat, n: nat,
                                          before: seq<Volley>, these: seq<Volley>, after: seq<Volley>)
    returns (rest: seq<Volley>)
    requires 1 <= i && i + n <= |run|
    requires VolleysAt(m, cfg, s, run, i) == before + these + after
    ensures VolleysAt(m, cfg, s, run, i + n) == Carried(cfg, before, run, i, n) + Carried(cfg, these, run, i, n) + rest
    decreases n
  {
    hide VolleysNext, VolleysAt, AllStopped;
    if n == 0 {
      rest := after;
    } else {
      var rest' := VolleysCarryOn(m, cfg, s, run, i, n - 1, before, these, after);
      var born := VolleysStep(m, cfg, s, run, i + n - 1);
      var stops := run[i + n - 1].stops;
      rest := AllStopped(VolleysNext(cfg, rest'), stops) + born;
      NextOfThree(cfg, Carried(cfg, before, run, i, n - 1), Carried(cfg, these, run, i, n - 1), rest', stops, born);
    }
  }

  lemma NextOfThree(cfg: Config, a: seq<Volley>, b: seq<Volley>, c: seq<Volley>, stops: seq<Option<string>>,
                    born: seq<Volley>)
    ensures AllStopped(VolleysNext(cfg, a + b + c), stops) + born ==
      AllStopped(VolleysNext(cfg, a), stops) + AllStopped(VolleysNext(cfg, b), stops)
        + (AllStopped(VolleysNext(cfg, c), stops) + born)
  {
    hide VolleysNext, AllStopped;
    NextConcat(cfg, a + b, c);
    NextConcat(cfg, a, b);
    var x, y, z := VolleysNext(cfg, a), VolleysNext(cfg, b), VolleysNext(cfg, c);
    StoppedConcat(x + y, z, stops);
    StoppedConcat(x, y, stops);
    LastTwo(AllStopped(x, stops) + AllStopped(y, stops), AllStopped(z, stops), born);
  }

  lemma LastTwo(x: seq<Volley>, y: seq<Volley>, z: seq<Volley>)
    ensures x + y + z == x + (y + z)
  {
  }

  lemma VolleysStep(m: Maths, cfg: Config, s: DotState, run: seq<Turn>, k: nat) returns (born: seq<Volley>)
    requires 1 <= k < |run|
    ensures VolleysAt(m, cfg, s, run, k + 1)
      == AllStopped(VolleysNext(cfg, VolleysAt(m, cfg, s, run, k)), run[k].stops) + born
  {
    hide StepOn, AtVolleys, VolleysNext, AllStopped;
    var adding := StepAdds(m, cfg, BeforeStep(m, cfg, s, run, k), run[k - 1].input);
    assert TurnedTo(m, cfg, s, run, k) == StepOn(m, cfg, BeforeStep(m, cfg, s, run, k), run[k - 1].input).s;
    assert BeforeStep(m, cfg, s, run, k + 1).volleys == AllStopped(TurnedTo(m, cfg, s, run, k).volleys, run[k].stops);
    born := StepAdds(m, cfg, BeforeStep(m, cfg, s, run, k + 1), run[k].input);
  }

  // Stops keep what's true of every volley -------------------------------------------------------

  lemma {:induction false} CancelledAreSome(volleys: seq<Volley>, stop: Option<string>)
    ensures forall v :: v in CancelVolleys(volleys, stop) ==> v in volleys
    decreases |volleys|
  {
    if volleys != [] { CancelledAreSome(volleys[1..], stop); }
  }

  lemma {:induction false} StoppedAreSome(volleys: seq<Volley>, stops: seq<Option<string>>)
    ensures forall v :: v in AllStopped(volleys, stops) ==> v in volleys
    decreases |stops|
  {
    hide CancelVolleys;
    if stops != [] {
      CancelledAreSome(volleys, stops[0]);
      StoppedAreSome(CancelVolleys(volleys, stops[0]), stops[1..]);
    }
  }

  lemma StoppedStayLater(volleys: seq<Volley>, stops: seq<Option<string>>)
    requires LaterHits(volleys)
    ensures LaterHits(AllStopped(volleys, stops))
  {
    hide AllStopped;
    StoppedAreSome(volleys, stops);
    var left := AllStopped(volleys, stops);
    forall i | 0 <= i < |left| ensures left[i].hit >= 2 { assert left[i] in left; }
  }

  lemma {:induction false} TurnsStayLater(m: Maths, cfg: Config, s: DotState, run: seq<Turn>, k: nat)
    requires LaterHits(s.volleys) && k <= |run|
    ensures LaterHits(TurnedTo(m, cfg, s, run, k).volleys)
    ensures k > 0 ==> LaterHits(BeforeStep(m, cfg, s, run, k).volleys)
    decreases k
  {
    hide StepOn, AllStopped, LaterHits;
    if k > 0 {
      TurnsStayLater(m, cfg, s, run, k - 1);
      StoppedStayLater(TurnedTo(m, cfg, s, run, k - 1).volleys, run[k - 1].stops);
      StepStaysLater(m, cfg, BeforeStep(m, cfg, s, run, k), run[k - 1].input);
    }
  }

  // What a press delivers ------------------------------------------------------------------------

  /** A first hit of gear with several hits starts a volley, and in the n-th turn
      of its life (the press's own being the first) the later hits of the step
      are: those of the volleys before it, then its own, then those of volleys
      started since. Its own, while no stop has been aimed at its target: hit h
      when n is (h - 1) × gap, none otherwise, whatever volleys at other targets
      were stopped. Once one has, nothing more. */
  lemma VolleyDelivers(m: Maths, cfg: Config, s: DotState, run: seq<Turn>, i: nat, n: nat, first: Event)
    returns (before: seq<Volley>, v: Volley, rest: seq<Volley>)
    requires LaterHits(s.volleys) && 1 <= i && 1 <= n && i + n - 1 <= |run|
    requires first in TurnEvents(m, cfg, s, run, i) && first.Struck? && first.hit == 1 && first.hits > 1
    ensures JustStarted(cfg, v) && v.slot == first.slot && v.target == first.target && v.tier == first.tier
    ensures VolleysHit(cfg, VolleysAt(m, cfg, s, run, i + n - 1)) ==
      VolleysHit(cfg, Carried(cfg, before, run, i, n - 1)) + VolleysHit(cfg, Carried(cfg, [v], run, i, n - 1))
        + VolleysHit(cfg, rest)
    ensures var hits, g, own := cfg.GearIn(v.slot).hits, Gap(cfg.GearIn(v.slot)),
      VolleysHit(cfg, Carried(cfg, [v], run, i, n - 1));
      if Spared(run, i, n - 1, first.target) then
        || (own == [] && forall h :: 2 <= h <= hits ==> !Due(h, g, n))
        || exists h :: 2 <= h <= hits && Due(h, g, n) && own == [Struck(first.slot, first.target, first.tier, h, hits)]
      else own == []
  {
    hide StepOn, AtVolleys, VolleysNext, VolleysHit, Later, Buffered, AtStrike, Carried, Spared, BeforeStep, LaterHits,
      JustStarted;
    var t := BeforeStep(m, cfg, s, run, i);
    TurnsStayLater(m, cfg, s, run, i);
    FirstHitIsBuffered(m, cfg, t, run[i - 1].input, first);
    var born := StepAdds(m, cfg, t, run[i - 1].input);
    before, v := t.volleys, born[0];
    assert VolleysAt(m, cfg, s, run, i) == before + [v] + [];
    rest := VolleysCarryOn(m, cfg, s, run, i, n - 1, before, [v], []);
    var x, y := Carried(cfg, before, run, i, n - 1), Carried(cfg, [v], run, i, n - 1);
    NextConcat(cfg, x + y, rest);
    NextConcat(cfg, x, y);
    CarriedIs(cfg, v, run, i, n - 1);
    ScheduleExact(cfg, v, n);
    NoHits(cfg);
  }

  lemma NoHits(cfg: Config)
    ensures VolleysHit(cfg, []) == []
  {
  }

  /** And those are all the later hits of that step there are. */
  lemma LaterHitsAreVolleys(m: Maths, cfg: Config, s: DotState, run: seq<Turn>, k: nat, e: Event)
    requires LaterHits(s.volleys) && 1 <= k <= |run|
    requires e.Struck? && e.hit >= 2
    ensures e in TurnEvents(m, cfg, s, run, k) <==> e in VolleysHit(cfg, VolleysAt(m, cfg, s, run, k))
  {
    hide StepOn, Opening, Buffered, DoActs, Closing, Step, VolleysHit, BeforeStep;
    var t, i := BeforeStep(m, cfg, s, run, k), run[k - 1].input;
    StepEvents(m, cfg, t, i);
    OpeningOnlyRecovers(m, cfg, t);
    ActsFrame(cfg, AtActs(m, cfg, t), i.acts);
    BufferedOnlyFirst(m, cfg, AtStrike(m, cfg, t, i));
    ClosingEvents(m, cfg, AtBlows(m, cfg, t, i), i.keys, i.blows);
  }

  lemma BufferedOnlyFirst(m: Maths, cfg: Config, s: DotState)
    ensures forall e :: e in Buffered(m, cfg, s).events && e.Struck? ==> e.hit == 1
  {
  }

  // Slots ------------------------------------------------------------------------------------

  /** Every volley is of a slot with gear, so no hit ever looks for gear that isn't there. */
  ghost predicate SlotsKnown(cfg: Config, volleys: seq<Volley>) {
    forall i :: 0 <= i < |volleys| ==> volleys[i].slot in cfg.slots
  }

  lemma {:induction false} NextSlotsKnown(cfg: Config, volleys: seq<Volley>)
    requires SlotsKnown(cfg, volleys)
    ensures SlotsKnown(cfg, VolleysNext(cfg, volleys))
    decreases |volleys|
  {
    if volleys != [] { NextSlotsKnown(cfg, volleys[1..]); }
  }

  lemma BufferedSlotsKnown(m: Maths, cfg: Config, s: DotState)
    requires SlotsKnown(cfg, s.volleys)
    ensures SlotsKnown(cfg, Buffered(m, cfg, s).s.volleys)
  {
  }

  lemma StoppedSlotsKnown(cfg: Config, volleys: seq<Volley>, stops: seq<Option<string>>)
    requires SlotsKnown(cfg, volleys)
    ensures SlotsKnown(cfg, AllStopped(volleys, stops))
  {
    hide AllStopped;
    StoppedAreSome(volleys, stops);
    var left := AllStopped(volleys, stops);
    forall i | 0 <= i < |left| ensures left[i].slot in cfg.slots { assert left[i] in left; }
  }

  lemma {:induction false} RunSlotsKnown(m: Maths, cfg: Config, s: DotState, run: seq<Turn>, k: nat)
    requires SlotsKnown(cfg, s.volleys) && k <= |run|
    ensures SlotsKnown(cfg, TurnedTo(m, cfg, s, run, k).volleys)
    ensures k > 0 ==> SlotsKnown(cfg, VolleysAt(m, cfg, s, run, k))
    decreases k
  {
    hide StepOn, Opening, Buffered, DoActs, Closing, Step, VolleysNext, AllStopped, SlotsKnown;
    if k > 0 {
      RunSlotsKnown(m, cfg, s, run, k - 1);
      var t, i := BeforeStep(m, cfg, s, run, k), run[k - 1].input;
      StoppedSlotsKnown(cfg, TurnedTo(m, cfg, s, run, k - 1).volleys, run[k - 1].stops);
      OpeningEvents(m, cfg, t);
      ActsFrame(cfg, AtActs(m, cfg, t), i.acts);
      BufferedSlotsKnown(m, cfg, AtStrike(m, cfg, t, i));
      NextSlotsKnown(cfg, AtVolleys(m, cfg, t, i).volleys);
      StepFrame(m, cfg, t, i);
    }
  }
}
