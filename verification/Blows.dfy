/** A dot's step meets every blow that lands in it exactly once, in order. */
module Blows {
  import opened Balance
  import opened Fights

  /** What came of the blows among the events, in order. */
  function Results(events: seq<Event>): seq<Result> {
    if events == [] then [] else ResultOf(events[0]) + Results(events[1..])
  }

  function ResultOf(e: Event): seq<Result> {
    if e.Blown? then [e.result] else []
  }

  lemma {:induction false} ResultsConcat(a: seq<Event>, b: seq<Event>)
    ensures Results(a + b) == Results(a) + Results(b)
    decreases |a|
  {
    hide ResultOf;
    if a == [] {
      assert a + b == b;
    } else {
      assert (a + b)[1..] == a[1..] + b;
      ResultsConcat(a[1..], b);
    }
  }

  ghost predicate NoneBlown(events: seq<Event>) {
    forall i :: 0 <= i < |events| ==> !events[i].Blown?
  }

  lemma {:induction false} NoResults(events: seq<Event>)
    requires NoneBlown(events)
    ensures Results(events) == []
    decreases |events|
  {
    if events != [] { NoResults(events[1..]); }
  }

  lemma {:induction false} ActsBlowNone(cfg: Config, s: DotState, acts: seq<Act>)
    ensures NoneBlown(DoActs(cfg, s, acts).events)
    decreases |acts|
  {
    if acts != [] { ActsBlowNone(cfg, DoAct(cfg, s, acts[0]).s, acts[1..]); }
  }

  lemma {:induction false} VolleysBlowNone(cfg: Config, volleys: seq<Volley>)
    ensures NoneBlown(VolleysHit(cfg, volleys))
    decreases |volleys|
  {
    if volleys != [] { VolleysBlowNone(cfg, volleys[1..]); }
  }

  lemma BufferedBlowsNone(m: Maths, cfg: Config, s: DotState)
    ensures NoneBlown(Buffered(m, cfg, s).events)
  {
    hide StrikeCheck, Tier, KnockOf, CoolAfter, WithDebuffIf;
  }

  lemma BeforeBlows(m: Maths, cfg: Config, s: DotState, acts: seq<Act>)
    ensures NoneBlown(Opening(m, cfg, s).events)
    ensures NoneBlown(Acting(m, cfg, s, acts).events)
  {
    hide Drawn, Well, DoActs, Buffered, VolleysHit, VolleyKicks, VolleysNext;
    var o1 := DoActs(cfg, s, acts);
    ActsBlowNone(cfg, s, acts);
    BufferedBlowsNone(m, cfg, o1.s);
    VolleysBlowNone(cfg, Buffered(m, cfg, o1.s).s.volleys);
  }

  lemma AfterBlows(m: Maths, cfg: Config, s: DotState, keys: Keys)
    ensures NoneBlown(Physics(m, cfg, s, keys).events)
  {
    hide Drifted, Dist, IntoStagger, Bounced, Fade;
  }

  /** Each blow, of however many in the step, is met once. */
  lemma {:induction false} EachBlowOnce(m: Maths, cfg: Config, s: DotState, blows: seq<Blow>)
    ensures |Results(BlownAll(m, cfg, s, blows).events)| == |blows|
    decreases |blows|
  {
    hide Blown1;
    if blows != [] {
      var o := Blown1(m, cfg, s, blows[0]);
      EachBlowOnce(m, cfg, o.s, blows[1..]);
      ResultsConcat(o.events, BlownAll(m, cfg, o.s, blows[1..]).events);
      OneBlow(m, cfg, s, blows[0]);
    }
  }

  lemma OneBlow(m: Maths, cfg: Config, s: DotState, blow: Blow)
    ensures |Results(Blown1(m, cfg, s, blow).events)| == 1
  {
    hide WouldStagger, IntoStagger, WithDebuffIf, Toward;
    var events := Blown1(m, cfg, s, blow).events;
    assert Results([]) == [];
    assert events == [events[0]] + events[1..];
    if |events| == 2 { assert events[1..] == [events[1]] && [events[1]][1..] == []; }
    assert Results(events[1..]) == [];
  }

  /** A step has as many blow events as blows. */
  lemma StepMeetsEachBlow(m: Maths, cfg: Config, s: DotState, keys: Keys, acts: seq<Act>, blows: seq<Blow>)
    ensures |Results(Step(m, cfg, s, keys, acts, blows).events)| == |blows|
  {
    hide Opening, Acting, BlownAll, Physics, Results;
    var o1 := Opening(m, cfg, s);
    var o2 := Acting(m, cfg, o1.s, acts);
    var o3 := BlownAll(m, cfg, o2.s, blows);
    var o4 := Physics(m, cfg, o3.s, keys);
    BeforeBlows(m, cfg, s, acts);
    BeforeBlows(m, cfg, o1.s, acts);
    AfterBlows(m, cfg, o3.s, keys);
    NoResults(o1.events);
    NoResults(o2.events);
    NoResults(o4.events);
    EachBlowOnce(m, cfg, o2.s, blows);
    ResultsConcat(o1.events, o2.events);
    ResultsConcat(o3.events, o4.events);
    ResultsConcat(o1.events + o2.events, o3.events + o4.events);
  }

  // Pairing with the attacks -------------------------------------------------------------------

  /** The blow calls among some calls. */
  function BlowCalls(calls: seq<Call>): seq<Call> {
    if calls == [] then [] else (if calls[0].CallBlow? then [calls[0]] else []) + BlowCalls(calls[1..])
  }

  lemma {:induction false} BlowCallsConcat(a: seq<Call>, b: seq<Call>)
    ensures BlowCalls(a + b) == BlowCalls(a) + BlowCalls(b)
    decreases |a|
  {
    if a == [] {
      assert a + b == b;
    } else {
      assert (a + b)[1..] == a[1..] + b;
      BlowCallsConcat(a[1..], b);
    }
  }

  lemma NoBlowCalls(c: Call)
    requires !c.CallBlow?
    ensures BlowCalls([c]) == []
  {
    assert [c][1..] == [];
  }

  /** The k-th result, said of the k-th attack. */
  function Paired(pid: string, mine: seq<Incoming>, results: seq<Result>): (calls: seq<Call>)
    requires |results| <= |mine|
    ensures |calls| == |results|
    ensures forall k :: 0 <= k < |calls| ==> calls[k] == CallBlow(mine[k].nid, mine[k].attack, pid, results[k])
  {
    if results == [] then []
    else [CallBlow(mine[0].nid, mine[0].attack, pid, results[0])] + Paired(pid, mine[1..], results[1..])
  }

  lemma OneBlowCall(c: Call)
    requires c.CallBlow?
    ensures BlowCalls([c]) == [c]
  {
    assert [c][1..] == [];
  }

  lemma OneEventsBlows(info: PlayerInfo, bosses: set<string>, sealed: bool, e: Event, mine: seq<Incoming>)
    requires |ResultOf(e)| <= |mine|
    ensures BlowCalls(CallsOf(info, bosses, sealed, e, mine).calls) == Paired(info.pid, mine, ResultOf(e))
  {
    if e.Blown? {
      BlownEventBlows(info, bosses, sealed, e, mine);
    } else {
      OtherEventBlowsNone(info, bosses, sealed, e, mine);
    }
  }

  lemma BlownEventBlows(info: PlayerInfo, bosses: set<string>, sealed: bool, e: Event, mine: seq<Incoming>)
    requires e.Blown? && mine != []
    ensures BlowCalls(CallsOf(info, bosses, sealed, e, mine).calls) == Paired(info.pid, mine, ResultOf(e))
  {
    hide BlowCalls;
    var b := mine[0];
    var c := CallBlow(b.nid, b.attack, info.pid, e.result);
    OneBlowCall(c);
    NoBlowCalls(CallPoise(b.nid));
    BlowCallsConcat([c], [CallPoise(b.nid)]);
    assert [c] + [] == [c];
    assert Paired(info.pid, mine, ResultOf(e)) == [c];
  }

  lemma OtherEventBlowsNone(info: PlayerInfo, bosses: set<string>, sealed: bool, e: Event, mine: seq<Incoming>)
    requires !e.Blown?
    ensures BlowCalls(CallsOf(info, bosses, sealed, e, mine).calls) == Paired(info.pid, mine, ResultOf(e))
  {
    hide BlowCalls;
    NothingPaired(info.pid, mine);
    var calls := CallsOf(info, bosses, sealed, e, mine).calls;
    if calls != [] {
      assert calls == [calls[0]];
      NoBlowCalls(calls[0]);
    }
  }

  /** The running index always pairs the k-th blow event with the k-th blow. */
  lemma {:induction false} ReportPairsBlows(info: PlayerInfo, bosses: set<string>, sealed: bool, events: seq<Event>,
                                            mine: seq<Incoming>)
    requires |Results(events)| <= |mine|
    ensures BlowCalls(Reportable(info, bosses, sealed, events, mine).calls) == Paired(info.pid, mine, Results(events))
    decreases |events|
  {
    hide CallsOf, BlowCalls, Paired, ResultOf, Rest;
    if events == [] {
      NothingPaired(info.pid, mine);
    } else {
      var first := CallsOf(info, bosses, sealed, events[0], mine);
      var rest := Rest(events[0], mine);
      RestAfter(events[0], mine, info.pid, Results(events[1..]));
      OneEventsBlows(info, bosses, sealed, events[0], mine);
      ReportPairsBlows(info, bosses, first.sealed, events[1..], rest);
      BlowCallsConcat(first.calls, Reportable(info, bosses, first.sealed, events[1..], rest).calls);
    }
  }

  lemma NothingPaired(pid: string, mine: seq<Incoming>)
    ensures BlowCalls([]) == [] && Paired(pid, mine, []) == []
  {
  }

  lemma RestAfter(e: Event, mine: seq<Incoming>, pid: string, more: seq<Result>)
    requires |ResultOf(e) + more| <= |mine|
    ensures |more| <= |Rest(e, mine)|
    ensures Paired(pid, mine, ResultOf(e) + more) == Paired(pid, mine, ResultOf(e)) + Paired(pid, Rest(e, mine), more)
  {
    if e.Blown? {
      assert (ResultOf(e) + more)[1..] == more && ResultOf(e)[1..] == [];
    } else {
      assert ResultOf(e) + more == more;
    }
  }

  /** What a step of a player hands on of its blows: each incoming, in order, as
      it was met; or, before they're on their feet, as a hit. */
  lemma PlayerStepsBlows(m: Maths, info: PlayerInfo, p: PlayerState, n: int, mine: seq<Incoming>, bosses: set<string>)
    returns (results: seq<Result>)
    ensures |results| == |mine|
    ensures BlowCalls(PlayerStep(m, info, p, n, mine, bosses).calls) == Paired(info.pid, mine, results)
    ensures n <= info.join ==> forall k :: 0 <= k < |results| ==> results[k] == Hit
    ensures n > info.join ==> results == Results(Step(m, info.cfg, p.dot, p.keys, p.acts, BlowsOf(mine)).events)
  {
    hide Step, Reportable, InCore, Results, Paired, BlowCalls;
    if n <= info.join {
      results := seq(|mine|, i => Hit);
      AllLand(info, mine, results);
    } else {
      results := Results(Step(m, info.cfg, p.dot, p.keys, p.acts, BlowsOf(mine)).events);
      StepMeetsEachBlow(m, info.cfg, p.dot, p.keys, p.acts, BlowsOf(mine));
      ReportPairsBlows(info, bosses, p.sealed, Step(m, info.cfg, p.dot, p.keys, p.acts, BlowsOf(mine)).events, mine);
      FleeBlowsNone(m, info, p);
      BlowCallsConcat(FleeCalls(m, info, p),
                      Reportable(info, bosses, p.sealed, Step(m, info.cfg, p.dot, p.keys, p.acts, BlowsOf(mine)).events,
                      mine).calls);
    }
  }

  lemma FleeBlowsNone(m: Maths, info: PlayerInfo, p: PlayerState)
    ensures BlowCalls(FleeCalls(m, info, p)) == []
  {
    hide InCore;
    var c := FleeCalls(m, info, p);
    if c != [] { assert c == [c[0]]; NoBlowCalls(c[0]); }
  }

  lemma {:induction false} AllLand(info: PlayerInfo, mine: seq<Incoming>, results: seq<Result>)
    requires |results| == |mine| && forall k :: 0 <= k < |results| ==> results[k] == Hit
    ensures BlowCalls(CallsLanding(info, mine)) == Paired(info.pid, mine, results)
    decreases |mine|
  {
    if mine != [] { AllLand(info, mine[1..], results[1..]); }
  }
}
