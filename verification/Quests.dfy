/** Quests are small state machines: a start step, and each step's `then`. */
module Quests {
  import opened Basics

  /** A quest's start, and each step with the step that follows it (None where
      `then` is absent or empty). */
  datatype Quest = Quest(start: Option<string>, steps: map<string, Option<string>>)

  datatype Problem =
    | StartIsNotAStep
    | NeverEnds
    | CantBeReached(step: string)
    | ThenIsNotAStep(step: string)

  /** Where following `then` from the start gets to in k moves, if it gets anywhere. */
  ghost function Follow(q: Quest, k: nat): Option<string> {
    if k == 0 then Known(q, q.start)
    else
      var at := Follow(q, k - 1);
      if at == None then None else Known(q, q.steps[at.value])
  }

  ghost function Known(q: Quest, s: Option<string>): (r: Option<string>)
    ensures r.Some? ==> r.value in q.steps
  {
    if s.Some? && s.value in q.steps then s else None
  }

  ghost predicate OnChain(q: Quest, s: string) {
    exists k :: Follow(q, k) == Some(s)
  }

  ghost predicate IsEnd(q: Quest, s: string) {
    OnChain(q, s) && q.steps[s] == None
  }

  /** Exactly the steps the chain visits in its first k places. */
  ghost predicate Visited(q: Quest, k: nat, reached: set<string>) {
    && (forall s :: s in reached ==> exists i :: 0 <= i < k && Follow(q, i) == Some(s))
    && (forall i :: 0 <= i < k && Follow(q, i).Some? ==> Follow(q, i).value in reached)
  }

  lemma VisitedNext(q: Quest, k: nat, reached: set<string>)
    requires Visited(q, k, reached) && Follow(q, k).Some?
    ensures Visited(q, k + 1, reached + {Follow(q, k).value})
  {
    var next := Follow(q, k).value;
    forall s | s in reached ensures exists i :: 0 <= i < k + 1 && Follow(q, i) == Some(s) {
      var i :| 0 <= i < k && Follow(q, i) == Some(s);
    }
    forall i | 0 <= i < k + 1 && Follow(q, i).Some? ensures Follow(q, i).value in reached + {next} {
      assert i < k ==> Follow(q, i) == Some(Follow(q, i).value);
    }
  }

  /** Where the chain stops, or comes back to a visited step, all of it is visited. */
  lemma VisitedAll(q: Quest, k: nat, reached: set<string>)
    requires Visited(q, k, reached)
    requires Follow(q, k) == None || Follow(q, k).value in reached
    ensures forall s :: s in reached <==> OnChain(q, s)
  {
    forall s | OnChain(q, s) ensures s in reached {
      var m :| Follow(q, m) == Some(s);
      if Follow(q, k) == None {
        FollowStops(q, k, m);
      } else {
        var i :| 0 <= i < k && Follow(q, i) == Follow(q, k);
        FollowLoops(q, i, k, m);
      }
    }
  }

  /** The search from the start: the steps reached, and whether one of them ends the quest. */
  method Search(q: Quest) returns (reached: set<string>, ends: bool)
    ensures forall s :: s in reached <==> OnChain(q, s)
    ensures ends <==> exists s :: IsEnd(q, s)
  {
    reached, ends := {}, false;
    var todo := [q.start];
    ghost var k := 0;
    while todo != []
      invariant Visited(q, k, reached) && reached <= q.steps.Keys
      invariant |todo| <= 1
      invariant todo != [] ==> Known(q, todo[0]) == Follow(q, k)
      invariant todo == [] ==> Follow(q, k) == None || Follow(q, k).value in reached
      invariant ends <==> exists s :: s in reached && q.steps[s] == None
      decreases q.steps.Keys - reached, |todo|
    {
      var at := todo[|todo| - 1];
      todo := todo[..|todo| - 1];
      if at.Some? && at.value !in reached && at.value in q.steps {
        assert Follow(q, k) == at;
        VisitedNext(q, k, reached);
        assert at.value in q.steps.Keys - reached;
        reached := reached + {at.value};
        k := k + 1;
        var next := q.steps[at.value];
        if next.Some? {
          todo := todo + [next];
        } else {
          ends := true;
        }
      }
    }
    VisitedAll(q, k, reached);
    if s :| s in reached && q.steps[s] == None { assert IsEnd(q, s); }
    if s :| IsEnd(q, s) { assert s in reached && q.steps[s] == None; }
  }

  /** The problems the search and the steps show. */
  method StepProblems(q: Quest) returns (problems: set<Problem>)
    ensures StartIsNotAStep in problems <==> !(q.start.Some? && q.start.value in q.steps)
    ensures NeverEnds in problems <==> !exists s :: IsEnd(q, s)
    ensures forall s :: CantBeReached(s) in problems <==> s in q.steps && !OnChain(q, s)
    ensures forall s :: ThenIsNotAStep(s) in problems <==>
      s in q.steps && q.steps[s].Some? && q.steps[s].value !in q.steps
  {
    var reached, ends := Search(q);
    problems := (if q.start.Some? && q.start.value in q.steps then {} else {StartIsNotAStep})
              + (if ends then {} else {NeverEnds})
              + (set s | s in q.steps && s !in reached :: CantBeReached(s))
              + (set s | s in q.steps && q.steps[s].Some? && q.steps[s].value !in q.steps :: ThenIsNotAStep(s));
  }

  /** Once the chain has stopped it stays stopped. */
  lemma {:induction false} FollowStops(q: Quest, k: nat, i: nat)
    requires Follow(q, k) == None
    ensures k <= i ==> Follow(q, i) == None
    decreases i
  {
    if k < i { FollowStops(q, k, i - 1); }
  }

  /** A chain that comes back to a step only ever visits the steps before that. */
  lemma {:induction false} FollowLoops(q: Quest, i: nat, k: nat, m: nat)
    requires i < k && Follow(q, i) == Follow(q, k)
    ensures exists n :: 0 <= n < k && Follow(q, n) == Follow(q, m)
    decreases m
  {
    if k <= m {
      FollowAgain(q, i, k, m - k);
      FollowLoops(q, i, k, m - (k - i));
    }
  }

  lemma {:induction false} FollowAgain(q: Quest, i: nat, k: nat, d: nat)
    requires Follow(q, i) == Follow(q, k)
    ensures Follow(q, i + d) == Follow(q, k + d)
  {
    if d > 0 { FollowAgain(q, i, k, d - 1); }
  }

  // An accepted quest is one simple path --------------------------------------------------

  /** p visits every step once, each step leads to the next, and the last one ends it. */
  ghost predicate IsSimplePath(q: Quest, p: seq<string>) {
    && p != [] && q.start == Some(p[0])
    && (forall i :: 0 <= i < |p| ==> p[i] in q.steps)
    && (forall i :: 0 <= i < |p| - 1 ==> q.steps[p[i]] == Some(p[i + 1]))
    && q.steps[p[|p| - 1]] == None
    && (forall i, j :: 0 <= i < j < |p| ==> p[i] != p[j])
    && (forall s :: s in q.steps ==> s in p)
  }

  /** A quest with nothing wrong with its steps, told without the search. */
  ghost predicate Accepted(q: Quest) {
    && q.start.Some? && q.start.value in q.steps
    && (exists s :: IsEnd(q, s))
    && (forall s :: s in q.steps ==> OnChain(q, s))
    && (forall s :: s in q.steps && q.steps[s].Some? ==> q.steps[s].value in q.steps)
  }

  /** The first k + 1 steps of the chain. */
  ghost function Trail(q: Quest, k: nat): (p: seq<string>)
    requires Follow(q, k).Some?
    ensures |p| == k + 1
  {
    if k == 0 then [Follow(q, 0).value] else Trail(q, k - 1) + [Follow(q, k).value]
  }

  lemma {:induction false} TrailIs(q: Quest, k: nat, i: nat)
    requires Follow(q, k).Some? && i <= k
    ensures Some(Trail(q, k)[i]) == Follow(q, i)
    ensures Trail(q, k)[i] in q.steps
    ensures i < k ==> q.steps[Trail(q, k)[i]] == Some(Trail(q, k)[i + 1])
  {
    if i < k {
      TrailIs(q, k - 1, i);
      if i < k - 1 { TrailIs(q, k - 1, i + 1); } else { TrailIs(q, k - 1, k - 1); }
    }
  }

  /** The chain up to a step that ends it comes to no step twice. */
  lemma NoStepTwice(q: Quest, e: nat, i: nat, j: nat)
    requires Follow(q, e).Some? && q.steps[Follow(q, e).value] == None
    requires i < j <= e
    ensures Follow(q, i) != Follow(q, j)
  {
    if Follow(q, i) == Follow(q, j) {
      FollowAgain(q, i, j, e - j);
      // i + (e - j) < e is then an end as well, so nothing follows it
      FollowStops(q, i + (e - j) + 1, e);
    }
  }

  /** No problem with the steps exactly when they are one simple path from the
      start: every step visited once, stopping within as many steps as there are. */
  lemma AcceptedIsSimplePath(q: Quest)
    ensures Accepted(q) <==> exists p :: IsSimplePath(q, p)
  {
    if Accepted(q) {
      var s :| IsEnd(q, s);
      var e :| Follow(q, e) == Some(s);
      AcceptedPath(q, e);
    }
    if p :| IsSimplePath(q, p) {
      PathAccepted(q, p);
    }
  }

  lemma AcceptedPath(q: Quest, e: nat)
    requires Accepted(q)
    requires Follow(q, e).Some? && q.steps[Follow(q, e).value] == None
    ensures IsSimplePath(q, Trail(q, e))
  {
    var p := Trail(q, e);
    TrailIs(q, e, 0);
    TrailIs(q, e, e);
    forall i | 0 <= i < |p| ensures p[i] in q.steps && (i < |p| - 1 ==> q.steps[p[i]] == Some(p[i + 1])) {
      TrailIs(q, e, i);
    }
    forall i, j | 0 <= i < j < |p| ensures p[i] != p[j] {
      TrailIs(q, e, i);
      TrailIs(q, e, j);
      NoStepTwice(q, e, i, j);
    }
    forall s | s in q.steps ensures s in p {
      var k :| Follow(q, k) == Some(s);
      FollowStops(q, e + 1, k);
      TrailIs(q, e, k);
    }
  }

  lemma {:induction false} PathFollows(q: Quest, p: seq<string>, i: nat)
    requires IsSimplePath(q, p) && i < |p|
    ensures Follow(q, i) == Some(p[i])
  {
    if i > 0 { PathFollows(q, p, i - 1); }
  }

  lemma PathAccepted(q: Quest, p: seq<string>)
    requires IsSimplePath(q, p)
    ensures Accepted(q)
  {
    forall s | s in q.steps ensures OnChain(q, s) {
      var i :| 0 <= i < |p| && p[i] == s;
      PathFollows(q, p, i);
    }
    PathFollows(q, p, |p| - 1);
    assert IsEnd(q, p[|p| - 1]);
    forall s | s in q.steps && q.steps[s].Some? ensures q.steps[s].value in q.steps {
      var i :| 0 <= i < |p| && p[i] == s;
      assert i != |p| - 1;
      assert q.steps[p[i]] == Some(p[i + 1]) && p[i + 1] in q.steps;
    }
  }

  /** A simple path is as long as there are steps. */
  lemma SimplePathLength(q: Quest, p: seq<string>)
    requires IsSimplePath(q, p)
    ensures |p| == |q.steps|
  {
    var members := set s | s in p;
    assert members == q.steps.Keys;
    DistinctSize(p);
  }

  lemma {:induction false} DistinctSize(p: seq<string>)
    requires forall i, j :: 0 <= i < j < |p| ==> p[i] != p[j]
    ensures |set s | s in p| == |p|
  {
    if p != [] {
      var pre := p[..|p| - 1];
      DistinctSize(pre);
      assert (set s | s in p) == (set s | s in pre) + {p[|p| - 1]};
    }
  }

  /** What the check of a quest comes to: it finds no problem exactly when the
      quest is one simple path. */
  method CheckSteps(q: Quest) returns (fine: bool)
    ensures fine <==> exists p :: IsSimplePath(q, p)
  {
    var problems := StepProblems(q);
    fine := problems == {};
    AcceptedIsSimplePath(q);
    if Accepted(q) {
      forall p | p in problems ensures false {
        match p
        case StartIsNotAStep =>
        case NeverEnds =>
        case CantBeReached(s) =>
        case ThenIsNotAStep(s) =>
      }
    }
  }
}
