/** The weather function: a sum of waves evened out by its quantiles, then
    stretched so that a third of the time falls in the temperate middle. */
module Weather {
  import opened Reals

  const QUANTILES: nat := 101

  datatype Wave = Wave(a: real, w: real, phase: real)

  /** One axis: its fixed waves and the quantiles of their sum. */
  datatype Axis = Axis(waves: seq<Wave>, q: seq<real>)

  datatype Sky = Sky(temperature: real, energy: real, precipitation: real)

  predicate Sorted(q: seq<real>) {
    forall i, j :: 0 <= i <= j < |q| ==> q[i] <= q[j]
  }

  predicate Table(q: seq<real>) {
    |q| == QUANTILES && Sorted(q)
  }

  function WaveSum(sin: real -> real, waves: seq<Wave>, t: real): real {
    if waves == [] then 0.0
    else sin(waves[0].w * t + waves[0].phase) * waves[0].a + WaveSum(sin, waves[1..], t)
  }

  // The library's binary search for the first entry above r.
  function BisectRight(q: seq<real>, r: real, lo: nat, hi: nat): (k: nat)
    requires lo <= hi <= |q|
    requires Sorted(q)
    requires forall i :: 0 <= i < lo ==> q[i] <= r
    requires forall i :: hi <= i < |q| ==> r < q[i]
    ensures lo <= k <= hi
    ensures forall i :: 0 <= i < k ==> q[i] <= r
    ensures forall i :: k <= i < |q| ==> r < q[i]
    decreases hi - lo
  {
    if lo == hi then lo
    else
      var mid := (lo + hi) / 2;
      if r < q[mid] then BisectRight(q, r, lo, mid) else BisectRight(q, r, mid + 1, hi)
  }

  // How far r is through the step from lo to hi.
  function StepShare(lo: real, hi: real, r: real): real {
    var span := hi - lo;
    if span > 0.0 then (r - lo) / span else 0.0
  }

  // A place i + share of the way along the table, spread over -1..1.
  function Spread(i: nat, share: real): real {
    var f := (i as real + share) / (QUANTILES - 1) as real;
    2.0 * f - 1.0
  }

  /** Where the wave sum r falls among the quantiles, spread over -1..1. */
  function Evened(q: seq<real>, r: real): real
    requires Table(q)
  {
    if r <= q[0] then -1.0
    else if r >= q[QUANTILES - 1] then 1.0
    else
      var i := BisectRight(q, r, 0, QUANTILES) - 1;
      Spread(i, StepShare(q[i], q[i + 1], r))
  }

  /** c is the positive root of a third: how much of an axis is stretched over its inner half. */
  ghost predicate IsCenter(c: real) {
    0.0 < c && 3.0 * c * c == 1.0
  }

  function Stretch(c: real, u: real): real
    requires 0.0 < c < 1.0
  {
    var m := if u < 0.0 then -u else u;
    var x := if m < c then m / (2.0 * c) else 0.5 + (m - c) / (2.0 * (1.0 - c));
    if u < 0.0 then -x else x
  }

  function SkyAt(sin: real -> real, c: real, temperature: Axis, energy: Axis, precipitation: Axis, t: real): Sky
    requires 0.0 < c < 1.0
    requires Table(temperature.q) && Table(energy.q) && Table(precipitation.q)
  {
    Sky(Stretch(c, Evened(temperature.q, WaveSum(sin, temperature.waves, t))),
        Stretch(c, Evened(energy.q, WaveSum(sin, energy.waves, t))),
        Evened(precipitation.q, WaveSum(sin, precipitation.waves, t)))
  }

  // The evening-out ----------------------------------------------------------------------

  lemma Bracket(q: seq<real>, r: real) returns (i: nat)
    requires Table(q)
    requires q[0] < r < q[QUANTILES - 1]
    ensures i == BisectRight(q, r, 0, QUANTILES) - 1
    ensures i + 1 < QUANTILES && q[i] <= r < q[i + 1]
  {
    i := BisectRight(q, r, 0, QUANTILES) - 1;
  }

  /** A sum strictly inside the table lies in one proper step of it: the guard
      against a zero span is never taken, and the value is the straight line
      between the step's two ends. */
  lemma EvenedBracket(q: seq<real>, r: real) returns (i: nat, share: real)
    requires Table(q)
    requires q[0] < r < q[QUANTILES - 1]
    ensures i + 1 < QUANTILES && q[i] <= r < q[i + 1]
    ensures share == StepShare(q[i], q[i + 1], r)
    ensures Evened(q, r) == Spread(i, share)
  {
    i := Bracket(q, r);
    share := StepShare(q[i], q[i + 1], r);
  }

  lemma StepShareIs(lo: real, hi: real, r: real)
    requires lo <= r < hi
    ensures 0.0 <= StepShare(lo, hi, r) < 1.0
    ensures StepShare(lo, hi, r) * (hi - lo) == r - lo
  {
    Share(r - lo, 0.0, hi - lo);
  }

  lemma StepShareAtStart(lo: real, hi: real)
    requires lo < hi
    ensures StepShare(lo, hi, lo) == 0.0
  {
    Share(0.0, 0.0, hi - lo);
  }

  lemma StepShareGrows(lo: real, hi: real, r: real, lo2: real, hi2: real, r2: real)
    requires lo <= r < hi && lo2 <= r2 < hi2 && r < r2
    ensures 0.0 <= StepShare(lo, hi, r) < 1.0 && 0.0 <= StepShare(lo2, hi2, r2) < 1.0
    ensures lo == lo2 && hi == hi2 ==> StepShare(lo, hi, r) < StepShare(lo2, hi2, r2)
  {
    StepShareIs(lo, hi, r);
    StepShareIs(lo2, hi2, r2);
    Share(r - lo, r2 - lo, hi - lo);
  }

  lemma SpreadOrder(i: nat, a: real, j: nat, b: real)
    requires 0.0 <= a < 1.0 && 0.0 <= b < 1.0
    ensures -1.0 <= Spread(i, a)
    ensures i + 1 < QUANTILES ==> Spread(i, a) < 1.0
    ensures i < j || (i == j && a < b) ==> Spread(i, a) < Spread(j, b)
  {
    if i < j { assert (i + 1) as real <= j as real; }
  }

  lemma InOrder(q: seq<real>, i: nat, j: nat)
    requires Sorted(q) && i < |q| && j < |q| && q[i] < q[j]
    ensures i < j
  {
  }

  lemma StepShareStarts(lo: real, hi: real, r: real, share: real)
    requires lo < r < hi && share == StepShare(lo, hi, r)
    ensures 0.0 < share
  {
    StepShareIs(lo, hi, r);
    StepShareAtStart(lo, hi);
    StepShareGrows(lo, hi, lo, lo, hi, r);
  }

  /** Evened values are in range, and are the ends exactly outside the table. */
  lemma EvenedRange(q: seq<real>, r: real)
    requires Table(q)
    ensures -1.0 <= Evened(q, r) <= 1.0
    ensures r <= q[0] ==> Evened(q, r) == -1.0
    ensures q[0] < r && r >= q[QUANTILES - 1] ==> Evened(q, r) == 1.0
    ensures r < q[QUANTILES - 1] ==> Evened(q, r) < 1.0
    ensures q[0] < r ==> -1.0 < Evened(q, r)
  {
    if q[0] < r < q[QUANTILES - 1] {
      var i, share := EvenedBracket(q, r);
      StepShareIs(q[i], q[i + 1], r);
      SpreadOrder(i, share, i, share);
      if i == 0 { StepShareStarts(q[0], q[1], r, share); }
      SpreadOrder(0, 0.0, i, share);
    }
  }

  /** The weather keeps the order of the wave sums: never decreasing anywhere,
      strictly increasing inside the table. */
  lemma EvenedMonotone(q: seq<real>, r1: real, r2: real)
    requires Table(q)
    requires r1 < r2
    ensures Evened(q, r1) <= Evened(q, r2)
    ensures q[0] < r1 && r2 < q[QUANTILES - 1] ==> Evened(q, r1) < Evened(q, r2)
  {
    EvenedRange(q, r1);
    EvenedRange(q, r2);
    if q[0] < r1 && r2 < q[QUANTILES - 1] {
      var i, a := EvenedBracket(q, r1);
      var j, b := EvenedBracket(q, r2);
      InOrder(q, i, j + 1);
      StepShareGrows(q[i], q[i + 1], r1, q[j], q[j + 1], r2);
      SpreadOrder(i, a, j, b);
    }
  }

  /** Each quantile is sent to its own place: exactly i hundredths of the way
      (Spread(i, 0) is 2 × i/100 − 1). */
  lemma EvenedAtQuantile(q: seq<real>, i: nat)
    requires Table(q)
    requires 0 < i < QUANTILES - 1
    requires q[0] < q[i] < q[i + 1] <= q[QUANTILES - 1]
    ensures Evened(q, q[i]) == Spread(i, 0.0)
  {
    var k, share := EvenedBracket(q, q[i]);
    InOrder(q, i, k + 1);
    InOrder(q, k, i + 1);
    StepShareAtStart(q[i], q[i + 1]);
  }

  // The stretch --------------------------------------------------------------------------

  lemma CenterBounds(c: real)
    requires IsCenter(c)
    ensures 0.5 < c < 1.0
  {
    Scale(c, 0.5, c);
    Scale(c, 1.0, c);
  }

  function Unstretch(c: real, v: real): real
    requires 0.0 < c < 1.0
  {
    var m := if v < 0.0 then -v else v;
    var x := if m < 0.5 then Times(m, 2.0 * c) else c + Times(m - 0.5, 2.0 * (1.0 - c));
    if v < 0.0 then -x else x
  }

  lemma StretchInner(c: real, m: real)
    requires 0.0 < c < 1.0 && 0.0 <= m < c
    ensures Stretch(c, m) == m / (2.0 * c)
    ensures 0.0 <= Stretch(c, m) < 0.5
    ensures Times(Stretch(c, m), 2.0 * c) == m
  {
    hide Times;
    var w := 2.0 * c;
    ShareTimes(m, w);
    TimesOrder(m / w, 0.5, w);
    TimesOrder(0.0, m / w, w);
  }

  lemma StretchOuter(c: real, m: real)
    requires 0.0 < c < 1.0 && c <= m
    ensures Stretch(c, m) == 0.5 + (m - c) / (2.0 * (1.0 - c))
    ensures 0.5 <= Stretch(c, m)
    ensures Times(Stretch(c, m) - 0.5, 2.0 * (1.0 - c)) == m - c
    ensures m <= 1.0 ==> Stretch(c, m) <= 1.0
  {
    hide Times;
    var w, d := 2.0 * (1.0 - c), m - c;
    var x := d / w;
    ShareTimes(d, w);
    TimesOrder(0.0, x, w);
    TimesOrder(x, 0.5, w);
    assert Stretch(c, m) == 0.5 + x;
  }

  lemma StretchOdd(c: real, u: real)
    requires 0.0 < c < 1.0
    ensures Stretch(c, -u) == -Stretch(c, u)
  {
    if u == 0.0 { StretchInner(c, u); }
  }

  lemma UnstretchStretch(c: real, m: real)
    requires 0.0 < c < 1.0 && 0.0 <= m
    ensures 0.0 <= Stretch(c, m) && Unstretch(c, Stretch(c, m)) == m
    ensures m <= 1.0 ==> Stretch(c, m) <= 1.0
  {
    hide Times, Stretch;
    if m < c { StretchInner(c, m); } else { StretchOuter(c, m); }
  }

  lemma UnstretchInner(c: real, v: real)
    requires 0.0 < c < 1.0 && 0.0 <= v < 0.5
    ensures Unstretch(c, v) == Times(v, 2.0 * c)
    ensures 0.0 <= Unstretch(c, v) < c
  {
    hide Times;
    var w := 2.0 * c;
    TimesOrder(v, 0.5, w);
    TimesOrder(0.0, v, w);
  }

  lemma UnstretchOuter(c: real, v: real)
    requires 0.0 < c < 1.0 && 0.5 <= v
    ensures Unstretch(c, v) == c + Times(v - 0.5, 2.0 * (1.0 - c))
    ensures c <= Unstretch(c, v)
    ensures v <= 1.0 ==> Unstretch(c, v) <= 1.0
  {
    hide Times;
    var w, d := 2.0 * (1.0 - c), v - 0.5;
    TimesOrder(0.0, d, w);
    TimesOrder(d, 0.5, w);
  }

  lemma StretchUnstretch(c: real, v: real)
    requires 0.0 < c < 1.0 && 0.0 <= v
    ensures 0.0 <= Unstretch(c, v) && Stretch(c, Unstretch(c, v)) == v
    ensures v <= 1.0 ==> Unstretch(c, v) <= 1.0
  {
    hide Times, Stretch, Unstretch;
    var k := Unstretch(c, v);
    if v < 0.5 {
      UnstretchInner(c, v);
      StretchInner(c, k);
      TimesOrder(Stretch(c, k), v, 2.0 * c);
    } else {
      UnstretchOuter(c, v);
      StretchOuter(c, k);
      TimesOrder(Stretch(c, k) - 0.5, v - 0.5, 2.0 * (1.0 - c));
    }
  }

  /** Stretch has a two-sided inverse, so it takes -1..1 onto itself. */
  lemma StretchRoundTrip(c: real, u: real)
    requires 0.0 < c < 1.0
    ensures Unstretch(c, Stretch(c, u)) == u
    ensures Stretch(c, Unstretch(c, u)) == u
    ensures -1.0 <= u <= 1.0 ==> -1.0 <= Stretch(c, u) <= 1.0 && -1.0 <= Unstretch(c, u) <= 1.0
  {
    hide Stretch, Unstretch;
    var m := if u < 0.0 then -u else u;
    UnstretchStretch(c, m);
    StretchUnstretch(c, m);
    StretchOdd(c, m);
    UnstretchOdd(c, m);
    UnstretchOdd(c, Stretch(c, m));
    StretchOdd(c, Unstretch(c, m));
  }

  lemma UnstretchOdd(c: real, v: real)
    requires 0.0 < c < 1.0
    ensures Unstretch(c, -v) == -Unstretch(c, v)
  {
    hide Times;
    if v == 0.0 {
      UnstretchInner(c, v);
      TimesOrder(0.0, 0.0, 2.0 * c);
    }
  }

  lemma StretchMonotone(c: real, u: real, v: real)
    requires 0.0 < c < 1.0
    requires u < v
    ensures Stretch(c, u) < Stretch(c, v)
  {
    hide Stretch;
    StretchOdd(c, u);
    StretchOdd(c, v);
    if 0.0 <= u {
      StretchGrows(c, u, v);
    } else if v <= 0.0 {
      StretchGrows(c, -v, -u);
    } else {
      StretchGrows(c, 0.0, -u);
      if 0.0 < v { StretchGrows(c, 0.0, v); }
    }
  }

  lemma StretchGrows(c: real, u: real, v: real)
    requires 0.0 < c < 1.0
    requires 0.0 <= u < v
    ensures 0.0 <= Stretch(c, u) < Stretch(c, v)
  {
    hide Stretch;
    if v < c {
      StretchInner(c, u);
      StretchInner(c, v);
      Share(u, v, 2.0 * c);
    } else if u < c {
      StretchInner(c, u);
      StretchOuter(c, v);
    } else {
      StretchOuter(c, u);
      StretchOuter(c, v);
      Share(u - c, v - c, 2.0 * (1.0 - c));
    }
  }

  /** The temperate middle is exactly the middle of the evened axis, and the
      square where two axes are both in it has a third of the square's area. */
  lemma TemperateThird(c: real, u: real)
    requires IsCenter(c)
    ensures 0.0 < c < 1.0
    ensures -0.5 < Stretch(c, u) < 0.5 <==> -c < u < c
    ensures (2.0 * c) * (2.0 * c) / 4.0 == 1.0 / 3.0
  {
    CenterBounds(c);
    var m := if u < 0.0 then -u else u;
    StretchOdd(c, u);
    if m < c { StretchInner(c, m); } else { StretchOuter(c, m); }
    assert 4.0 * (c * c) == 4.0 / 3.0;
  }

  /** The whole sky: every reading is in range, and a larger wave sum never
      gives a colder, calmer or drier one. */
  lemma SkyKeepsOrder(sin: real -> real, c: real, te: Axis, en: Axis, pr: Axis, t1: real, t2: real)
    requires IsCenter(c) && 0.0 < c < 1.0
    requires Table(te.q) && Table(en.q) && Table(pr.q)
    ensures var s := SkyAt(sin, c, te, en, pr, t1);
      -1.0 <= s.temperature <= 1.0 && -1.0 <= s.energy <= 1.0 && -1.0 <= s.precipitation <= 1.0
    ensures WaveSum(sin, te.waves, t1) <= WaveSum(sin, te.waves, t2) ==>
      SkyAt(sin, c, te, en, pr, t1).temperature <= SkyAt(sin, c, te, en, pr, t2).temperature
    ensures WaveSum(sin, en.waves, t1) <= WaveSum(sin, en.waves, t2) ==>
      SkyAt(sin, c, te, en, pr, t1).energy <= SkyAt(sin, c, te, en, pr, t2).energy
    ensures WaveSum(sin, pr.waves, t1) <= WaveSum(sin, pr.waves, t2) ==>
      SkyAt(sin, c, te, en, pr, t1).precipitation <= SkyAt(sin, c, te, en, pr, t2).precipitation
  {
    hide Evened, Stretch, WaveSum, Table;
    AxisKeepsOrder(c, te.q, WaveSum(sin, te.waves, t1), WaveSum(sin, te.waves, t2));
    AxisKeepsOrder(c, en.q, WaveSum(sin, en.waves, t1), WaveSum(sin, en.waves, t2));
    AxisKeepsOrder(c, pr.q, WaveSum(sin, pr.waves, t1), WaveSum(sin, pr.waves, t2));
  }

  lemma AxisKeepsOrder(c: real, q: seq<real>, r1: real, r2: real)
    requires 0.0 < c < 1.0 && Table(q)
    ensures -1.0 <= Evened(q, r1) <= 1.0
    ensures -1.0 <= Stretch(c, Evened(q, r1)) <= 1.0
    ensures r1 <= r2 ==> Evened(q, r1) <= Evened(q, r2)
    ensures r1 <= r2 ==> Stretch(c, Evened(q, r1)) <= Stretch(c, Evened(q, r2))
  {
    hide Evened, Stretch, Unstretch, Table;
    EvenedRange(q, r1);
    StretchRoundTrip(c, Evened(q, r1));
    if r1 < r2 {
      EvenedMonotone(q, r1, r2);
      if Evened(q, r1) < Evened(q, r2) { StretchMonotone(c, Evened(q, r1), Evened(q, r2)); }
    }
  }
}
