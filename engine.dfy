/** The discharge engine every script carries a copy of: the geometry of a
    measurement section, the three velocity rules, the left-to-right
    accumulation of section discharges, and the display rounding applied to
    reported totals.  Values are exact reals: lengths in feet, velocities in
    feet per second, discharges in cubic feet per second (cusecs). */
module Engine {

  datatype Option<T> = None | Some(value: T)

  /** One measurement section: the width of the strip and the depths at its
      two measurement points. */
  datatype Section = Section(width: real, depth1: real, depth2: real)

  /** The two 0.6Y velocity readings of a section. */
  datatype Reading06 = Reading06(v1: real, v2: real)

  /** The four 0.8Y/0.2Y velocity readings of a section, in prompt order. */
  datatype Reading0802 = Reading0802(v08First: real, v08Second: real, v02First: real, v02Second: real)

  /** A section together with the velocity readings typed in for it. */
  datatype Station<R> = Station(section: Section, reading: R)

  /** An entry of a calculator's `velocities` list: a 2-tuple or a 4-tuple. */
  datatype VelocityRecord =
    | Pair(first: real, second: real)
    | Quad(v08First: real, v08Second: real, v02First: real, v02Second: real)

  /** Everything a user could type after choosing a method: the readings of
      each method, and the factor and surface velocity of the surface method. */
  datatype Survey = Survey(
    stations06: seq<Station<Reading06>>,
    stations0802: seq<Station<Reading0802>>,
    sections: seq<Section>,
    factor: real,
    surfaceVelocity: real)

  function Min(a: real, b: real): real { if a <= b then a else b }
  function Max(a: real, b: real): real { if a <= b then b else a }

  /** Number of iterations of Python's `range(n)`. */
  function Iterations(n: int): nat { if n < 0 then 0 else n }

  // ---------------------------------------------------------------------
  // Input constraints imposed by the dashboards' `min_value`/`max_value`
  // ---------------------------------------------------------------------

  predicate Measured(s: Section) { 0.0 <= s.width && 0.0 <= s.depth1 && 0.0 <= s.depth2 }
  predicate Forward06(r: Reading06) { 0.0 <= r.v1 && 0.0 <= r.v2 }
  predicate Forward0802(r: Reading0802)
  {
    0.0 <= r.v08First && 0.0 <= r.v08Second && 0.0 <= r.v02First && 0.0 <= r.v02Second
  }

  predicate AllMeasured(secs: seq<Section>) { forall k :: 0 <= k < |secs| ==> Measured(secs[k]) }
  predicate AllForward06(ss: seq<Station<Reading06>>)
  {
    forall k :: 0 <= k < |ss| ==> Measured(ss[k].section) && Forward06(ss[k].reading)
  }
  predicate AllForward0802(ss: seq<Station<Reading0802>>)
  {
    forall k :: 0 <= k < |ss| ==> Measured(ss[k].section) && Forward0802(ss[k].reading)
  }

  /** The surface method's factor as the dashboards constrain it. */
  predicate ValidFactor(cf: real) { 0.0 <= cf <= 1.0 }

  // ---------------------------------------------------------------------
  // Section geometry
  // ---------------------------------------------------------------------

  /** Mean depth of a section: it lies between the two measured depths. */
  function MeanDepth(s: Section): (d: real)
    ensures Min(s.depth1, s.depth2) <= d <= Max(s.depth1, s.depth2)
  {
    (s.depth1 + s.depth2) / 2.0
  }

  /** Cross-section area, mean depth times width: for a non-negative width it
      lies between the rectangles on the shallower and the deeper depth, and
      it is non-negative for a measured section. */
  function Area(s: Section): (a: real)
    ensures 0.0 <= s.width ==> Min(s.depth1, s.depth2) * s.width <= a <= Max(s.depth1, s.depth2) * s.width
    ensures Measured(s) ==> 0.0 <= a
  {
    var d := MeanDepth(s);
    assert 0.0 <= s.width ==> Min(s.depth1, s.depth2) * s.width <= d * s.width <= Max(s.depth1, s.depth2) * s.width by {
      if 0.0 <= s.width {
        MulMonotone(Min(s.depth1, s.depth2), d, s.width);
        MulMonotone(d, Max(s.depth1, s.depth2), s.width);
      }
    }
    d * s.width
  }

  lemma MulMonotone(a: real, b: real, c: real)
    requires a <= b && 0.0 <= c
    ensures a * c <= b * c
  {
    assert b * c - a * c == (b - a) * c;
  }

  // ---------------------------------------------------------------------
  // Velocity rules
  // ---------------------------------------------------------------------

  /** 0.6Y: the mean of the two readings, which lies between them. */
  function Mean06(r: Reading06): (v: real)
    ensures Min(r.v1, r.v2) <= v <= Max(r.v1, r.v2)
  {
    (r.v1 + r.v2) / 2.0
  }

  /** The flat, equally weighted mean of all four 0.8Y/0.2Y readings. */
  function FlatMean(r: Reading0802): real
  {
    (r.v08First + r.v08Second + r.v02First + r.v02Second) / 4.0
  }

  /** 0.8Y/0.2Y paired by measurement point first, then averaged across the
      two points; over the reals this is the flat four-way mean. */
  function Mean0802ByPoint(r: Reading0802): (v: real)
    ensures v == FlatMean(r)
  {
    ((r.v08First + r.v02First) / 2.0 + (r.v08Second + r.v02Second) / 2.0) / 2.0
  }

  /** 0.8Y/0.2Y paired by depth fraction first, then averaged across the two
      fractions; it agrees with the point-first order and the flat mean. */
  function Mean0802ByDepth(r: Reading0802): (v: real)
    ensures v == Mean0802ByPoint(r)
    ensures v == FlatMean(r)
  {
    ((r.v08First + r.v08Second) / 2.0 + (r.v02First + r.v02Second) / 2.0) / 2.0
  }

  /** `area * (v1 + v2) / 2`, evaluated left to right, is the 0.6Y section
      discharge. */
  lemma ProductThenHalf(area: real, vel1: real, vel2: real, st: Station<Reading06>)
    requires area == Area(st.section) && vel1 == st.reading.v1 && vel2 == st.reading.v2
    ensures area * (vel1 + vel2) / 2.0 == Discharge06(st)
  {
  }

  /** A section's area times its 0.6Y mean is its 0.6Y discharge. */
  lemma AreaTimesMean06(area: real, avgVel: real, st: Station<Reading06>)
    requires area == Area(st.section) && avgVel == Mean06(st.reading)
    ensures area * avgVel == Discharge06(st)
  {
  }

  /** A section's area times its depth-first 0.8Y/0.2Y mean is its
      depth-first discharge. */
  lemma AreaTimesDepthMean0802(area: real, avgVel: real, st: Station<Reading0802>)
    requires area == Area(st.section) && avgVel == Mean0802ByDepth(st.reading)
    ensures area * avgVel == Discharge0802ByDepth(st)
  {
  }

  /** The same for 0.8Y/0.2Y: the section's area times its point-first mean. */
  lemma AreaTimesMean0802(area: real, avgVel: real, st: Station<Reading0802>)
    requires area == Area(st.section) && avgVel == Mean0802ByPoint(st.reading)
    ensures area * avgVel == Discharge0802ByPoint(st)
  {
  }

  // ---------------------------------------------------------------------
  // Section discharges
  // ---------------------------------------------------------------------

  /** 0.6Y section discharge, area times mean velocity; non-negative for
      non-negative inputs. */
  function Discharge06(st: Station<Reading06>): (q: real)
    ensures Measured(st.section) && Forward06(st.reading) ==> 0.0 <= q
  {
    Area(st.section) * Mean06(st.reading)
  }

  /** 0.8Y/0.2Y section discharge with the point-first mean. */
  function Discharge0802ByPoint(st: Station<Reading0802>): (q: real)
    ensures Measured(st.section) && Forward0802(st.reading) ==> 0.0 <= q
  {
    Area(st.section) * Mean0802ByPoint(st.reading)
  }

  /** 0.8Y/0.2Y section discharge with the depth-first mean; the same value
      as the point-first one. */
  function Discharge0802ByDepth(st: Station<Reading0802>): (q: real)
    ensures q == Discharge0802ByPoint(st)
  {
    Area(st.section) * Mean0802ByDepth(st.reading)
  }

  // ---------------------------------------------------------------------
  // Per-section series
  // ---------------------------------------------------------------------

  function Sections<R>(ss: seq<Station<R>>): (secs: seq<Section>)
    ensures |secs| == |ss|
    ensures forall k :: 0 <= k < |ss| ==> secs[k] == ss[k].section
  {
    seq(|ss|, k requires 0 <= k < |ss| => ss[k].section)
  }

  function Widths(secs: seq<Section>): (ws: seq<real>)
    ensures |ws| == |secs|
    ensures forall k :: 0 <= k < |secs| ==> ws[k] == secs[k].width
  {
    seq(|secs|, k requires 0 <= k < |secs| => secs[k].width)
  }

  function DepthPairs(secs: seq<Section>): (ds: seq<(real, real)>)
    ensures |ds| == |secs|
    ensures forall k :: 0 <= k < |secs| ==> ds[k] == (secs[k].depth1, secs[k].depth2)
  {
    seq(|secs|, k requires 0 <= k < |secs| => (secs[k].depth1, secs[k].depth2))
  }

  /** The mean-depth series main.py plots: each entry lies between its
      section's two depths. */
  function MeanDepths(secs: seq<Section>): (ds: seq<real>)
    ensures |ds| == |secs|
    ensures forall k :: 0 <= k < |secs| ==> ds[k] == MeanDepth(secs[k])
    ensures forall k :: 0 <= k < |secs| ==>
      Min(secs[k].depth1, secs[k].depth2) <= ds[k] <= Max(secs[k].depth1, secs[k].depth2)
  {
    seq(|secs|, k requires 0 <= k < |secs| => MeanDepth(secs[k]))
  }

  /** The section areas: none is negative when every section is measured. */
  function Areas(secs: seq<Section>): (areas: seq<real>)
    ensures |areas| == |secs|
    ensures forall k :: 0 <= k < |secs| ==> areas[k] == Area(secs[k])
    ensures AllMeasured(secs) ==> forall k :: 0 <= k < |secs| ==> 0.0 <= areas[k]
  {
    seq(|secs|, k requires 0 <= k < |secs| => Area(secs[k]))
  }

  /** The 0.6Y velocity series: each entry lies between its two readings. */
  function Velocities06(ss: seq<Station<Reading06>>): (vs: seq<real>)
    ensures |vs| == |ss|
    ensures forall k :: 0 <= k < |ss| ==> vs[k] == Mean06(ss[k].reading)
    ensures forall k :: 0 <= k < |ss| ==>
      Min(ss[k].reading.v1, ss[k].reading.v2) <= vs[k] <= Max(ss[k].reading.v1, ss[k].reading.v2)
  {
    seq(|ss|, k requires 0 <= k < |ss| => Mean06(ss[k].reading))
  }

  /** The 0.8Y/0.2Y velocity series main.py plots: each entry is also the
      depth-first mean, and the flat four-way mean. */
  function Velocities0802ByPoint(ss: seq<Station<Reading0802>>): (vs: seq<real>)
    ensures |vs| == |ss|
    ensures forall k :: 0 <= k < |ss| ==> vs[k] == Mean0802ByPoint(ss[k].reading)
    ensures forall k :: 0 <= k < |ss| ==>
      vs[k] == Mean0802ByDepth(ss[k].reading) && vs[k] == FlatMean(ss[k].reading)
  {
    seq(|ss|, k requires 0 <= k < |ss| => Mean0802ByPoint(ss[k].reading))
  }

  /** The 0.6Y section discharges: none is negative for measured sections
      with forward readings. */
  function Discharges06(ss: seq<Station<Reading06>>): (qs: seq<real>)
    ensures |qs| == |ss|
    ensures forall k :: 0 <= k < |ss| ==> qs[k] == Discharge06(ss[k])
    ensures AllForward06(ss) ==> forall k :: 0 <= k < |ss| ==> 0.0 <= qs[k]
  {
    seq(|ss|, k requires 0 <= k < |ss| => Discharge06(ss[k]))
  }

  /** The point-first 0.8Y/0.2Y section discharges: none is negative for
      measured sections with forward readings. */
  function Discharges0802ByPoint(ss: seq<Station<Reading0802>>): (qs: seq<real>)
    ensures |qs| == |ss|
    ensures forall k :: 0 <= k < |ss| ==> qs[k] == Discharge0802ByPoint(ss[k])
    ensures AllForward0802(ss) ==> forall k :: 0 <= k < |ss| ==> 0.0 <= qs[k]
  {
    seq(|ss|, k requires 0 <= k < |ss| => Discharge0802ByPoint(ss[k]))
  }

  /** The depth-first section discharges of sample4-6: the same series as
      the point-first one. */
  function Discharges0802ByDepth(ss: seq<Station<Reading0802>>): (qs: seq<real>)
    ensures |qs| == |ss|
    ensures forall k :: 0 <= k < |ss| ==> qs[k] == Discharge0802ByDepth(ss[k])
    ensures qs == Discharges0802ByPoint(ss)
  {
    seq(|ss|, k requires 0 <= k < |ss| => Discharge0802ByDepth(ss[k]))
  }

  /** Reading one more section extends each per-section series by that
      section's entry. */
  lemma SectionSeriesSnoc(secs: seq<Section>, s: Section)
    ensures Widths(secs + [s]) == Widths(secs) + [s.width]
    ensures DepthPairs(secs + [s]) == DepthPairs(secs) + [(s.depth1, s.depth2)]
    ensures MeanDepths(secs + [s]) == MeanDepths(secs) + [MeanDepth(s)]
    ensures Areas(secs + [s]) == Areas(secs) + [Area(s)]
  {
    var all := secs + [s];
    forall k | 0 <= k < |secs| ensures all[k] == secs[k] { }
    assert Widths(all) == Widths(secs) + [s.width];
    assert DepthPairs(all) == DepthPairs(secs) + [(s.depth1, s.depth2)];
    assert MeanDepths(all) == MeanDepths(secs) + [MeanDepth(s)];
    assert Areas(all) == Areas(secs) + [Area(s)];
  }

  lemma Stations06Snoc(ss: seq<Station<Reading06>>, st: Station<Reading06>)
    ensures Sections(ss + [st]) == Sections(ss) + [st.section]
    ensures RawPairs(ss + [st]) == RawPairs(ss) + [Pair(st.reading.v1, st.reading.v2)]
    ensures MeanPairs06(ss + [st]) == MeanPairs06(ss) + [Pair(Mean06(st.reading), Mean06(st.reading))]
    ensures Velocities06(ss + [st]) == Velocities06(ss) + [Mean06(st.reading)]
    ensures Discharges06(ss + [st]) == Discharges06(ss) + [Discharge06(st)]
  {
    var all := ss + [st];
    forall k | 0 <= k < |ss| ensures all[k] == ss[k] { }
    assert Sections(all) == Sections(ss) + [st.section];
    assert RawPairs(all) == RawPairs(ss) + [Pair(st.reading.v1, st.reading.v2)];
    assert MeanPairs06(all) == MeanPairs06(ss) + [Pair(Mean06(st.reading), Mean06(st.reading))];
    assert Velocities06(all) == Velocities06(ss) + [Mean06(st.reading)];
    assert Discharges06(all) == Discharges06(ss) + [Discharge06(st)];
  }

  lemma Stations0802Snoc(ss: seq<Station<Reading0802>>, st: Station<Reading0802>)
    ensures Sections(ss + [st]) == Sections(ss) + [st.section]
    ensures RawQuads(ss + [st]) == RawQuads(ss) + [Quad(st.reading.v08First, st.reading.v08Second, st.reading.v02First, st.reading.v02Second)]
    ensures Velocities0802ByPoint(ss + [st]) == Velocities0802ByPoint(ss) + [Mean0802ByPoint(st.reading)]
    ensures Discharges0802ByPoint(ss + [st]) == Discharges0802ByPoint(ss) + [Discharge0802ByPoint(st)]
    ensures Discharges0802ByDepth(ss + [st]) == Discharges0802ByDepth(ss) + [Discharge0802ByDepth(st)]
  {
    var all := ss + [st];
    forall k | 0 <= k < |ss| ensures all[k] == ss[k] { }
    assert Sections(all) == Sections(ss) + [st.section];
    assert RawQuads(all) == RawQuads(ss) + [Quad(st.reading.v08First, st.reading.v08Second, st.reading.v02First, st.reading.v02Second)];
    assert Velocities0802ByPoint(all) == Velocities0802ByPoint(ss) + [Mean0802ByPoint(st.reading)];
    assert Discharges0802ByPoint(all) == Discharges0802ByPoint(ss) + [Discharge0802ByPoint(st)];
    assert Discharges0802ByDepth(all) == Discharges0802ByDepth(ss) + [Discharge0802ByDepth(st)];
  }

  /** Each entry multiplied by the conversion factor on the left and the
      surface velocity on the right, as `cf * x * sv` is written. */
  function ScaleBy(xs: seq<real>, cf: real, sv: real): (ys: seq<real>)
    ensures |ys| == |xs|
    ensures forall k :: 0 <= k < |xs| ==> ys[k] == cf * xs[k] * sv
  {
    seq(|xs|, k requires 0 <= k < |xs| => cf * xs[k] * sv)
  }

  /** The raw 2-tuples `(v1, v2)` a 0.6Y run stores. */
  function RawPairs(ss: seq<Station<Reading06>>): (vs: seq<VelocityRecord>)
    ensures |vs| == |ss|
    ensures forall k :: 0 <= k < |ss| ==> vs[k] == Pair(ss[k].reading.v1, ss[k].reading.v2)
  {
    seq(|ss|, k requires 0 <= k < |ss| => Pair(ss[k].reading.v1, ss[k].reading.v2))
  }

  /** The raw 4-tuples a 0.8Y/0.2Y run stores. */
  function RawQuads(ss: seq<Station<Reading0802>>): (vs: seq<VelocityRecord>)
    ensures |vs| == |ss|
    ensures forall k :: 0 <= k < |ss| ==>
      vs[k] == Quad(ss[k].reading.v08First, ss[k].reading.v08Second, ss[k].reading.v02First, ss[k].reading.v02Second)
  {
    seq(|ss|, k requires 0 <= k < |ss| =>
      Quad(ss[k].reading.v08First, ss[k].reading.v08Second, ss[k].reading.v02First, ss[k].reading.v02Second))
  }

  /** The `(v, v)` tuples, one per section mean velocity `v`. */
  function MeanPairs06(ss: seq<Station<Reading06>>): (vs: seq<VelocityRecord>)
    ensures |vs| == |ss|
    ensures forall k :: 0 <= k < |ss| ==> vs[k] == Pair(Mean06(ss[k].reading), Mean06(ss[k].reading))
  {
    seq(|ss|, k requires 0 <= k < |ss| => Pair(Mean06(ss[k].reading), Mean06(ss[k].reading)))
  }

  function Repeat<T>(x: T, n: nat): (xs: seq<T>)
    ensures |xs| == n
    ensures forall k :: 0 <= k < n ==> xs[k] == x
  {
    seq(n, k requires 0 <= k < n => x)
  }

  // ---------------------------------------------------------------------
  // Accumulation
  // ---------------------------------------------------------------------

  /** Left-to-right sum starting from 0, as `total += x` accumulates it. */
  function Sum(xs: seq<real>): real
  {
    if |xs| == 0 then 0.0 else Sum(xs[..|xs| - 1]) + xs[|xs| - 1]
  }

  /** The running totals reported after each section: entry k is the sum of
      the first k + 1 entries. */
  function RunningTotals(xs: seq<real>): (ts: seq<real>)
    ensures |ts| == |xs|
    ensures forall k :: 0 <= k < |xs| ==> ts[k] == Sum(xs[..k + 1])
  {
    seq(|xs|, k requires 0 <= k < |xs| => Sum(xs[..k + 1]))
  }

  /** Accumulating one more entry: the sum grows by it and the running
      totals gain the new total. */
  lemma RunningTotalsSnoc(xs: seq<real>, x: real)
    ensures Sum(xs + [x]) == Sum(xs) + x
    ensures RunningTotals(xs + [x]) == RunningTotals(xs) + [Sum(xs) + x]
  {
    var all := xs + [x];
    assert all[..|xs|] == xs;
    assert all[..|xs| + 1] == all;
    SumStep(all, |xs|);
    RunningTotalsStep(all, |xs|);
  }

  /** One more accumulation step. */
  lemma SumStep(xs: seq<real>, i: nat)
    requires i < |xs|
    ensures Sum(xs[..i + 1]) == Sum(xs[..i]) + xs[i]
  {
    assert xs[..i + 1][..i] == xs[..i];
  }

  /** Appending one section's running total. */
  lemma RunningTotalsStep(xs: seq<real>, i: nat)
    requires i < |xs|
    ensures RunningTotals(xs[..i + 1]) == RunningTotals(xs[..i]) + [Sum(xs[..i]) + xs[i]]
  {
    var a, b := RunningTotals(xs[..i + 1]), RunningTotals(xs[..i]) + [Sum(xs[..i]) + xs[i]];
    forall k | 0 <= k < i + 1 ensures a[k] == b[k] {
      if k < i {
        assert xs[..i + 1][..k + 1] == xs[..i][..k + 1];
      } else {
        SumStep(xs, i);
        assert xs[..i + 1][..i + 1] == xs[..i + 1];
      }
    }
  }

  /** The last running total is the total. */
  lemma RunningTotalsLast(xs: seq<real>)
    requires |xs| > 0
    ensures RunningTotals(xs)[|xs| - 1] == Sum(xs)
  {
    assert xs[..|xs|] == xs;
  }

  /** A sum of non-negative discharges is non-negative. */
  lemma {:induction false} SumNonNegative(xs: seq<real>)
    requires forall k :: 0 <= k < |xs| ==> 0.0 <= xs[k]
    ensures 0.0 <= Sum(xs)
  {
    if |xs| > 0 {
      SumNonNegative(xs[..|xs| - 1]);
    }
  }

  /** With non-negative entries a longer prefix never has a smaller sum. */
  lemma {:induction false} SumPrefixMonotone(xs: seq<real>, j: nat, k: nat)
    requires j <= k <= |xs|
    requires forall m :: 0 <= m < |xs| ==> 0.0 <= xs[m]
    ensures Sum(xs[..j]) <= Sum(xs[..k])
  {
    if j < k {
      SumPrefixMonotone(xs, j, k - 1);
      SumStep(xs, k - 1);
    }
  }

  predicate Nondecreasing(xs: seq<real>)
  {
    forall j, k :: 0 <= j <= k < |xs| ==> xs[j] <= xs[k]
  }

  /** Running totals of non-negative discharges never decrease, and none of
      them is negative. */
  lemma RunningTotalsNondecreasing(xs: seq<real>)
    requires forall m :: 0 <= m < |xs| ==> 0.0 <= xs[m]
    ensures Nondecreasing(RunningTotals(xs))
    ensures forall k :: 0 <= k < |xs| ==> 0.0 <= RunningTotals(xs)[k]
  {
    var ts := RunningTotals(xs);
    forall j, k | 0 <= j <= k < |ts| ensures ts[j] <= ts[k] {
      SumPrefixMonotone(xs, j + 1, k + 1);
    }
    forall k | 0 <= k < |ts| ensures 0.0 <= ts[k] {
      SumPrefixMonotone(xs, 0, k + 1);
    }
  }

  /** Distributivity: summing `cf * area * sv` section by section gives the
      same total as `cf * (sum of areas) * sv`. */
  lemma {:induction false} SumScaled(xs: seq<real>, cf: real, sv: real)
    ensures Sum(ScaleBy(xs, cf, sv)) == cf * Sum(xs) * sv
  {
    if |xs| > 0 {
      var n := |xs| - 1;
      var ys := ScaleBy(xs, cf, sv);
      ScaleByPrefix(xs, n, cf, sv);
      SumScaled(xs[..n], cf, sv);
      calc {
        Sum(ys);
        Sum(ys[..n]) + ys[n];
        cf * Sum(xs[..n]) * sv + cf * xs[n] * sv;
        { assert cf * Sum(xs[..n]) * sv + cf * xs[n] * sv == cf * (Sum(xs[..n]) + xs[n]) * sv; }
        cf * (Sum(xs[..n]) + xs[n]) * sv;
      }
    }
  }

  lemma ScaleByPrefix(xs: seq<real>, n: nat, cf: real, sv: real)
    requires n <= |xs|
    ensures ScaleBy(xs, cf, sv)[..n] == ScaleBy(xs[..n], cf, sv)
  {
    var a, b := ScaleBy(xs, cf, sv)[..n], ScaleBy(xs[..n], cf, sv);
    forall k | 0 <= k < n ensures a[k] == b[k] {
      assert xs[..n][k] == xs[k];
    }
  }

  /** Scaling one more area appends its scaled value. */
  lemma ScaleBySnoc(xs: seq<real>, x: real, cf: real, sv: real)
    ensures ScaleBy(xs + [x], cf, sv) == ScaleBy(xs, cf, sv) + [cf * x * sv]
  {
    var a, b := ScaleBy(xs + [x], cf, sv), ScaleBy(xs, cf, sv) + [cf * x * sv];
    forall k | 0 <= k < |a| ensures a[k] == b[k] {
      if k < |xs| {
        assert (xs + [x])[k] == xs[k];
      }
    }
  }

  /** The incremental surface strategy reports, after each section, the same
      partial total as the area-first strategy: running totals of the scaled
      areas are the scaled running totals of the areas. */
  lemma RunningTotalsScaled(xs: seq<real>, cf: real, sv: real)
    ensures RunningTotals(ScaleBy(xs, cf, sv)) == ScaleBy(RunningTotals(xs), cf, sv)
  {
    var ys := ScaleBy(xs, cf, sv);
    var a, b := RunningTotals(ys), ScaleBy(RunningTotals(xs), cf, sv);
    forall k | 0 <= k < |xs| ensures a[k] == b[k] {
      ScaleByPrefix(xs, k + 1, cf, sv);
      SumScaled(xs[..k + 1], cf, sv);
    }
  }

  /** The surface-velocity discharge computed area first,
      `cf * (sum of areas) * sv`: the same as summing each section's
      `cf * area * sv`, and non-negative for non-negative areas, factor and
      velocity. */
  function SurfaceDischarge(areas: seq<real>, cf: real, sv: real): (q: real)
    ensures q == Sum(ScaleBy(areas, cf, sv))
  {
    SumScaled(areas, cf, sv);
    cf * Sum(areas) * sv
  }

  lemma SurfaceDischargeOf(areas: seq<real>, total: real, cf: real, sv: real)
    requires Sum(areas) == total
    ensures SurfaceDischarge(areas, cf, sv) == cf * total * sv
  {
  }

  /** Adding one section's `cf * a * sv` to the area-first total over the
      earlier areas gives the area-first total with `a` included. */
  lemma ScaledAdd(q: real, a: real, total: real, next: real, cf: real, sv: real)
    requires q == cf * total * sv && next == total + a
    ensures q + cf * a * sv == cf * next * sv
  {
    assert cf * next * sv == cf * total * sv + cf * a * sv;
  }

  /** With non-negative areas, factor and surface velocity the area-first
      total is non-negative. */
  lemma SurfaceDischargeNonNegative(areas: seq<real>, cf: real, sv: real)
    requires forall k :: 0 <= k < |areas| ==> 0.0 <= areas[k]
    requires 0.0 <= cf && 0.0 <= sv
    ensures 0.0 <= SurfaceDischarge(areas, cf, sv)
  {
    SumNonNegative(areas);
    var t := Sum(areas);
    MulMonotone(0.0, cf, t);
    MulMonotone(0.0, cf * t, sv);
  }

  // ---------------------------------------------------------------------
  // Display rounding
  // ---------------------------------------------------------------------

  function Pow10(n: nat): (p: nat)
    ensures 1 <= p
  {
    if n == 0 then 1 else 10 * Pow10(n - 1)
  }

  /** 10^places as a real. */
  function Scale(places: nat): (s: real)
    ensures 1.0 <= s
  {
    Pow10(places) as real
  }

  predicate Whole(y: real) { y.Floor as real == y }

  /** `x` is a whole multiple of 10^-places. */
  predicate OnGrid(x: real, places: nat) { Whole(x * Scale(places)) }

  /** The whole number nearest to `y`, ties to the even one. */
  function NearestEven(y: real): (n: int)
    ensures -0.5 <= n as real - y <= 0.5
  {
    var f := y.Floor;
    var frac := y - f as real;
    if frac < 0.5 then f else if frac > 0.5 then f + 1 else if f % 2 == 0 then f else f + 1
  }

  /** Python's `round(x, places)` taken on the decimal value: the nearest
      multiple of 10^-places, ties to the even multiple.  The result is on
      that grid and at most half a grid step from `x`. */
  function Round(x: real, places: nat): (r: real)
    ensures OnGrid(r, places)
    ensures x - 1.0 / (2.0 * Scale(places)) <= r <= x + 1.0 / (2.0 * Scale(places))
  {
    var n := NearestEven(x * Scale(places));
    RoundBounds(x, places, n);
    n as real / Scale(places)
  }

  lemma RoundBounds(x: real, places: nat, n: int)
    requires -0.5 <= n as real - x * Scale(places) <= 0.5
    ensures OnGrid(n as real / Scale(places), places)
    ensures x - 1.0 / (2.0 * Scale(places)) <= n as real / Scale(places) <= x + 1.0 / (2.0 * Scale(places))
  {
    var scale := Scale(places);
    var r := n as real / scale;
    var h := 1.0 / (2.0 * scale);
    assert r * scale == n as real;
    assert Whole(n as real);
    assert (r - x) * scale == n as real - x * scale;
    assert (x - r) * scale == x * scale - n as real;
    assert h * scale == 0.5;
    if r - x > h {
      MulStrict(h, r - x, scale);
      assert false;
    }
    if x - r > h {
      MulStrict(h, x - r, scale);
      assert false;
    }
  }

  lemma MulStrict(a: real, b: real, c: real)
    requires a < b && 0.0 < c
    ensures a * c < b * c
  {
    assert b * c - a * c == (b - a) * c;
  }

  /** Rounding a value already on the grid gives it back unchanged. */
  lemma RoundOnGrid(x: real, places: nat)
    requires OnGrid(x, places)
    ensures Round(x, places) == x
  {
    var y := x * Scale(places);
    assert Whole(y);
    var f := y.Floor;
    assert f as real == y;
    assert (f as real) / Scale(places) == x;
  }

  /** Ties-to-even rounding to a whole number never reverses an order. */
  lemma NearestEvenMonotone(y1: real, y2: real)
    requires y1 <= y2
    ensures NearestEven(y1) <= NearestEven(y2)
  {
    var f1, f2 := y1.Floor, y2.Floor;
    assert f1 <= f2;
    if f1 == f2 {
      assert y1 - f1 as real <= y2 - f2 as real;
    }
  }

  /** Display rounding is monotone: a larger total is never shown smaller. */
  lemma RoundMonotone(x: real, y: real, places: nat)
    requires x <= y
    ensures Round(x, places) <= Round(y, places)
  {
    GridMonotone(x, y, Scale(places));
    RoundUnfold(x, places);
    RoundUnfold(y, places);
  }

  lemma GridMonotone(x: real, y: real, scale: real)
    requires x <= y && 1.0 <= scale
    ensures NearestEven(x * scale) as real / scale <= NearestEven(y * scale) as real / scale
  {
    MulMonotone(x, y, scale);
    NearestEvenMonotone(x * scale, y * scale);
    DivMonotone(NearestEven(x * scale) as real, NearestEven(y * scale) as real, scale);
  }

  lemma RoundUnfold(x: real, places: nat)
    ensures Round(x, places) == NearestEven(x * Scale(places)) as real / Scale(places)
  {
  }

  lemma DivMonotone(a: real, b: real, c: real)
    requires a <= b && 0.0 < c
    ensures a / c <= b / c
  {
    assert b / c - a / c == (b - a) / c;
  }

  /** Rounding zero gives zero, and rounding a non-negative value gives a
      non-negative value. */
  lemma RoundNonNegative(x: real, places: nat)
    requires 0.0 <= x
    ensures 0.0 <= Round(x, places)
    ensures x == 0.0 ==> Round(x, places) == 0.0
  {
    RoundMonotone(0.0, x, places);
    RoundOnGrid(0.0, places);
  }

  /** Display rounding of each entry of a series. */
  function RoundEach(xs: seq<real>, places: nat): (ys: seq<real>)
    ensures |ys| == |xs|
    ensures forall k :: 0 <= k < |xs| ==> ys[k] == Round(xs[k], places)
  {
    seq(|xs|, k requires 0 <= k < |xs| => Round(xs[k], places))
  }

  lemma RoundEachSnoc(xs: seq<real>, x: real, places: nat)
    ensures RoundEach(xs + [x], places) == RoundEach(xs, places) + [Round(x, places)]
  {
    var all := xs + [x];
    forall k | 0 <= k < |xs| ensures all[k] == xs[k] { }
    assert RoundEach(all, places) == RoundEach(xs, places) + [Round(x, places)];
  }

  /** Rounding every entry of a non-decreasing series keeps it
      non-decreasing: the running totals shown never go down. */
  lemma RoundEachNondecreasing(xs: seq<real>, places: nat)
    requires Nondecreasing(xs)
    ensures Nondecreasing(RoundEach(xs, places))
  {
    var ys := RoundEach(xs, places);
    forall j, k | 0 <= j <= k < |ys| ensures ys[j] <= ys[k] {
      RoundMonotone(xs[j], xs[k], places);
    }
  }

  // ---------------------------------------------------------------------
  // Values the plots recompute from a calculator's lists
  // ---------------------------------------------------------------------

  /** `(v1 + v2) / 2` of a stored 2-tuple; for a `(v, v)` tuple it gives `v`
      back. */
  function PlotMean06(rec: VelocityRecord): (v: real)
    requires rec.Pair?
    ensures rec.first == rec.second ==> v == rec.first
    ensures v == Mean06(Reading06(rec.first, rec.second))
  {
    (rec.first + rec.second) / 2.0
  }

  function QuadReading(rec: VelocityRecord): Reading0802
    requires rec.Quad?
  {
    Reading0802(rec.v08First, rec.v08Second, rec.v02First, rec.v02Second)
  }

  /** The schematic's `((v1 + v3) / 2 + (v2 + v4) / 2) / 2` of a stored
      4-tuple, paired by point; it equals the depth-first mean the
      calculation used. */
  function PlotMean0802ByPoint(rec: VelocityRecord): (v: real)
    requires rec.Quad?
    ensures v == Mean0802ByDepth(QuadReading(rec))
  {
    ((rec.v08First + rec.v02First) / 2.0 + (rec.v08Second + rec.v02Second) / 2.0) / 2.0
  }

  /** The plot's `((v1 + v2) / 2 + (v3 + v4) / 2) / 2` of a stored 4-tuple,
      paired by depth fraction; it equals the point-first mean the
      calculation used. */
  function PlotMean0802ByDepth(rec: VelocityRecord): (v: real)
    requires rec.Quad?
    ensures v == Mean0802ByPoint(QuadReading(rec))
  {
    ((rec.v08First + rec.v08Second) / 2.0 + (rec.v02First + rec.v02Second) / 2.0) / 2.0
  }

  /** The schematic's surface velocity: last discharge over the summed
      areas, or 0 when the areas sum to nothing positive. */
  function DerivedSurfaceVelocity(discharges: seq<real>, areas: seq<real>): real
    requires Sum(areas) > 0.0 ==> |discharges| > 0
  {
    if Sum(areas) > 0.0 then discharges[|discharges| - 1] / Sum(areas) else 0.0
  }

  // ---------------------------------------------------------------------
  // One section at a time, with the totals shown
  // ---------------------------------------------------------------------

  /** One more 0.6Y section in the running totals and in the totals shown
      rounded: `total` is the running total after section `i`. */
  lemma Running06Step(ss: seq<Station<Reading06>>, i: nat, total: real, places: nat)
    requires i < |ss|
    requires total == Sum(Discharges06(ss[..i])) + Discharge06(ss[i])
    ensures Sum(Discharges06(ss[..i + 1])) == total
    ensures RoundEach(RunningTotals(Discharges06(ss[..i + 1])), places)
            == RoundEach(RunningTotals(Discharges06(ss[..i])), places) + [Round(total, places)]
  {
    var prefix, st := ss[..i], ss[i];
    assert ss[..i + 1] == prefix + [st];
    var qs := Discharges06(prefix);
    Stations06Snoc(prefix, st);
    RunningTotalsSnoc(qs, Discharge06(st));
    RoundEachSnoc(RunningTotals(qs), total, places);
  }

  /** The same for a 0.8Y/0.2Y section. */
  lemma Running0802Step(ss: seq<Station<Reading0802>>, i: nat, total: real, places: nat)
    requires i < |ss|
    requires total == Sum(Discharges0802ByPoint(ss[..i])) + Discharge0802ByPoint(ss[i])
    ensures Sum(Discharges0802ByPoint(ss[..i + 1])) == total
    ensures RoundEach(RunningTotals(Discharges0802ByPoint(ss[..i + 1])), places)
            == RoundEach(RunningTotals(Discharges0802ByPoint(ss[..i])), places) + [Round(total, places)]
  {
    var prefix, st := ss[..i], ss[i];
    assert ss[..i + 1] == prefix + [st];
    var qs := Discharges0802ByPoint(prefix);
    Stations0802Snoc(prefix, st);
    RunningTotalsSnoc(qs, Discharge0802ByPoint(st));
    RoundEachSnoc(RunningTotals(qs), total, places);
  }

  /** One more surface section in the area total and in the partial totals
      shown rounded: `total` is the sum of the areas up to section `i`. */
  lemma RunningSurfaceStep(secs: seq<Section>, i: nat, cf: real, sv: real, total: real, places: nat)
    requires i < |secs|
    requires total == Sum(Areas(secs[..i])) + Area(secs[i])
    ensures Sum(Areas(secs[..i + 1])) == total
    ensures SurfaceDischarge(Areas(secs[..i + 1]), cf, sv) == cf * total * sv
    ensures RoundEach(ScaleBy(RunningTotals(Areas(secs[..i + 1])), cf, sv), places)
            == RoundEach(ScaleBy(RunningTotals(Areas(secs[..i])), cf, sv), places) + [Round(cf * total * sv, places)]
  {
    var prefix, s := secs[..i], secs[i];
    assert secs[..i + 1] == prefix + [s];
    var areas := Areas(prefix);
    var totals := RunningTotals(areas);
    SectionSeriesSnoc(prefix, s);
    assert Areas(secs[..i + 1]) == areas + [Area(s)];
    RunningTotalsSnoc(areas, Area(s));
    ScaleBySnoc(totals, total, cf, sv);
    SurfaceDischargeOf(Areas(secs[..i + 1]), total, cf, sv);
    RoundEachSnoc(ScaleBy(totals, cf, sv), cf * total * sv, places);
  }
}
