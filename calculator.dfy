/** The five lists a class-based `DischargeCalculator` keeps, and what each
    method leaves in them.  Two behaviours occur among the scripts: the
    appending one (sample2.py, sample3.py, sample5.py), where each section
    adds a running total to `discharges`, and the overwriting one
    (sample4.py, sample6.py), where a run replaces `areas`, `velocities` and
    `discharges` and leaves `discharges == [total]`.  In both, every section
    read appends one width and one depth pair. */
module Calculator {
  import opened Engine

  datatype Lists = Lists(
    depths: seq<(real, real)>,
    velocities: seq<VelocityRecord>,
    discharges: seq<real>,
    widths: seq<real>,
    areas: seq<real>)

  /** The lists of a new or reset calculator. */
  const Empty := Lists([], [], [], [], [])

  /** `get_measurements` once per section: one width and one depth pair each. */
  function AfterMeasurements(l: Lists, secs: seq<Section>): Lists
  {
    l.(widths := l.widths + Widths(secs), depths := l.depths + DepthPairs(secs))
  }

  // ---------------------------------------------------------------------
  // Appending behaviour
  // ---------------------------------------------------------------------

  /** 0.6Y: raw `(v1, v2)` per section, running total per section. */
  function Appended06(l: Lists, ss: seq<Station<Reading06>>): Lists
  {
    AfterMeasurements(l, Sections(ss)).(
      velocities := l.velocities + RawPairs(ss),
      discharges := l.discharges + RunningTotals(Discharges06(ss)))
  }

  /** 0.8Y/0.2Y: raw 4-tuple per section, running total of the point-first
      discharges per section. */
  function Appended0802(l: Lists, ss: seq<Station<Reading0802>>): Lists
  {
    AfterMeasurements(l, Sections(ss)).(
      velocities := l.velocities + RawQuads(ss),
      discharges := l.discharges + RunningTotals(Discharges0802ByPoint(ss)))
  }

  /** Surface: each area appended, and after section k the area-first
      partial total `cf * (areas[0] + ... + areas[k]) * sv`. */
  function AppendedSurface(l: Lists, secs: seq<Section>, cf: real, sv: real): Lists
  {
    AfterMeasurements(l, secs).(
      areas := l.areas + Areas(secs),
      discharges := l.discharges + ScaleBy(RunningTotals(Areas(secs)), cf, sv))
  }

  // ---------------------------------------------------------------------
  // Overwriting behaviour
  // ---------------------------------------------------------------------

  /** 0.6Y: section areas, `(v, v)` per section mean `v`, and `[total]`. */
  function Overwritten06(l: Lists, ss: seq<Station<Reading06>>): Lists
  {
    AfterMeasurements(l, Sections(ss)).(
      areas := Areas(Sections(ss)),
      velocities := MeanPairs06(ss),
      discharges := [Sum(Discharges06(ss))])
  }

  /** 0.8Y/0.2Y: section areas, raw 4-tuples, and `[total]` of the
      depth-first discharges. */
  function Overwritten0802(l: Lists, ss: seq<Station<Reading0802>>): Lists
  {
    AfterMeasurements(l, Sections(ss)).(
      areas := Areas(Sections(ss)),
      velocities := RawQuads(ss),
      discharges := [Sum(Discharges0802ByDepth(ss))])
  }

  /** Surface: section areas, one `(sv, sv)` per section, and `[total]` of
      the incremental section discharges `cf * area * sv`. */
  function OverwrittenSurface(l: Lists, secs: seq<Section>, cf: real, sv: real): Lists
  {
    AfterMeasurements(l, secs).(
      areas := Areas(secs),
      velocities := Repeat(Pair(sv, sv), |secs|),
      discharges := [Sum(ScaleBy(Areas(secs), cf, sv))])
  }

  // ---------------------------------------------------------------------
  // One section at a time
  // ---------------------------------------------------------------------

  /** One more 0.6Y section: one more width, depth pair and raw pair, and
      the new running total `total`. */
  lemma Appended06Step(l: Lists, ss: seq<Station<Reading06>>, i: nat, total: real)
    requires i < |ss|
    requires total == Sum(Discharges06(ss[..i])) + Discharge06(ss[i])
    ensures var m, s, r := Appended06(l, ss[..i]), ss[i].section, ss[i].reading;
      Appended06(l, ss[..i + 1])
      == Lists(m.depths + [(s.depth1, s.depth2)], m.velocities + [Pair(r.v1, r.v2)],
               m.discharges + [total], m.widths + [s.width], m.areas)
  {
    var prefix, st := ss[..i], ss[i];
    assert ss[..i + 1] == prefix + [st];
    Stations06Snoc(prefix, st);
    SectionSeriesSnoc(Sections(prefix), st.section);
    RunningTotalsSnoc(Discharges06(prefix), Discharge06(st));
  }

  /** One more 0.8Y/0.2Y section. */
  lemma Appended0802Step(l: Lists, ss: seq<Station<Reading0802>>, i: nat, total: real)
    requires i < |ss|
    requires total == Sum(Discharges0802ByPoint(ss[..i])) + Discharge0802ByPoint(ss[i])
    ensures var m, s, r := Appended0802(l, ss[..i]), ss[i].section, ss[i].reading;
      Appended0802(l, ss[..i + 1])
      == Lists(m.depths + [(s.depth1, s.depth2)], m.velocities + [Quad(r.v08First, r.v08Second, r.v02First, r.v02Second)],
               m.discharges + [total], m.widths + [s.width], m.areas)
  {
    var prefix, st := ss[..i], ss[i];
    assert ss[..i + 1] == prefix + [st];
    Stations0802Snoc(prefix, st);
    SectionSeriesSnoc(Sections(prefix), st.section);
    RunningTotalsSnoc(Discharges0802ByPoint(prefix), Discharge0802ByPoint(st));
  }

  /** One more surface section: one more area, and the area-first partial
      total `cf * total * sv` over all areas so far. */
  lemma AppendedSurfaceStep(l: Lists, secs: seq<Section>, i: nat, cf: real, sv: real, total: real)
    requires i < |secs|
    requires total == Sum(Areas(secs[..i])) + Area(secs[i])
    ensures var m, s := AppendedSurface(l, secs[..i], cf, sv), secs[i];
      AppendedSurface(l, secs[..i + 1], cf, sv)
      == Lists(m.depths + [(s.depth1, s.depth2)], m.velocities,
               m.discharges + [cf * total * sv], m.widths + [s.width], m.areas + [Area(s)])
  {
    var prefix, s := secs[..i], secs[i];
    assert secs[..i + 1] == prefix + [s];
    var areas := Areas(prefix);
    var totals := RunningTotals(areas);
    var q := cf * total * sv;
    SectionSeriesSnoc(prefix, s);
    assert Areas(prefix + [s]) == areas + [Area(s)];
    RunningTotalsSnoc(areas, Area(s));
    assert RunningTotals(Areas(prefix + [s])) == totals + [total];
    ScaleBySnoc(totals, total, cf, sv);
    assert ScaleBy(RunningTotals(Areas(prefix + [s])), cf, sv) == ScaleBy(totals, cf, sv) + [q];
    assert l.discharges + (ScaleBy(totals, cf, sv) + [q]) == (l.discharges + ScaleBy(totals, cf, sv)) + [q];
    assert l.areas + (areas + [Area(s)]) == (l.areas + areas) + [Area(s)];
  }

  /** One more section read by an overwriting 0.6Y run: one more width and
      depth pair in the lists, and one more entry in each local series. */
  lemma Overwriting06Step(l: Lists, ss: seq<Station<Reading06>>, i: nat)
    requires i < |ss|
    ensures var m, st := AfterMeasurements(l, Sections(ss[..i])), ss[i];
      AfterMeasurements(l, Sections(ss[..i + 1]))
        == m.(widths := m.widths + [st.section.width], depths := m.depths + [(st.section.depth1, st.section.depth2)])
      && Areas(Sections(ss[..i + 1])) == Areas(Sections(ss[..i])) + [Area(st.section)]
      && Velocities06(ss[..i + 1]) == Velocities06(ss[..i]) + [Mean06(st.reading)]
      && Discharges06(ss[..i + 1]) == Discharges06(ss[..i]) + [Discharge06(st)]
  {
    var prefix, st := ss[..i], ss[i];
    assert ss[..i + 1] == prefix + [st];
    Stations06Snoc(prefix, st);
    SectionSeriesSnoc(Sections(prefix), st.section);
  }

  /** The same for an overwriting 0.8Y/0.2Y run. */
  lemma Overwriting0802Step(l: Lists, ss: seq<Station<Reading0802>>, i: nat)
    requires i < |ss|
    ensures var m, st := AfterMeasurements(l, Sections(ss[..i])), ss[i];
      var r := st.reading;
      AfterMeasurements(l, Sections(ss[..i + 1]))
        == m.(widths := m.widths + [st.section.width], depths := m.depths + [(st.section.depth1, st.section.depth2)])
      && Areas(Sections(ss[..i + 1])) == Areas(Sections(ss[..i])) + [Area(st.section)]
      && RawQuads(ss[..i + 1]) == RawQuads(ss[..i]) + [Quad(r.v08First, r.v08Second, r.v02First, r.v02Second)]
      && Discharges0802ByDepth(ss[..i + 1]) == Discharges0802ByDepth(ss[..i]) + [Discharge0802ByDepth(st)]
  {
    var prefix, st := ss[..i], ss[i];
    assert ss[..i + 1] == prefix + [st];
    Stations0802Snoc(prefix, st);
    SectionSeriesSnoc(Sections(prefix), st.section);
  }

  /** The same for an overwriting surface run. */
  lemma OverwritingSurfaceStep(l: Lists, secs: seq<Section>, i: nat)
    requires i < |secs|
    ensures var m, s := AfterMeasurements(l, secs[..i]), secs[i];
      AfterMeasurements(l, secs[..i + 1])
        == m.(widths := m.widths + [s.width], depths := m.depths + [(s.depth1, s.depth2)])
      && Areas(secs[..i + 1]) == Areas(secs[..i]) + [Area(s)]
  {
    var prefix, s := secs[..i], secs[i];
    assert secs[..i + 1] == prefix + [s];
    SectionSeriesSnoc(prefix, s);
  }

  // ---------------------------------------------------------------------
  // Properties of the appending behaviour
  // ---------------------------------------------------------------------

  /** A run on a new calculator leaves one width, one depth pair, one
      velocity entry and one discharge per section, and no area. */
  lemma AppendedSeriesLengths(ss: seq<Station<Reading06>>, tt: seq<Station<Reading0802>>)
    ensures var l := Appended06(Empty, ss);
      |l.widths| == |l.depths| == |l.velocities| == |l.discharges| == |ss| && l.areas == []
    ensures var l := Appended0802(Empty, tt);
      |l.widths| == |l.depths| == |l.velocities| == |l.discharges| == |tt| && l.areas == []
  {
  }

  /** A surface run on a new calculator leaves one width, depth pair, area
      and discharge per section, and no velocity entry. */
  lemma AppendedSurfaceLengths(secs: seq<Section>, cf: real, sv: real)
    ensures var l := AppendedSurface(Empty, secs, cf, sv);
      |l.widths| == |l.depths| == |l.areas| == |l.discharges| == |secs| && l.velocities == []
  {
  }

  /** With non-negative inputs the discharges a 0.6Y run appends never
      decrease and end at the run's total. */
  lemma {:induction false} Appended06Nondecreasing(l: Lists, ss: seq<Station<Reading06>>)
    requires AllForward06(ss)
    ensures var d := Appended06(l, ss).discharges[|l.discharges|..];
      Nondecreasing(d) && (|ss| > 0 ==> d[|ss| - 1] == Sum(Discharges06(ss)))
  {
    var qs := Discharges06(ss);
    assert Appended06(l, ss).discharges[|l.discharges|..] == RunningTotals(qs);
    RunningTotalsNondecreasing(qs);
    if |ss| > 0 {
      RunningTotalsLast(qs);
    }
  }

  /** The same for a 0.8Y/0.2Y run. */
  lemma {:induction false} Appended0802Nondecreasing(l: Lists, ss: seq<Station<Reading0802>>)
    requires AllForward0802(ss)
    ensures var d := Appended0802(l, ss).discharges[|l.discharges|..];
      Nondecreasing(d) && (|ss| > 0 ==> d[|ss| - 1] == Sum(Discharges0802ByPoint(ss)))
  {
    var qs := Discharges0802ByPoint(ss);
    assert Appended0802(l, ss).discharges[|l.discharges|..] == RunningTotals(qs);
    RunningTotalsNondecreasing(qs);
    if |ss| > 0 {
      RunningTotalsLast(qs);
    }
  }

  /** The area-first partial totals a surface run appends are the running
      totals of the incremental section discharges `cf * area * sv`; with
      non-negative inputs they never decrease. */
  lemma {:induction false} AppendedSurfaceIncremental(l: Lists, secs: seq<Section>, cf: real, sv: real)
    ensures AppendedSurface(l, secs, cf, sv).discharges
         == l.discharges + RunningTotals(ScaleBy(Areas(secs), cf, sv))
    ensures AllMeasured(secs) && 0.0 <= cf && 0.0 <= sv ==>
      Nondecreasing(AppendedSurface(l, secs, cf, sv).discharges[|l.discharges|..])
  {
    var xs := ScaleBy(Areas(secs), cf, sv);
    RunningTotalsScaled(Areas(secs), cf, sv);
    if AllMeasured(secs) && 0.0 <= cf && 0.0 <= sv {
      forall m | 0 <= m < |xs| ensures 0.0 <= xs[m] {
        assert 0.0 <= Area(secs[m]);
        assert 0.0 <= cf * Area(secs[m]);
      }
      RunningTotalsNondecreasing(xs);
      assert AppendedSurface(l, secs, cf, sv).discharges[|l.discharges|..] == RunningTotals(xs);
    }
  }

  /** The schematic's derived surface velocity after a surface run on a new
      calculator: `cf * sv` when the areas sum to something positive, else 0. */
  lemma {:induction false} DerivedSurfaceVelocityAfterRun(secs: seq<Section>, cf: real, sv: real)
    ensures var l := AppendedSurface(Empty, secs, cf, sv);
      Sum(l.areas) > 0.0 ==> |l.discharges| > 0
    ensures var l := AppendedSurface(Empty, secs, cf, sv);
      DerivedSurfaceVelocity(l.discharges, l.areas) == if Sum(Areas(secs)) > 0.0 then cf * sv else 0.0
  {
    var l := AppendedSurface(Empty, secs, cf, sv);
    var areas := Areas(secs);
    assert l.areas == areas;
    assert l.discharges == ScaleBy(RunningTotals(areas), cf, sv);
    DerivedOfScaledTotals(areas, cf, sv);
  }

  lemma {:induction false} DerivedOfScaledTotals(areas: seq<real>, cf: real, sv: real)
    ensures Sum(areas) > 0.0 ==> |areas| > 0
    ensures Sum(areas) > 0.0 ==>
      DerivedSurfaceVelocity(ScaleBy(RunningTotals(areas), cf, sv), areas) == cf * sv
  {
    if Sum(areas) > 0.0 {
      var total := Sum(areas);
      var n := |areas| - 1;
      assert |areas| > 0;
      RunningTotalsLast(areas);
      var last := ScaleBy(RunningTotals(areas), cf, sv)[n];
      assert last == cf * total * sv;
      assert last == (cf * sv) * total;
      assert ((cf * sv) * total) / total == cf * sv;
    }
  }

  /** The plots read the appended 4-tuples back with the other pairing
      than the calculation used, and get the same section velocity either
      way: the depth-first plot mean gives the point-first mean, and the
      point-first schematic mean the depth-first one. */
  lemma Appended0802PlotAgrees(l: Lists, ss: seq<Station<Reading0802>>)
    ensures var m, n := Appended0802(l, ss), |l.velocities|;
      forall k :: n <= k < |m.velocities| ==>
        m.velocities[k].Quad?
        && PlotMean0802ByDepth(m.velocities[k]) == Mean0802ByPoint(ss[k - n].reading)
        && PlotMean0802ByPoint(m.velocities[k]) == Mean0802ByDepth(ss[k - n].reading)
  {
  }

  // ---------------------------------------------------------------------
  // Properties of the overwriting behaviour
  // ---------------------------------------------------------------------

  /** After an overwriting 0.6Y run, `areas` and `velocities` have one entry
      per section and `discharges` is the one-element `[total]`; widths and
      depths grow by one entry per section. */
  lemma Overwritten06Shape(l: Lists, ss: seq<Station<Reading06>>)
    ensures var m := Overwritten06(l, ss);
      |m.areas| == |m.velocities| == |ss| && m.discharges == [Sum(Discharges06(ss))]
      && |m.widths| == |l.widths| + |ss| && |m.depths| == |l.depths| + |ss|
  {
  }

  /** After an overwriting 0.8Y/0.2Y run the stored total is the one the
      point-first pairing gives. */
  lemma {:induction false} Overwritten0802Total(l: Lists, ss: seq<Station<Reading0802>>)
    ensures var m := Overwritten0802(l, ss);
      |m.areas| == |m.velocities| == |ss| && m.discharges == [Sum(Discharges0802ByPoint(ss))]
  {
  }

  /** After an overwriting surface run the stored incremental total is the
      area-first `cf * (sum of areas) * sv`. */
  lemma {:induction false} OverwrittenSurfaceTotal(l: Lists, secs: seq<Section>, cf: real, sv: real)
    ensures var m := OverwrittenSurface(l, secs, cf, sv);
      |m.areas| == |m.velocities| == |secs| && m.discharges == [cf * Sum(Areas(secs)) * sv]
  {
    SumScaled(Areas(secs), cf, sv);
  }

  /** The plot's `(v1 + v2) / 2` over the stored `(v, v)` tuples gives back
      each section's mean velocity. */
  lemma Overwritten06PlotRecoversMean(l: Lists, ss: seq<Station<Reading06>>)
    ensures var m := Overwritten06(l, ss);
      forall k :: 0 <= k < |ss| ==> m.velocities[k].Pair? && PlotMean06(m.velocities[k]) == Mean06(ss[k].reading)
  {
  }

  /** The schematic's point-first mean over the stored 4-tuples equals the
      depth-first mean each section's discharge used. */
  lemma Overwritten0802PlotAgrees(l: Lists, ss: seq<Station<Reading0802>>)
    ensures var m := Overwritten0802(l, ss);
      forall k :: 0 <= k < |ss| ==>
        m.velocities[k].Quad? && PlotMean0802ByPoint(m.velocities[k]) == Mean0802ByDepth(ss[k].reading)
  {
  }

  /** With non-negative inputs and a factor in [0, 1], the single total an
      overwriting surface run stores is non-negative and at most
      `sv * (sum of areas)`. */
  lemma {:induction false} OverwrittenSurfaceBounds(l: Lists, secs: seq<Section>, cf: real, sv: real)
    requires AllMeasured(secs) && ValidFactor(cf) && 0.0 <= sv
    ensures var q := OverwrittenSurface(l, secs, cf, sv).discharges[0];
      0.0 <= q <= Sum(Areas(secs)) * sv
  {
    var areas := Areas(secs);
    var s := Sum(areas);
    SumScaled(areas, cf, sv);
    assert OverwrittenSurface(l, secs, cf, sv).discharges[0] == cf * s * sv;
    SumNonNegative(areas);
    var t := s * sv;
    assert 0.0 <= t by { MulMonotone(0.0, s, sv); }
    assert cf * s * sv == cf * t;
    MulMonotone(cf, 1.0, t);
    MulMonotone(0.0, cf, t);
  }
}
