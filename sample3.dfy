/** sample3.py: the first dashboard calculator object.  It keeps the same
    five lists as the console one and appends to them the same way; the
    number of points is passed to each method, and the dashboard asks for at
    least one point, so the surface method always has a total to return. */
module Sample3 {
  import opened Engine
  import opened Calculator

  /** The three choices of the sidebar. */
  datatype Choice = SixTenths | EightTwo | SurfaceVelocity

  class DischargeCalculator {
    var depths: seq<(real, real)>
    var velocities: seq<VelocityRecord>
    var discharges: seq<real>
    var widths: seq<real>
    var areas: seq<real>

    /** The five lists together. */
    function State(): Lists
      reads this
    {
      Lists(depths, velocities, discharges, widths, areas)
    }

    /** `__init__`: all lists empty. */
    constructor()
      ensures State() == Empty
    {
      depths, velocities, discharges, widths, areas := [], [], [], [], [];
    }

    /** `get_measurements`: returns the section read and appends its width
        and its depth pair. */
    method GetMeasurements(pointNum: int, s: Section) returns (width: real, depth1: real, depth2: real)
      modifies this
      ensures width == s.width && depth1 == s.depth1 && depth2 == s.depth2
      ensures widths == old(widths) + [s.width] && depths == old(depths) + [(s.depth1, s.depth2)]
      ensures velocities == old(velocities) && discharges == old(discharges) && areas == old(areas)
    {
      width, depth1, depth2 := s.width, s.depth1, s.depth2;
      widths := widths + [width];
      depths := depths + [(depth1, depth2)];
    }

    /** `calc_area`: the engine's section area. */
    function CalcArea(width: real, depth1: real, depth2: real): (a: real)
      ensures a == Area(Section(width, depth1, depth2))
      ensures 0.0 <= width && 0.0 <= depth1 && 0.0 <= depth2 ==> 0.0 <= a
    {
      ((depth1 + depth2) / 2.0) * width
    }

    /** `calculate_0_6y_method`: returns the unrounded total; the lists gain
        the raw velocity pairs and the running totals, and the totals shown
        are those running totals rounded to 3 places, never decreasing for
        non-negative readings. */
    method Calculate06(nPoints: int, stations: seq<Station<Reading06>>) returns (totalQ: real, shown: seq<real>)
      modifies this
      requires |stations| == Iterations(nPoints)
      ensures State() == Appended06(old(State()), stations)
      ensures totalQ == Sum(Discharges06(stations))
      ensures shown == RoundEach(RunningTotals(Discharges06(stations)), 3)
      ensures AllForward06(stations) ==> Nondecreasing(shown)
    {
      ghost var start := State();
      totalQ, shown := 0.0, [];
      for i := 0 to |stations|
        invariant State() == Appended06(start, stations[..i])
        invariant totalQ == Sum(Discharges06(stations[..i]))
        invariant shown == RoundEach(RunningTotals(Discharges06(stations[..i])), 3)
      {
        var st := stations[i];
        var width, depth1, depth2 := GetMeasurements(i + 1, st.section);
        var vel1, vel2 := st.reading.v1, st.reading.v2;
        velocities := velocities + [Pair(vel1, vel2)];
        var area := CalcArea(width, depth1, depth2);
        var sectionQ := area * (vel1 + vel2) / 2.0;
        ProductThenHalf(area, vel1, vel2, st);
        totalQ := totalQ + sectionQ;
        discharges := discharges + [totalQ];
        shown := shown + [Round(totalQ, 3)];
        Appended06Step(start, stations, i, totalQ);
        Running06Step(stations, i, totalQ, 3);
      }
      assert stations[..|stations|] == stations;
      if AllForward06(stations) {
        RunningTotalsNondecreasing(Discharges06(stations));
        RoundEachNondecreasing(RunningTotals(Discharges06(stations)), 3);
      }
    }

    /** `calculate_0_8y_0_2y_method`: as for 0.6Y with the raw 4-tuples and
        the point-first mean, shown to 4 places. */
    method Calculate0802(nPoints: int, stations: seq<Station<Reading0802>>) returns (totalQ: real, shown: seq<real>)
      modifies this
      requires |stations| == Iterations(nPoints)
      ensures State() == Appended0802(old(State()), stations)
      ensures totalQ == Sum(Discharges0802ByPoint(stations))
      ensures shown == RoundEach(RunningTotals(Discharges0802ByPoint(stations)), 4)
      ensures AllForward0802(stations) ==> Nondecreasing(shown)
    {
      ghost var start := State();
      totalQ, shown := 0.0, [];
      for i := 0 to |stations|
        invariant State() == Appended0802(start, stations[..i])
        invariant totalQ == Sum(Discharges0802ByPoint(stations[..i]))
        invariant shown == RoundEach(RunningTotals(Discharges0802ByPoint(stations[..i])), 4)
      {
        var st := stations[i];
        var width, depth1, depth2 := GetMeasurements(i + 1, st.section);
        var vel08First, vel08Second := st.reading.v08First, st.reading.v08Second;
        var vel02First, vel02Second := st.reading.v02First, st.reading.v02Second;
        velocities := velocities + [Quad(vel08First, vel08Second, vel02First, vel02Second)];
        var avgVel := ((vel08First + vel02First) / 2.0 + (vel08Second + vel02Second) / 2.0) / 2.0;
        assert avgVel == Mean0802ByPoint(st.reading);
        var area := CalcArea(width, depth1, depth2);
        var sectionQ := area * avgVel;
        AreaTimesMean0802(area, avgVel, st);
        totalQ := totalQ + sectionQ;
        discharges := discharges + [totalQ];
        shown := shown + [Round(totalQ, 4)];
        Appended0802Step(start, stations, i, totalQ);
        Running0802Step(stations, i, totalQ, 4);
      }
      assert stations[..|stations|] == stations;
      if AllForward0802(stations) {
        RunningTotalsNondecreasing(Discharges0802ByPoint(stations));
        RoundEachNondecreasing(RunningTotals(Discharges0802ByPoint(stations)), 4);
      }
    }

    /** `calculate_surface_velocity_method`: after each section the area-first
        total `cf * (areas so far) * sv` is appended and shown to 4 places;
        the last one is returned, and with no section `total_q` is never
        bound. */
    method CalculateSurfaceVelocityMethod(nPoints: int, convFactor: real, surfVel: real, sections: seq<Section>)
      returns (totalQ: Option<real>, shown: seq<real>)
      modifies this
      requires |sections| == Iterations(nPoints)
      ensures State() == AppendedSurface(old(State()), sections, convFactor, surfVel)
      ensures totalQ == if |sections| == 0 then None else Some(SurfaceDischarge(Areas(sections), convFactor, surfVel))
      ensures shown == RoundEach(ScaleBy(RunningTotals(Areas(sections)), convFactor, surfVel), 4)
    {
      ghost var start := State();
      var totalArea := 0.0;
      totalQ, shown := None, [];
      for i := 0 to |sections|
        invariant State() == AppendedSurface(start, sections[..i], convFactor, surfVel)
        invariant totalArea == Sum(Areas(sections[..i]))
        invariant totalQ == if i == 0 then None else Some(convFactor * totalArea * surfVel)
        invariant shown == RoundEach(ScaleBy(RunningTotals(Areas(sections[..i])), convFactor, surfVel), 4)
      {
        var s := sections[i];
        var width, depth1, depth2 := GetMeasurements(i + 1, s);
        var area := CalcArea(width, depth1, depth2);
        areas := areas + [area];
        totalArea := totalArea + area;
        var q := convFactor * totalArea * surfVel;
        totalQ := Some(q);
        discharges := discharges + [q];
        shown := shown + [Round(q, 4)];
        AppendedSurfaceStep(start, sections, i, convFactor, surfVel, totalArea);
        RunningSurfaceStep(sections, i, convFactor, surfVel, totalArea, 4);
      }
      assert sections[..|sections|] == sections;
      SurfaceDischargeOf(Areas(sections), totalArea, convFactor, surfVel);
    }
  }

  /** `main`: a new calculator runs the chosen method on at least one point
      (the sidebar's minimum); every choice returns a total, the surface one
      included. */
  method RunDashboard(choice: Choice, nPoints: int, survey: Survey) returns (total: real)
    requires 1 <= nPoints
    requires choice == SixTenths ==> |survey.stations06| == nPoints
    requires choice == EightTwo ==> |survey.stations0802| == nPoints
    requires choice == SurfaceVelocity ==> |survey.sections| == nPoints
    ensures choice == SixTenths ==> total == Sum(Discharges06(survey.stations06))
    ensures choice == EightTwo ==> total == Sum(Discharges0802ByPoint(survey.stations0802))
    ensures choice == SurfaceVelocity ==>
      total == SurfaceDischarge(Areas(survey.sections), survey.factor, survey.surfaceVelocity)
  {
    var calculator := new DischargeCalculator();
    match choice
    case SixTenths =>
      var q, _ := calculator.Calculate06(nPoints, survey.stations06);
      total := q;
    case EightTwo =>
      var q, _ := calculator.Calculate0802(nPoints, survey.stations0802);
      total := q;
    case SurfaceVelocity =>
      var q, _ := calculator.CalculateSurfaceVelocityMethod(nPoints, survey.factor, survey.surfaceVelocity, survey.sections);
      total := q.value;
  }
}
