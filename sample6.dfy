/** sample6.py: the tidied overwriting dashboard calculator.  It behaves as
    sample4.py does: local lists per method, a running total, and at the end
    `areas`, `velocities` and `discharges == [total]` replaced, while every
    section read appends one width and one depth pair. */
module Sample6 {
  import opened Engine
  import opened Calculator

  /** The three choices of the sidebar. */
  datatype Choice = SixTenths | EightTwo | SurfaceVelocity

  class DischargeCalculator {
    var depths: seq<(real, real)>
    var velocities: seq<VelocityRecord>
    var discharges: seq<real>
    var widths: seq<real>
    var areas: seq<real>

    /** The five lists together. */
    function State(): Lists
      reads this
    {
      Lists(depths, velocities, discharges, widths, areas)
    }

    /** `__init__`, which resets. */
    constructor()
      ensures State() == Empty
    {
      depths, velocities, discharges, widths, areas := [], [], [], [], [];
    }

    /** `reset`: all five lists empty. */
    method Reset()
      modifies this
      ensures State() == Empty
    {
      depths, velocities, discharges, widths, areas := [], [], [], [], [];
    }

    /** `get_measurements`: returns the section read and appends its width
        and its depth pair. */
    method GetMeasurements(pointNum: int, s: Section) returns (width: real, depth1: real, depth2: real)
      modifies this
      ensures width == s.width && depth1 == s.depth1 && depth2 == s.depth2
      ensures widths == old(widths) + [s.width] && depths == old(depths) + [(s.depth1, s.depth2)]
      ensures velocities == old(velocities) && discharges == old(discharges) && areas == old(areas)
    {
      width, depth1, depth2 := s.width, s.depth1, s.depth2;
      widths := widths + [width];
      depths := depths + [(depth1, depth2)];
    }

    /** `calc_area`: the engine's section area. */
    function CalcArea(width: real, depth1: real, depth2: real): (a: real)
      ensures a == Area(Section(width, depth1, depth2))
      ensures 0.0 <= width && 0.0 <= depth1 && 0.0 <= depth2 ==> 0.0 <= a
    {
      ((depth1 + depth2) / 2.0) * width
    }

    /** `calculate_0_6y_method`: returns the sum of the section discharges
        `area * (v1 + v2) / 2`; the lists are left as `Overwritten06`
        describes. */
    method Calculate06(nPoints: int, stations: seq<Station<Reading06>>) returns (totalQ: real)
      modifies this
      requires |stations| == Iterations(nPoints)
      ensures State() == Overwritten06(old(State()), stations)
      ensures totalQ == Sum(Discharges06(stations))
      ensures AllForward06(stations) ==> 0.0 <= totalQ
    {
      ghost var start := State();
      totalQ := 0.0;
      var sectionAreas, sectionVelocities, sectionDischarges := [], [], [];
      for i := 0 to |stations|
        invariant State() == AfterMeasurements(start, Sections(stations[..i]))
        invariant sectionAreas == Areas(Sections(stations[..i]))
        invariant sectionVelocities == Velocities06(stations[..i])
        invariant sectionDischarges == Discharges06(stations[..i])
        invariant totalQ == Sum(sectionDischarges)
      {
        var st := stations[i];
        var width, depth1, depth2 := GetMeasurements(i + 1, st.section);
        var vel1, vel2 := st.reading.v1, st.reading.v2;
        var area := CalcArea(width, depth1, depth2);
        var avgVelocity := (vel1 + vel2) / 2.0;
        var sectionQ := area * avgVelocity;
        AreaTimesMean06(area, avgVelocity, st);
        sectionAreas := sectionAreas + [area];
        sectionVelocities := sectionVelocities + [avgVelocity];
        RunningTotalsSnoc(sectionDischarges, sectionQ);
        sectionDischarges := sectionDischarges + [sectionQ];
        totalQ := totalQ + sectionQ;
        Overwriting06Step(start, stations, i);
      }
      assert stations[..|stations|] == stations;
      areas := sectionAreas;
      velocities := seq(|sectionVelocities|, k requires 0 <= k < |sectionVelocities| =>
                          var v := sectionVelocities[k]; Pair(v, v));
      discharges := [totalQ];
      assert velocities == MeanPairs06(stations);
      if AllForward06(stations) {
        SumNonNegative(sectionDischarges);
      }
    }

    /** `calculate_0_8y_0_2y_method`: each section's velocity is the mean of
        the 0.8Y pair's mean and the 0.2Y pair's mean; the total equals the
        one the point-first pairing gives. */
    method Calculate0802(nPoints: int, stations: seq<Station<Reading0802>>) returns (totalQ: real)
      modifies this
      requires |stations| == Iterations(nPoints)
      ensures State() == Overwritten0802(old(State()), stations)
      ensures totalQ == Sum(Discharges0802ByDepth(stations))
      ensures totalQ == Sum(Discharges0802ByPoint(stations))
      ensures AllForward0802(stations) ==> 0.0 <= totalQ
    {
      ghost var start := State();
      totalQ := 0.0;
      var sectionAreas, sectionVelocities, sectionDischarges := [], [], [];
      for i := 0 to |stations|
        invariant State() == AfterMeasurements(start, Sections(stations[..i]))
        invariant sectionAreas == Areas(Sections(stations[..i]))
        invariant sectionVelocities == RawQuads(stations[..i])
        invariant sectionDischarges == Discharges0802ByDepth(stations[..i])
        invariant totalQ == Sum(sectionDischarges)
      {
        var st := stations[i];
        var width, depth1, depth2 := GetMeasurements(i + 1, st.section);
        var r := st.reading;
        var vel08First, vel08Second := r.v08First, r.v08Second;
        var vel02First, vel02Second := r.v02First, r.v02Second;
        var area := CalcArea(width, depth1, depth2);
        var avgVel08 := (vel08First + vel08Second) / 2.0;
        var avgVel02 := (vel02First + vel02Second) / 2.0;
        var avgVelocity := (avgVel08 + avgVel02) / 2.0;
        var sectionQ := area * avgVelocity;
        AreaTimesDepthMean0802(area, avgVelocity, st);
        sectionAreas := sectionAreas + [area];
        sectionVelocities := sectionVelocities + [Quad(vel08First, vel08Second, vel02First, vel02Second)];
        RunningTotalsSnoc(sectionDischarges, sectionQ);
        sectionDischarges := sectionDischarges + [sectionQ];
        totalQ := totalQ + sectionQ;
        Overwriting0802Step(start, stations, i);
      }
      assert stations[..|stations|] == stations;
      areas := sectionAreas;
      velocities := sectionVelocities;
      discharges := [totalQ];
      if AllForward0802(stations) {
        SumNonNegative(Discharges0802ByPoint(stations));
      }
    }

    /** `calculate_surface_velocity_method`: each section's discharge is
        `cf * area * sv` and they are summed as they come; the total equals
        the area-first `cf * (sum of areas) * sv`, and with the dashboard's
        factor in [0, 1] it lies between 0 and `sv * (sum of areas)`. */
    method CalculateSurfaceVelocityMethod(nPoints: int, convFactor: real, surfVel: real, sections: seq<Section>)
      returns (totalQ: real)
      modifies this
      requires |sections| == Iterations(nPoints)
      ensures State() == OverwrittenSurface(old(State()), sections, convFactor, surfVel)
      ensures totalQ == Sum(ScaleBy(Areas(sections), convFactor, surfVel))
      ensures totalQ == SurfaceDischarge(Areas(sections), convFactor, surfVel)
      ensures AllMeasured(sections) && ValidFactor(convFactor) && 0.0 <= surfVel ==>
        0.0 <= totalQ <= Sum(Areas(sections)) * surfVel
    {
      ghost var start := State();
      var sectionAreas, sectionDischarges := [], [];
      totalQ := 0.0;
      for i := 0 to |sections|
        invariant State() == AfterMeasurements(start, sections[..i])
        invariant sectionAreas == Areas(sections[..i])
        invariant sectionDischarges == ScaleBy(sectionAreas, convFactor, surfVel)
        invariant totalQ == Sum(sectionDischarges)
      {
        var s := sections[i];
        var width, depth1, depth2 := GetMeasurements(i + 1, s);
        var area := CalcArea(width, depth1, depth2);
        var sectionQ := convFactor * area * surfVel;
        ScaleBySnoc(sectionAreas, area, convFactor, surfVel);
        sectionAreas := sectionAreas + [area];
        RunningTotalsSnoc(sectionDischarges, sectionQ);
        sectionDischarges := sectionDischarges + [sectionQ];
        totalQ := totalQ + sectionQ;
        OverwritingSurfaceStep(start, sections, i);
      }
      assert sections[..|sections|] == sections;
      areas := sectionAreas;
      velocities := Repeat(Pair(surfVel, surfVel), Iterations(nPoints));
      discharges := [totalQ];
      if AllMeasured(sections) && ValidFactor(convFactor) && 0.0 <= surfVel {
        OverwrittenSurfaceBounds(start, sections, convFactor, surfVel);
      }
    }
  }

  /** `main`: a new calculator runs the chosen method on at least one point
      (the sidebar's minimum) and returns its total. */
  method RunDashboard(choice: Choice, nPoints: int, survey: Survey) returns (total: real)
    requires 1 <= nPoints
    requires choice == SixTenths ==> |survey.stations06| == nPoints
    requires choice == EightTwo ==> |survey.stations0802| == nPoints
    requires choice == SurfaceVelocity ==> |survey.sections| == nPoints
    ensures choice == SixTenths ==> total == Sum(Discharges06(survey.stations06))
    ensures choice == EightTwo ==> total == Sum(Discharges0802ByPoint(survey.stations0802))
    ensures choice == SurfaceVelocity ==>
      total == SurfaceDischarge(Areas(survey.sections), survey.factor, survey.surfaceVelocity)
  {
    var calculator := new DischargeCalculator();
    match choice
    case SixTenths =>
      total := calculator.Calculate06(nPoints, survey.stations06);
    case EightTwo =>
      total := calculator.Calculate0802(nPoints, survey.stations0802);
    case SurfaceVelocity =>
      total := calculator.CalculateSurfaceVelocityMethod(nPoints, survey.factor, survey.surfaceVelocity, survey.sections);
  }
}
