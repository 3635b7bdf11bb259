/** sample1.py: the smallest console calculator object.  The number of points
    and the method are read once when it is built and never change; the
    methods keep nothing but a running total, show the running total after
    every section, and return the unrounded total. */
module Sample1 {
  import opened Engine

  class DischargeCalculator {
    const nPoints: int
    const methodChoice: int

    /** `__init__`: both choices recorded. */
    constructor(nPoints: int, methodChoice: int)
      ensures this.nPoints == nPoints && this.methodChoice == methodChoice
    {
      this.nPoints := nPoints;
      this.methodChoice := methodChoice;
    }

    /** `calc_area`: the engine's section area, non-negative for
        non-negative measurements. */
    function CalcArea(width: real, depth1: real, depth2: real): (a: real)
      ensures a == Area(Section(width, depth1, depth2))
      ensures 0.0 <= width && 0.0 <= depth1 && 0.0 <= depth2 ==> 0.0 <= a
    {
      ((depth1 + depth2) / 2.0) * width
    }

    /** `calculate_0_6y_method`: returns the sum of the section discharges;
        the totals shown are the running totals rounded to 3 places, never
        decreasing for non-negative readings. */
    method Calculate06(stations: seq<Station<Reading06>>) returns (totalQ: real, shown: seq<real>)
      requires |stations| == Iterations(nPoints)
      ensures totalQ == Sum(Discharges06(stations))
      ensures shown == RoundEach(RunningTotals(Discharges06(stations)), 3)
      ensures AllForward06(stations) ==> Nondecreasing(shown) && 0.0 <= totalQ
    {
      totalQ, shown := 0.0, [];
      for i := 0 to |stations|
        invariant totalQ == Sum(Discharges06(stations[..i]))
        invariant shown == RoundEach(RunningTotals(Discharges06(stations[..i])), 3)
      {
        var st := stations[i];
        var s := st.section;
        var vel1, vel2 := st.reading.v1, st.reading.v2;
        var area := CalcArea(s.width, s.depth1, s.depth2);
        ProductThenHalf(area, vel1, vel2, st);
        totalQ := totalQ + area * (vel1 + vel2) / 2.0;
        shown := shown + [Round(totalQ, 3)];
        Running06Step(stations, i, totalQ, 3);
      }
      assert stations[..|stations|] == stations;
      if AllForward06(stations) {
        RunningTotalsNondecreasing(Discharges06(stations));
        RoundEachNondecreasing(RunningTotals(Discharges06(stations)), 3);
        SumNonNegative(Discharges06(stations));
      }
    }

    /** `calculate_0_8y_0_2y_method`: as for 0.6Y with the point-first mean,
        shown to 4 places. */
    method Calculate0802(stations: seq<Station<Reading0802>>) returns (totalQ: real, shown: seq<real>)
      requires |stations| == Iterations(nPoints)
      ensures totalQ == Sum(Discharges0802ByPoint(stations))
      ensures shown == RoundEach(RunningTotals(Discharges0802ByPoint(stations)), 4)
      ensures AllForward0802(stations) ==> Nondecreasing(shown) && 0.0 <= totalQ
    {
      totalQ, shown := 0.0, [];
      for i := 0 to |stations|
        invariant totalQ == Sum(Discharges0802ByPoint(stations[..i]))
        invariant shown == RoundEach(RunningTotals(Discharges0802ByPoint(stations[..i])), 4)
      {
        var st := stations[i];
        var s, r := st.section, st.reading;
        var avgVel := ((r.v08First + r.v02First) / 2.0 + (r.v08Second + r.v02Second) / 2.0) / 2.0;
        assert avgVel == Mean0802ByPoint(r);
        var area := CalcArea(s.width, s.depth1, s.depth2);
        AreaTimesMean0802(area, avgVel, st);
        totalQ := totalQ + area * avgVel;
        shown := shown + [Round(totalQ, 4)];
        Running0802Step(stations, i, totalQ, 4);
      }
      assert stations[..|stations|] == stations;
      if AllForward0802(stations) {
        RunningTotalsNondecreasing(Discharges0802ByPoint(stations));
        RoundEachNondecreasing(RunningTotals(Discharges0802ByPoint(stations)), 4);
        SumNonNegative(Discharges0802ByPoint(stations));
      }
    }

    /** `calculate_surface_velocity_method`: the areas are summed in one
        pass, `cf * (sum of areas) * sv` is shown once to 4 places and
        returned; with no section the sum is empty and the total is 0. */
    method CalculateSurfaceVelocityMethod(convFactor: real, surfVel: real, sections: seq<Section>)
      returns (totalQ: real, shown: real)
      requires |sections| == Iterations(nPoints)
      ensures totalQ == SurfaceDischarge(Areas(sections), convFactor, surfVel)
      ensures totalQ == Sum(ScaleBy(Areas(sections), convFactor, surfVel))
      ensures shown == Round(totalQ, 4)
      ensures AllMeasured(sections) && 0.0 <= convFactor && 0.0 <= surfVel ==> 0.0 <= shown
      ensures nPoints <= 0 ==> totalQ == 0.0 && shown == 0.0
    {
      var totalArea := Sum(Areas(sections));
      totalQ := convFactor * totalArea * surfVel;
      SurfaceDischargeOf(Areas(sections), totalArea, convFactor, surfVel);
      shown := Round(totalQ, 4);
      if AllMeasured(sections) && 0.0 <= convFactor && 0.0 <= surfVel {
        SurfaceDischargeNonNegative(Areas(sections), convFactor, surfVel);
        RoundNonNegative(totalQ, 4);
      }
      if nPoints <= 0 {
        RoundNonNegative(totalQ, 4);
      }
    }

    /** `calculate_discharge`: the method chosen by number returns its
        total; any other number returns `None`. */
    method CalculateDischarge(survey: Survey) returns (total: Option<real>)
      requires methodChoice == 1 ==> |survey.stations06| == Iterations(nPoints)
      requires methodChoice == 2 ==> |survey.stations0802| == Iterations(nPoints)
      requires methodChoice == 3 ==> |survey.sections| == Iterations(nPoints)
      ensures total.None? <==> !(1 <= methodChoice <= 3)
      ensures methodChoice == 1 ==> total == Some(Sum(Discharges06(survey.stations06)))
      ensures methodChoice == 2 ==> total == Some(Sum(Discharges0802ByPoint(survey.stations0802)))
      ensures methodChoice == 3 ==>
        total == Some(SurfaceDischarge(Areas(survey.sections), survey.factor, survey.surfaceVelocity))
    {
      if methodChoice == 1 {
        var q, _ := Calculate06(survey.stations06);
        total := Some(q);
      } else if methodChoice == 2 {
        var q, _ := Calculate0802(survey.stations0802);
        total := Some(q);
      } else if methodChoice == 3 {
        var q, _ := CalculateSurfaceVelocityMethod(survey.factor, survey.surfaceVelocity, survey.sections);
        total := Some(q);
      } else {
        total := None;
      }
    }
  }
}
