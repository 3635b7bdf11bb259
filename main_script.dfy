/** main.py: the interactive script that computes a discharge by one of the
    three methods and keeps the per-section series it plots.  The readings
    the user types in become the input sequences; their length is the number
    of measurement points. */
module MainScript {
  import opened Engine

  /** `calculate_discharge_0_6y`: the mean-depth, mean-velocity and section
      discharge series, and the total rounded to 3 places.  The rounding is
      applied once, to the exact total; the plot's cumulative series never
      decreases for non-negative readings. */
  method CalculateDischarge06(numPoints: int, stations: seq<Station<Reading06>>)
    returns (reported: real, depths: seq<real>, velocities: seq<real>, discharges: seq<real>)
    requires |stations| == Iterations(numPoints)
    ensures depths == MeanDepths(Sections(stations))
    ensures velocities == Velocities06(stations)
    ensures discharges == Discharges06(stations)
    ensures reported == Round(Sum(discharges), 3)
    ensures AllForward06(stations) ==> Nondecreasing(RunningTotals(discharges)) && 0.0 <= reported
    ensures numPoints <= 0 ==> reported == 0.0
  {
    var totalDischarge := 0.0;
    depths, velocities, discharges := [], [], [];
    ghost var qs := Discharges06(stations);
    var i := 0;
    while i < |stations|
      invariant 0 <= i <= |stations|
      invariant depths == MeanDepths(Sections(stations))[..i]
      invariant velocities == Velocities06(stations)[..i]
      invariant discharges == qs[..i]
      invariant totalDischarge == Sum(qs[..i])
    {
      var s, r := stations[i].section, stations[i].reading;
      var avgVelocity := (r.v1 + r.v2) / 2.0;
      var crossSectionArea := ((s.depth1 + s.depth2) / 2.0) * s.width;
      assert crossSectionArea == Area(s);
      var pointDischarge := crossSectionArea * avgVelocity;
      assert pointDischarge == qs[i];
      totalDischarge := totalDischarge + pointDischarge;
      SumStep(qs, i);
      depths := depths + [(s.depth1 + s.depth2) / 2.0];
      velocities := velocities + [avgVelocity];
      discharges := discharges + [pointDischarge];
      i := i + 1;
    }
    assert qs[..i] == qs;
    reported := Round(totalDischarge, 3);
    if AllForward06(stations) {
      RunningTotalsNondecreasing(discharges);
      SumNonNegative(discharges);
      RoundNonNegative(totalDischarge, 3);
    }
    if numPoints <= 0 {
      RoundNonNegative(totalDischarge, 3);
    }
  }

  /** `calculate_discharge_08y02y`: as for 0.6Y, with each section's velocity
      the point-first 0.8Y/0.2Y mean, and the total rounded to 4 places. */
  method CalculateDischarge0802(numPoints: int, stations: seq<Station<Reading0802>>)
    returns (reported: real, depths: seq<real>, velocities: seq<real>, discharges: seq<real>)
    requires |stations| == Iterations(numPoints)
    ensures depths == MeanDepths(Sections(stations))
    ensures velocities == Velocities0802ByPoint(stations)
    ensures discharges == Discharges0802ByPoint(stations)
    ensures reported == Round(Sum(discharges), 4)
    ensures AllForward0802(stations) ==> Nondecreasing(RunningTotals(discharges)) && 0.0 <= reported
    ensures numPoints <= 0 ==> reported == 0.0
  {
    var totalDischarge := 0.0;
    depths, velocities, discharges := [], [], [];
    ghost var qs := Discharges0802ByPoint(stations);
    var i := 0;
    while i < |stations|
      invariant 0 <= i <= |stations|
      invariant depths == MeanDepths(Sections(stations))[..i]
      invariant velocities == Velocities0802ByPoint(stations)[..i]
      invariant discharges == qs[..i]
      invariant totalDischarge == Sum(qs[..i])
    {
      var s, r := stations[i].section, stations[i].reading;
      var avgVelocityFirst := (r.v08First + r.v02First) / 2.0;
      var avgVelocitySecond := (r.v08Second + r.v02Second) / 2.0;
      var avgVelocity := (avgVelocityFirst + avgVelocitySecond) / 2.0;
      var crossSectionArea := ((s.depth1 + s.depth2) / 2.0) * s.width;
      assert crossSectionArea == Area(s);
      var pointDischarge := crossSectionArea * avgVelocity;
      assert pointDischarge == qs[i];
      totalDischarge := totalDischarge + pointDischarge;
      SumStep(qs, i);
      depths := depths + [(s.depth1 + s.depth2) / 2.0];
      velocities := velocities + [avgVelocity];
      discharges := discharges + [pointDischarge];
      i := i + 1;
    }
    assert qs[..i] == qs;
    reported := Round(totalDischarge, 4);
    if AllForward0802(stations) {
      RunningTotalsNondecreasing(discharges);
      SumNonNegative(discharges);
      RoundNonNegative(totalDischarge, 4);
    }
    if numPoints <= 0 {
      RoundNonNegative(totalDischarge, 4);
    }
  }

  /** `calculate_discharge_surface`: the mean-depth, area and section
      discharge `cf * area * sv` series; the area-first total
      `cf * (sum of areas) * sv`, rounded to 4 places, which is the rounded
      sum of the stored section discharges. */
  method CalculateDischargeSurface(numPoints: int, conversionFactor: real, surfaceVelocity: real, sections: seq<Section>)
    returns (reported: real, depths: seq<real>, areas: seq<real>, discharges: seq<real>)
    requires |sections| == Iterations(numPoints)
    ensures depths == MeanDepths(sections)
    ensures areas == Areas(sections)
    ensures discharges == ScaleBy(areas, conversionFactor, surfaceVelocity)
    ensures reported == Round(SurfaceDischarge(areas, conversionFactor, surfaceVelocity), 4)
    ensures reported == Round(Sum(discharges), 4)
    ensures AllMeasured(sections) && 0.0 <= conversionFactor && 0.0 <= surfaceVelocity ==> 0.0 <= reported
    ensures numPoints <= 0 ==> reported == 0.0
  {
    var totalArea := 0.0;
    depths, areas, discharges := [], [], [];
    ghost var allAreas := Areas(sections);
    var i := 0;
    while i < |sections|
      invariant 0 <= i <= |sections|
      invariant depths == MeanDepths(sections)[..i]
      invariant areas == allAreas[..i]
      invariant discharges == ScaleBy(areas, conversionFactor, surfaceVelocity)
      invariant totalArea == Sum(areas)
    {
      var s := sections[i];
      var pointArea := ((s.depth1 + s.depth2) / 2.0) * s.width;
      assert pointArea == allAreas[i];
      SumStep(allAreas, i);
      ScaleBySnoc(areas, pointArea, conversionFactor, surfaceVelocity);
      totalArea := totalArea + pointArea;
      var pointDischarge := conversionFactor * pointArea * surfaceVelocity;
      depths := depths + [(s.depth1 + s.depth2) / 2.0];
      areas := areas + [pointArea];
      discharges := discharges + [pointDischarge];
      i := i + 1;
    }
    assert allAreas[..i] == allAreas;
    var total := conversionFactor * totalArea * surfaceVelocity;
    assert total == SurfaceDischarge(areas, conversionFactor, surfaceVelocity);
    reported := Round(total, 4);
    if AllMeasured(sections) && 0.0 <= conversionFactor && 0.0 <= surfaceVelocity {
      SurfaceDischargeNonNegative(areas, conversionFactor, surfaceVelocity);
      RoundNonNegative(total, 4);
    }
    if numPoints <= 0 {
      RoundNonNegative(total, 4);
    }
  }

  /** `main`: the method chosen by number runs and its total is shown; any
      other number shows nothing. */
  method Dispatch(numPoints: int, methodChoice: int, survey: Survey) returns (shown: Option<real>)
    requires methodChoice == 1 ==> |survey.stations06| == Iterations(numPoints)
    requires methodChoice == 2 ==> |survey.stations0802| == Iterations(numPoints)
    requires methodChoice == 3 ==> |survey.sections| == Iterations(numPoints)
    ensures shown.None? <==> !(1 <= methodChoice <= 3)
    ensures methodChoice == 1 ==> shown == Some(Round(Sum(Discharges06(survey.stations06)), 3))
    ensures methodChoice == 2 ==> shown == Some(Round(Sum(Discharges0802ByPoint(survey.stations0802)), 4))
    ensures methodChoice == 3 ==>
      shown == Some(Round(SurfaceDischarge(Areas(survey.sections), survey.factor, survey.surfaceVelocity), 4))
  {
    if methodChoice == 1 {
      var discharge, _, _, _ := CalculateDischarge06(numPoints, survey.stations06);
      shown := Some(discharge);
    } else if methodChoice == 2 {
      var discharge, _, _, _ := CalculateDischarge0802(numPoints, survey.stations0802);
      shown := Some(discharge);
    } else if methodChoice == 3 {
      var discharge, _, _, _ := CalculateDischargeSurface(numPoints, survey.factor, survey.surfaceVelocity, survey.sections);
      shown := Some(discharge);
    } else {
      shown := None;
    }
  }
}
