/** index5.py: the plain console calculator.  Each method reads one section
    per measurement point, keeps only a running total, and returns the total
    rounded for display; nothing else is stored. */
module Index5 {
  import opened Engine

  /** `calculate_discharge_0_6y`: the sum of the section discharges
      `area * (v1 + v2) / 2`, rounded to 3 places. */
  method CalculateDischarge06(numPoints: int, stations: seq<Station<Reading06>>) returns (discharge: real)
    requires |stations| == Iterations(numPoints)
    ensures discharge == Round(Sum(Discharges06(stations)), 3)
    ensures AllForward06(stations) ==> 0.0 <= discharge
    ensures numPoints <= 0 ==> discharge == 0.0
  {
    var totalDischarge := 0.0;
    ghost var qs := Discharges06(stations);
    for i := 0 to |stations|
      invariant totalDischarge == Sum(qs[..i])
    {
      var st := stations[i];
      var s, r := st.section, st.reading;
      var avgVelocity := (r.v1 + r.v2) / 2.0;
      var crossSectionArea := ((s.depth1 + s.depth2) / 2.0) * s.width;
      var pointDischarge := crossSectionArea * avgVelocity;
      AreaTimesMean06(crossSectionArea, avgVelocity, st);
      SumStep(qs, i);
      totalDischarge := totalDischarge + pointDischarge;
    }
    assert qs[..|stations|] == qs;
    discharge := Round(totalDischarge, 3);
    if AllForward06(stations) || numPoints <= 0 {
      SumNonNegative(qs);
      RoundNonNegative(totalDischarge, 3);
    }
  }

  /** `calculate_discharge_0_8y_0_2y`: the sum of the section discharges with
      the point-first 0.8Y/0.2Y mean, rounded to 4 places. */
  method CalculateDischarge0802(numPoints: int, stations: seq<Station<Reading0802>>) returns (discharge: real)
    requires |stations| == Iterations(numPoints)
    ensures discharge == Round(Sum(Discharges0802ByPoint(stations)), 4)
    ensures AllForward0802(stations) ==> 0.0 <= discharge
    ensures numPoints <= 0 ==> discharge == 0.0
  {
    var totalDischarge := 0.0;
    ghost var qs := Discharges0802ByPoint(stations);
    for i := 0 to |stations|
      invariant totalDischarge == Sum(qs[..i])
    {
      var s, r := stations[i].section, stations[i].reading;
      var avgVelocityFirst := (r.v08First + r.v02First) / 2.0;
      var avgVelocitySecond := (r.v08Second + r.v02Second) / 2.0;
      var avgVelocity := (avgVelocityFirst + avgVelocitySecond) / 2.0;
      var crossSectionArea := ((s.depth1 + s.depth2) / 2.0) * s.width;
      assert crossSectionArea == Area(s);
      var pointDischarge := crossSectionArea * avgVelocity;
      assert pointDischarge == qs[i];
      SumStep(qs, i);
      totalDischarge := totalDischarge + pointDischarge;
    }
    assert qs[..|stations|] == qs;
    discharge := Round(totalDischarge, 4);
    if AllForward0802(stations) || numPoints <= 0 {
      SumNonNegative(qs);
      RoundNonNegative(totalDischarge, 4);
    }
  }

  /** `calculate_discharge_surface`: factor and surface velocity are read
      first, then the areas are summed and `cf * (sum of areas) * sv` is
      rounded to 4 places. */
  method CalculateDischargeSurface(numPoints: int, conversionFactor: real, surfaceVelocity: real, sections: seq<Section>)
    returns (discharge: real)
    requires |sections| == Iterations(numPoints)
    ensures discharge == Round(SurfaceDischarge(Areas(sections), conversionFactor, surfaceVelocity), 4)
    ensures AllMeasured(sections) && 0.0 <= conversionFactor && 0.0 <= surfaceVelocity ==> 0.0 <= discharge
    ensures numPoints <= 0 ==> discharge == 0.0
  {
    var totalArea := 0.0;
    ghost var areas := Areas(sections);
    for i := 0 to |sections|
      invariant totalArea == Sum(areas[..i])
    {
      var s := sections[i];
      var pointArea := ((s.depth1 + s.depth2) / 2.0) * s.width;
      assert pointArea == areas[i];
      SumStep(areas, i);
      totalArea := totalArea + pointArea;
    }
    assert areas[..|sections|] == areas;
    var total := conversionFactor * totalArea * surfaceVelocity;
    assert total == SurfaceDischarge(areas, conversionFactor, surfaceVelocity);
    discharge := Round(total, 4);
    if AllMeasured(sections) && 0.0 <= conversionFactor && 0.0 <= surfaceVelocity {
      SurfaceDischargeNonNegative(areas, conversionFactor, surfaceVelocity);
      RoundNonNegative(total, 4);
    }
    if numPoints <= 0 {
      RoundNonNegative(total, 4);
    }
  }

  /** `main`: the method chosen by number runs and its total is shown; any
      other number shows nothing. */
  method Dispatch(numPoints: int, methodChoice: int, survey: Survey) returns (shown: Option<real>)
    requires methodChoice == 1 ==> |survey.stations06| == Iterations(numPoints)
    requires methodChoice == 2 ==> |survey.stations0802| == Iterations(numPoints)
    requires methodChoice == 3 ==> |survey.sections| == Iterations(numPoints)
    ensures shown.None? <==> !(1 <= methodChoice <= 3)
    ensures methodChoice == 1 ==> shown == Some(Round(Sum(Discharges06(survey.stations06)), 3))
    ensures methodChoice == 2 ==> shown == Some(Round(Sum(Discharges0802ByPoint(survey.stations0802)), 4))
    ensures methodChoice == 3 ==>
      shown == Some(Round(SurfaceDischarge(Areas(survey.sections), survey.factor, survey.surfaceVelocity), 4))
  {
    if methodChoice == 1 {
      var discharge := CalculateDischarge06(numPoints, survey.stations06);
      shown := Some(discharge);
    } else if methodChoice == 2 {
      var discharge := CalculateDischarge0802(numPoints, survey.stations0802);
      shown := Some(discharge);
    } else if methodChoice == 3 {
      var discharge := CalculateDischargeSurface(numPoints, survey.factor, survey.surfaceVelocity, survey.sections);
      shown := Some(discharge);
    } else {
      shown := None;
    }
  }
}
