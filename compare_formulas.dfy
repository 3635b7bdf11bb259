/** compare_formulas.py: one fixed section worked through all three methods,
    for comparison with a spreadsheet.  The values are exact decimals, so the
    results are exact too. */
module CompareFormulas {
  import opened Engine

  /** Every figure `compare_calculations` prints. */
  datatype Comparison = Comparison(
    area: real,
    avgVel06: real,
    q06: real,
    avgVel08: real,
    avgVel02: real,
    avgVelocity: real,
    q0802: real,
    qSurface: real)

  /** The test section: 20 ft wide, depths 4.833 ft and 3.833 ft. */
  const TestSection := Section(20.0, 4.833, 3.833)

  /** `compare_calculations`: the section's area, the 0.6Y mean and
      discharge for 2.5 and 2.3 ft/s, the 0.8Y/0.2Y means and discharge for
      (2.6, 2.4) at 0.8Y and (2.3, 2.1) at 0.2Y, and the surface discharge
      for factor 0.85 and 3.0 ft/s; each equals what the engine gives. */
  function CompareCalculations(): (c: Comparison)
    ensures c.area == 86.66 && c.avgVel06 == 2.4 && c.q06 == 207.984
    ensures c.avgVel08 == 2.5 && c.avgVel02 == 2.2 && c.avgVelocity == 2.35 && c.q0802 == 203.651
    ensures c.qSurface == 220.983
    ensures c.q06 == Discharge06(Station(TestSection, Reading06(2.5, 2.3)))
    ensures c.q0802 == Discharge0802ByDepth(Station(TestSection, Reading0802(2.6, 2.4, 2.3, 2.1)))
    ensures c.qSurface == SurfaceDischarge([Area(TestSection)], 0.85, 3.0)
  {
    var width, depth1, depth2 := 20.0, 4.833, 3.833;
    var vel1, vel2 := 2.5, 2.3;
    var area := ((depth1 + depth2) / 2.0) * width;
    var avgVel := (vel1 + vel2) / 2.0;
    var vel08First, vel08Second := 2.6, 2.4;
    var vel02First, vel02Second := 2.3, 2.1;
    var avgVel08 := (vel08First + vel08Second) / 2.0;
    var avgVel02 := (vel02First + vel02Second) / 2.0;
    var avgVelocity := (avgVel08 + avgVel02) / 2.0;
    var convFactor, surfVel := 0.85, 3.0;
    Comparison(area, avgVel, area * avgVel, avgVel08, avgVel02, avgVelocity, area * avgVelocity,
               convFactor * area * surfVel)
  }

  /** The `:.3f` figures printed are the exact values: each is already a
      whole number of thousandths, so rounding to 3 places changes nothing. */
  lemma PrintedFiguresExact()
    ensures var c := CompareCalculations();
      Round(c.area, 3) == c.area && Round(c.avgVel06, 3) == c.avgVel06 && Round(c.q06, 3) == c.q06
      && Round(c.avgVel08, 3) == c.avgVel08 && Round(c.avgVel02, 3) == c.avgVel02
      && Round(c.avgVelocity, 3) == c.avgVelocity && Round(c.q0802, 3) == c.q0802
      && Round(c.qSurface, 3) == c.qSurface
  {
    var c := CompareCalculations();
    assert Pow10(1) == 10 && Pow10(2) == 100;
    assert Scale(3) == 1000.0;
    assert OnGrid(86.66, 3) by { assert (86.66 * 1000.0).Floor == 86660; }
    assert OnGrid(2.4, 3) by { assert (2.4 * 1000.0).Floor == 2400; }
    assert OnGrid(207.984, 3) by { assert (207.984 * 1000.0).Floor == 207984; }
    assert OnGrid(2.5, 3) by { assert (2.5 * 1000.0).Floor == 2500; }
    assert OnGrid(2.2, 3) by { assert (2.2 * 1000.0).Floor == 2200; }
    assert OnGrid(2.35, 3) by { assert (2.35 * 1000.0).Floor == 2350; }
    assert OnGrid(203.651, 3) by { assert (203.651 * 1000.0).Floor == 203651; }
    assert OnGrid(220.983, 3) by { assert (220.983 * 1000.0).Floor == 220983; }
    RoundOnGrid(c.area, 3);
    RoundOnGrid(c.avgVel06, 3);
    RoundOnGrid(c.q06, 3);
    RoundOnGrid(c.avgVel08, 3);
    RoundOnGrid(c.avgVel02, 3);
    RoundOnGrid(c.avgVelocity, 3);
    RoundOnGrid(c.q0802, 3);
    RoundOnGrid(c.qSurface, 3);
  }
}
