# Stream discharge calculator — Dafny model

This project models a small stream-gauging calculator. A cross-section of a
stream is measured at a series of points. Each section between two points has
a width and two depths. The discharge (flow, in cusecs) is computed by one of
three methods:

- **0.6Y**: two velocity readings at 0.6 of the depth; the section discharge
  is `area * (v1 + v2) / 2`.
- **0.8Y/0.2Y**: two readings at 0.8 of the depth and two at 0.2; the
  section velocity is the mean of the four, taken in two stages.
- **Surface velocity**: one surface velocity for the whole stream, scaled by
  a conversion factor; the discharge is `cf * (sum of areas) * sv`.

The section area is the trapezoid `((d1 + d2) / 2) * width` throughout.

The repository carries the same calculation in eight scripts, and the model
keeps one Dafny module per script:

- `MainScript` (main.py) and `Index5` (index5.py) are procedural scripts.
  They return the total rounded once, to 3 places (0.6Y) or 4 places (the
  others).
- `Sample1` and `Sample2` are console classes that fix the number of points
  and the method when they are built.
- `Sample3` to `Sample6` are dashboard classes that take the number of
  points as an argument.
  - Sample2, Sample3 and Sample5 *append*: each section adds its running
    total to `discharges`.
  - Sample4 and Sample6 *overwrite*: a run replaces `areas`, `velocities`
    and `discharges`, leaving `discharges == [total]`.
- `CompareFormulas` (compare_formulas.py) works one fixed section through
  all three methods.

The shared arithmetic sits in `Engine`. It holds the datatypes, the
per-section means, areas and discharges, the series over all sections,
sums and running totals, and Python's `round`. `Calculator` holds the five
lists a calculator object keeps (`depths`, `velocities`, `discharges`,
`widths`, `areas`). It describes what each method leaves in them under each
of the two behaviours.

Every class method is proved against those functions. Its `ensures` states
the new lists as a function of the old ones, and the total as a sum over
the input. The lemmas beside those functions state what the sources promise:
- the totals shown never decrease for non-negative readings;
- the area-first and section-by-section surface totals agree;
- the two pairings of the 0.8Y/0.2Y mean agree;
- the plots recover the velocities the calculation used;
- the surface total is bounded.

Values are exact reals. The readings a user types in become input sequences,
and their length is the number of measurement points. `range(n)` of a
negative `n` is empty, which `Iterations` models.

## Model

| member | source | states |
|---|---|---|
| Engine.MeanDepth | main.py:98 | the mean depth of a section lies between its two depths |
| Engine.Area | sample1.py:17-18 | the trapezoid area lies between the shallower-depth and deeper-depth rectangles, and is non-negative for a measured section |
| Engine.Mean06 | main.py:92 | the 0.6Y mean velocity lies between the two readings |
| Engine.Mean0802ByPoint | main.py:135-137 | pairing each point's 0.8Y and 0.2Y readings first gives the flat four-way mean |
| Engine.Mean0802ByDepth | sample4.py:296-298 | pairing the 0.8Y readings and the 0.2Y readings first gives the same mean as pairing by point, and the flat mean |
| Engine.Discharge06 | main.py:92-94 | a 0.6Y section discharge is non-negative for a measured section with forward readings |
| Engine.Discharge0802ByPoint | main.py:135-139 | a point-first 0.8Y/0.2Y section discharge is non-negative for non-negative inputs |
| Engine.Discharge0802ByDepth | sample4.py:296-302 | the depth-first section discharge equals the point-first one |
| Engine.ProductThenHalf | sample1.py:27 | `area * (v1 + v2) / 2`, multiplied before it is halved, is the 0.6Y section discharge |
| Engine.MeanDepths | main.py:98 | one mean depth per section, each between that section's two depths |
| Engine.Areas | main.py:93 | one area per section; none is negative when every section is measured |
| Engine.Velocities06 | main.py:92-99 | one 0.6Y mean velocity per section, each between that section's two readings |
| Engine.Velocities0802ByPoint | main.py:135-144 | each plotted point-first velocity is also the depth-first mean and the flat four-way mean of that section's readings |
| Engine.Discharges06 | main.py:94-100 | one 0.6Y section discharge per section; none is negative for measured sections with forward readings |
| Engine.Discharges0802ByPoint | main.py:139-145 | one point-first section discharge per section; none is negative for measured sections with forward readings |
| Engine.Discharges0802ByDepth | sample4.py:296-303 | the depth-first section discharges of sample4-6 are the same series as the point-first ones of main.py |
| Engine.SectionSeriesSnoc | sample2.py:34-40 | one more section adds exactly one width, depth pair, mean depth and area |
| Engine.Stations06Snoc | main.py:97-100 | one more 0.6Y station adds exactly one entry to each per-station series |
| Engine.Stations0802Snoc | main.py:142-145 | one more 0.8Y/0.2Y station adds exactly one entry to each per-station series |
| Engine.RunningTotalsSnoc | sample2.py:169-170 | adding one value to the total extends the running totals by the new total |
| Engine.SumStep | main.py:95 | the total over a prefix of one more entry adds that entry |
| Engine.RunningTotalsStep | sample2.py:169-170 | the running totals of a prefix of one more entry gain the new total |
| Engine.RunningTotalsLast | main.py:58 | the last running total is the total |
| Engine.SumNonNegative | main.py:95 | the total of non-negative section discharges is non-negative |
| Engine.SumPrefixMonotone | main.py:58 | with non-negative entries a longer prefix never has a smaller total |
| Engine.RunningTotalsNondecreasing | main.py:58 | the cumulative-discharge curve never decreases and never goes below 0 for non-negative section discharges |
| Engine.SumScaled | main.py:172-227 | summing `cf * area * sv` section by section gives `cf * (sum of areas) * sv` |
| Engine.ScaleByPrefix | main.py:174 | scaling a prefix is the prefix of the scaled series |
| Engine.ScaleBySnoc | sample4.py:358-359 | one more area adds exactly one scaled discharge |
| Engine.RunningTotalsScaled | sample5.py:170-179 | the running totals of the scaled areas are the scaled running totals of the areas |
| Engine.SurfaceDischarge | main.py:227 | the area-first surface total equals the section-by-section sum of `cf * area * sv` |
| Engine.ScaledAdd | sample5.py:174-178 | adding `cf * area * sv` to the area-first total so far gives the area-first total with the area included |
| Engine.SurfaceDischargeNonNegative | main.py:227 | the surface total is non-negative for non-negative areas, factor and velocity |
| Engine.Pow10 | main.py:106 | a power of ten is at least 1 |
| Engine.NearestEven | main.py:106 | the integer chosen is within one half of its argument |
| Engine.Round | main.py:106 | `round(x, places)` lies on the grid of 10^-places and within half a grid step of `x` |
| Engine.RoundBounds | main.py:106 | the nearest grid point, scaled back, is on the grid and within half a step |
| Engine.RoundOnGrid | main.py:106 | a value already on the grid rounds to itself |
| Engine.NearestEvenMonotone | main.py:106 | nearest-even rounding to an integer is monotone |
| Engine.RoundMonotone | sample1.py:28 | rounding to a fixed number of places is monotone |
| Engine.GridMonotone | main.py:106 | rounding to a grid of any step is monotone |
| Engine.RoundNonNegative | main.py:106 | a non-negative value rounds to a non-negative value, and 0 to 0 |
| Engine.RoundEachSnoc | sample2.py:171 | one more value adds one rounded entry |
| Engine.RoundEachNondecreasing | sample2.py:171 | rounding every entry of a non-decreasing series keeps it non-decreasing |
| Engine.PlotMean06 | sample4.py:96-97 | the plot's `(v1 + v2) / 2` over a record is the 0.6Y mean, and gives `v` back from `(v, v)` |
| Engine.PlotMean0802ByPoint | sample4.py:122-123 | the schematic's point-first mean over a stored record equals the depth-first mean |
| Engine.PlotMean0802ByDepth | sample2.py:86-93 | the plot's depth-first mean over a stored record equals the point-first mean |
| Engine.Running06Step | sample1.py:27-28 | one more 0.6Y section makes the total the new running total and extends the shown totals by its rounding |
| Engine.Running0802Step | sample1.py:42-43 | the same for a 0.8Y/0.2Y section |
| Engine.RunningSurfaceStep | sample3.py:143-150 | one more area makes the area sum the new total, the surface total `cf * total * sv`, and extends the shown totals by its rounding |
| Calculator.Appended06Step | sample2.py:163-171 | one appending 0.6Y section adds one width, depth pair, raw pair and running total, and no area |
| Calculator.Appended0802Step | sample2.py:177-189 | one appending 0.8Y/0.2Y section adds one width, depth pair, raw record and running total, and no area |
| Calculator.AppendedSurfaceStep | sample3.py:143-150 | one appending surface section adds one width, depth pair, area and area-first partial total |
| Calculator.Overwriting06Step | sample4.py:195-228 | one overwriting 0.6Y section adds one width and depth pair, and one entry to each local series |
| Calculator.Overwriting0802Step | sample4.py:255-316 | one overwriting 0.8Y/0.2Y section does the same with raw records and depth-first discharges |
| Calculator.OverwritingSurfaceStep | sample4.py:349-371 | one overwriting surface section adds one width, depth pair and area |
| Calculator.AppendedSeriesLengths | sample2.py:161-191 | a 0.6Y or 0.8Y/0.2Y run on a new calculator leaves one width, depth pair, velocity record and discharge per section, and no area |
| Calculator.AppendedSurfaceLengths | sample2.py:193-207 | a surface run on a new calculator leaves one width, depth pair, area and discharge per section, and no velocity record |
| Calculator.Appended06Nondecreasing | sample2.py:161-173 | with non-negative inputs the appended 0.6Y discharges never decrease and end at the total |
| Calculator.Appended0802Nondecreasing | sample2.py:175-191 | the same for 0.8Y/0.2Y |
| Calculator.AppendedSurfaceIncremental | sample5.py:168-180 | the area-first partial totals sample2/3 append equal the running sums of `cf * area * sv` that sample5 appends, and never decrease for non-negative inputs |
| Calculator.DerivedSurfaceVelocityAfterRun | sample5.py:90 | after a surface run on a new calculator, the schematic's `discharges[-1] / sum(areas)` is `cf * sv` when the areas sum to something positive, else 0 |
| Calculator.DerivedOfScaledTotals | sample5.py:90 | the last scaled running total over the area sum is `cf * sv` |
| Calculator.Appended0802PlotAgrees | sample3.py:65-71 | every appended record is a four-reading record, and the plot's depth-first mean equals the point-first mean the calculation used |
| Calculator.Overwritten06Shape | sample4.py:237-241 | after an overwriting 0.6Y run, areas and velocities have one entry per section, discharges is `[total]`, and widths and depths grew by one per section |
| Calculator.Overwritten0802Total | sample4.py:318-320 | after an overwriting 0.8Y/0.2Y run the stored total is the point-first total |
| Calculator.OverwrittenSurfaceTotal | sample4.py:373-377 | after an overwriting surface run the stored total is `cf * (sum of areas) * sv` |
| Calculator.Overwritten06PlotRecoversMean | sample4.py:96-97 | the plot's mean over each stored `(v, v)` is that section's 0.6Y mean |
| Calculator.Overwritten0802PlotAgrees | sample4.py:120-123 | the schematic's point-first mean over each stored record is the depth-first mean the discharge used |
| Calculator.OverwrittenSurfaceBounds | sample4.py:331-337 | with non-negative inputs and a factor in [0, 1], the stored surface total lies between 0 and `sv * (sum of areas)` |
| MainScript.CalculateDischarge06 | main.py:72-106 | the mean-depth, velocity and discharge series are one entry per section; the total is rounded to 3 places once; the cumulative plot never decreases; no points gives 0 |
| MainScript.CalculateDischarge0802 | main.py:109-151 | the same for 0.8Y/0.2Y with the point-first mean, rounded to 4 places |
| MainScript.CalculateDischargeSurface | main.py:154-227 | the per-section discharges are `cf * area * sv`; the reported total is the area-first total rounded to 4 places, equal to the rounded sum of the series; non-negative for non-negative inputs |
| MainScript.Dispatch | main.py:230-247 | methods 1–3 give their rounded totals; any other choice gives no total |
| Index5.CalculateDischarge06 | index5.py:11-32 | the 0.6Y total rounded to 3 places; non-negative for forward readings; 0 for no points |
| Index5.CalculateDischarge0802 | index5.py:35-66 | the point-first 0.8Y/0.2Y total rounded to 4 places |
| Index5.CalculateDischargeSurface | index5.py:69-88 | the area-first surface total rounded to 4 places |
| Index5.Dispatch | index5.py:91-108 | methods 1–3 give their rounded totals; any other choice gives no total |
| Sample1.DischargeCalculator.constructor | sample1.py:2-8 | the number of points and the method are recorded |
| Sample1.DischargeCalculator.CalcArea | sample1.py:17-18 | the engine's section area, non-negative for non-negative measurements |
| Sample1.DischargeCalculator.Calculate06 | sample1.py:20-29 | returns the unrounded 0.6Y total; the totals shown are the running totals rounded to 3 places and never decrease for forward readings |
| Sample1.DischargeCalculator.Calculate0802 | sample1.py:31-44 | the same for 0.8Y/0.2Y, shown to 4 places |
| Sample1.DischargeCalculator.CalculateSurfaceVelocityMethod | sample1.py:46-55 | returns the area-first surface total and shows it rounded to 4 places; 0 with no section |
| Sample1.DischargeCalculator.CalculateDischarge | sample1.py:57-65 | methods 1–3 return their totals; any other number returns nothing |
| Sample2.DischargeCalculator.constructor | sample2.py:8-32 | choices recorded, all five lists empty |
| Sample2.DischargeCalculator.GetMeasurements | sample2.py:34-40 | returns the section read and appends exactly its width and depth pair |
| Sample2.DischargeCalculator.CalcArea | sample2.py:42-43 | the engine's section area |
| Sample2.DischargeCalculator.Calculate06 | sample2.py:161-173 | the lists become the appending 0.6Y state; returns the total; shown totals are rounded running totals, non-decreasing for forward readings |
| Sample2.DischargeCalculator.Calculate0802 | sample2.py:175-191 | the same for 0.8Y/0.2Y |
| Sample2.DischargeCalculator.CalculateSurfaceVelocityMethod | sample2.py:193-207 | the lists become the appending surface state; returns the area-first total, or nothing when no section is read |
| Sample2.DischargeCalculator.CalculateDischarge | sample2.py:209-228 | methods 1–3 return their totals and leave their list state; a surface run over no points fails; another number changes nothing and returns no method |
| Sample3.DischargeCalculator.constructor | sample3.py:26-32 | all five lists empty |
| Sample3.DischargeCalculator.GetMeasurements | sample3.py:34-46 | returns the section read and appends exactly its width and depth pair |
| Sample3.DischargeCalculator.CalcArea | sample3.py:48-49 | the engine's section area |
| Sample3.DischargeCalculator.Calculate06 | sample3.py:94-110 | appending 0.6Y state; the total; rounded running totals shown |
| Sample3.DischargeCalculator.Calculate0802 | sample3.py:112-133 | appending 0.8Y/0.2Y state; the total; rounded running totals shown |
| Sample3.DischargeCalculator.CalculateSurfaceVelocityMethod | sample3.py:135-153 | appending surface state; the area-first total, or nothing with no section |
| Sample3.RunDashboard | sample3.py:155-175 | with at least one point the chosen method's total is returned |
| Sample4.DischargeCalculator.constructor | sample4.py:24-25 | all five lists empty |
| Sample4.DischargeCalculator.Reset | sample4.py:27-33 | all five lists empty |
| Sample4.DischargeCalculator.GetMeasurements | sample4.py:35-53 | returns the section read and appends exactly its width and depth pair |
| Sample4.DischargeCalculator.CalcArea | sample4.py:55-57 | the engine's section area |
| Sample4.DischargeCalculator.Calculate06 | sample4.py:186-244 | overwriting 0.6Y state; returns the total; non-negative for forward readings |
| Sample4.DischargeCalculator.Calculate0802 | sample4.py:246-323 | overwriting 0.8Y/0.2Y state; the depth-first total equals the point-first one |
| Sample4.DischargeCalculator.CalculateSurfaceVelocityMethod | sample4.py:325-380 | overwriting surface state; the section-by-section total equals the area-first total and lies in [0, sv * sum of areas] for a factor in [0, 1] |
| Sample4.RunDashboard | sample4.py:383-412 | with at least one point the chosen method's total is returned |
| Sample5.DischargeCalculator.constructor | sample5.py:25-30 | all five lists empty |
| Sample5.DischargeCalculator.GetMeasurements | sample5.py:32-44 | returns the section read and appends exactly its width and depth pair |
| Sample5.DischargeCalculator.CalcArea | sample5.py:46-48 | the engine's section area |
| Sample5.DischargeCalculator.SchematicSurfaceVelocity | sample5.py:90 | the derived velocity times the area sum is the last stored discharge, or 0 when the areas sum to nothing positive |
| Sample5.DischargeCalculator.Calculate06 | sample5.py:108-128 | appending 0.6Y state; the total; rounded running totals shown |
| Sample5.DischargeCalculator.Calculate0802 | sample5.py:130-159 | appending state; the depth-first total equals the point-first one |
| Sample5.DischargeCalculator.CalculateSurfaceVelocityMethod | sample5.py:161-183 | appending surface state; the section-by-section total equals the area-first total |
| Sample5.RunDashboard | sample5.py:185-203 | with at least one point the chosen method's total is returned |
| Sample6.DischargeCalculator.constructor | sample6.py:14-15 | all five lists empty |
| Sample6.DischargeCalculator.Reset | sample6.py:17-23 | all five lists empty |
| Sample6.DischargeCalculator.GetMeasurements | sample6.py:25-38 | returns the section read and appends exactly its width and depth pair |
| Sample6.DischargeCalculator.CalcArea | sample6.py:40-42 | the engine's section area |
| Sample6.DischargeCalculator.Calculate06 | sample6.py:106-139 | overwriting 0.6Y state; the total |
| Sample6.DischargeCalculator.Calculate0802 | sample6.py:141-192 | overwriting 0.8Y/0.2Y state; the depth-first total equals the point-first one |
| Sample6.DischargeCalculator.CalculateSurfaceVelocityMethod | sample6.py:194-227 | overwriting surface state; the total equals the area-first one and is bounded for a factor in [0, 1] |
| Sample6.RunDashboard | sample6.py:229-252 | with at least one point the chosen method's total is returned |
| CompareFormulas.CompareCalculations | compare_formulas.py:15-64 | the test section gives area 86.66, 0.6Y discharge 207.984, 0.8Y/0.2Y means 2.5, 2.2, 2.35 and discharge 203.651, and surface discharge 220.983, each equal to the engine's value |
| CompareFormulas.PrintedFiguresExact | compare_formulas.py:24-64 | every printed `:.3f` figure is already exact to 3 places |


## Definitions

These functions are the model's definitions, not properties; the rows above
state what is proved about them.

- `Engine.Iterations` (main.py:78): the number of passes `range(n)` makes, 0 for a negative `n`.
- `Engine.Sections`, `Engine.Widths`, `Engine.DepthPairs` (sample2.py:34-40): the section read per point and its width and depth pair, in order.
- `Engine.RawPairs` (sample2.py:168), `Engine.RawQuads` (sample2.py:185): the velocity records the appending classes store.
- `Engine.MeanPairs06` (sample4.py:238-240): the `(v, v)` records sample4 and sample6 store.
- `Engine.Repeat` (sample4.py:374-376): the `(sv, sv)` records of a surface run.
- `Engine.ScaleBy` (main.py:174): the per-section surface discharges `cf * area * sv`; `Engine.SumScaled` states their total.
- `Engine.Sum` (main.py:95): the `total += q` accumulation every total is stated with.
- `Engine.RunningTotals` (main.py:58): the cumulative series; `Engine.RunningTotalsLast` and `Engine.RunningTotalsNondecreasing` state its properties.
- `Engine.RoundEach` (sample2.py:171): the running totals as shown; `Engine.RoundEachNondecreasing` states its property.
- `Engine.DerivedSurfaceVelocity` (sample5.py:90): the schematic's `discharges[-1] / sum(areas)`; `Calculator.DerivedSurfaceVelocityAfterRun` states its value.
- `Calculator.AfterMeasurements` (sample2.py:34-40): the lists after one `get_measurements` per section.
- `Calculator.Appended06`, `Calculator.Appended0802` (sample2.py:161-191), `Calculator.AppendedSurface` (sample3.py:135-153): the lists an appending run leaves.
- `Calculator.Overwritten06` (sample4.py:237-241), `Calculator.Overwritten0802` (sample4.py:318-320), `Calculator.OverwrittenSurface` (sample4.py:373-377): the lists an overwriting run leaves.
- `Engine.AreaTimesMean06`, `Engine.AreaTimesDepthMean0802`, `Engine.AreaTimesMean0802`, `Engine.SurfaceDischargeOf` and `Engine.RoundUnfold` unfold a definition at the point a loop needs it; they state nothing beyond it.

## Left out

- Input and output: prompts, `input()`, Streamlit widgets, `print`, `st.info` and `st.success`. The values read become parameters. The per-section lines that sample4.py and sample6.py show, including `display_section_results` (sample6.py:97-104), are display only.
- Plotting and theming: `plot_measurements`, `plot_results`, `plot_schematic`, `set_dark_theme`. Only the velocity each plot derives from the stored lists is modelled (the `PlotMean*` functions and `SchematicSurfaceVelocity`).
- Streamlit session state, reruns and the sidebar layout. Only the state a new calculator starts from (`reset`) is modelled.
- `read_excel_formulas` (compare_formulas.py:4-13) reads a spreadsheet file; file I/O is not part of this model.
- The keyboard-interrupt handlers and the generic exception handler that print and exit. Sample2's surface failure is modelled as the `Failed` outcome.
- Floating point: values are exact reals. A float result may differ from the exact one in its last bits, and so may the rounding of a value that lies near a tie.
- Sample1.DischargeCalculator.CalculateDischarge: the error message printed for an unknown method is not modelled, only the `None` returned.
- Non-numeric input, which would make `int()` raise, is not modelled.
- Widget limits (`min_value=0.0`, the factor's `max_value=1.0`) appear as the hypotheses of conditional `ensures`, not as preconditions. The dashboard's `min_value=1` for the number of points is a precondition of each `RunDashboard`.

## Notes on the sources

- The 0.8Y/0.2Y velocity is averaged point-first in main.py, index5.py and sample1–3, and depth-first in sample4–6 and compare_formulas.py. The plots of some scripts use the other order. Over the reals the two orders and the flat four-way mean are the same number (`Mean0802ByDepth`), so the two-stage mean never differs from the flat mean.
- The surface total is area-first `cf * (sum of areas) * sv` in main.py, index5.py and sample1–3, and section-by-section in sample4–6. `SumScaled` and `RunningTotalsScaled` prove the two agree, partial totals included.
- sample2.py and sample3.py assign `total_q` only inside the surface loop. With no section, the method raises instead of returning; in sample3.py the dashboard's minimum of one point keeps this from happening.
