# Z-offset calibration G-code generator, modelled in Dafny

This project models `generate_z_offset_calibration_gcode` from
`make_bed_callibration.py`, together with its inner `calculate_extrusion`.
The function prints a grid of `x_count` by `y_count` small squares. Each
square gets its own Z offset, interpolated linearly from `z_offset_min` to
`z_offset_max` in row-major order. Each square is printed as `int(square_height
/ layer_height)` layers. A layer is a Z move, a travel to the square's corner,
and four extruding moves around the square. Every extruding move reports the
absolute extruder position. That position is one running total `e_position`,
which is never reset.

The model has these parts:

- `Config`: the settings record (the generator's keyword arguments) and the
  two ways generation can fail.
- `Grid`: the start corner (centred on the bed unless given) and the corner
  of every square.
- `Offsets`: the offset schedule, including Python's `round(v, 3)`, which
  rounds ties to even.
- `Extrusion`: `calculate_extrusion`.
- `Toolpath`: the layer count, the layer heights and the closed square path.
- `GCode`: the output lines as an abstract datatype, and `Generate`, the
  reference definition of the whole program. `Body`/`Block` define the
  nested row, square and layer loops as runs of blocks laid end to end.
- `Generator`: the source's loops written as methods that append to `lines`
  and accumulate `e`. They are proved to produce exactly `Generate`.
- `Layout`: where every line sits in the program. This covers the total
  length, the line of each square's comment and of each layer's moves, and
  the extruder position each extruding move reports.
- `ExtruderLog`: the sequence of reported extruder positions. It has one
  entry per edge, is never reset, and never decreases for non-negative
  inputs.
- `Blocks`: generic facts about concatenated blocks.

Floats are exact `real`s and Python ints are unbounded `int`s. The source
checks nothing up front. It fails only by dividing by zero, and then it
produces no output. There are two such failures:
- `x_count * y_count == 1` makes the offset step divide by zero. This
  includes `(-1) * (-1)`.
- A grid with at least one square and `layer_height == 0` fails on
  `square_height / layer_height`.

Both are modelled as `Failure` results. Negative counts give empty loops, as
`range` does.

Other behaviour of the code that the model keeps:
- The code validates nothing else. A count of zero or below, or a quotient
  `square_height / layer_height` below one, quietly prints no squares or no
  layers.
- There are no vendor marker blocks, no prime line, no per-layer reset of
  the extruder position and no display messages. The header is exactly nine
  lines, the footer is exactly four, and the extruder position is one
  running total.
- Every offset is rounded to three decimals, the first and last included.
  The ends are `round(z_min, 3)` and `round(z_max, 3)`
  (`Offsets.ScheduleEnds`). These equal `z_min` and `z_max` when those have
  at most three decimals (`Offsets.Round3Exact`).

## Model

| member | source | states |
|---|---|---|
| Grid.ResolveStart | make_bed_callibration.py:37-40 | A supplied start value is returned unchanged. An omitted one leaves equal margins: `bed == start + extent + start`. |
| Grid.Start | make_bed_callibration.py:34-40 | Each axis of the start corner is decided by its own argument alone. A supplied value is kept, and an omitted one gives equal margins around `grid_width` (or `grid_height`) on the bed. |
| Grid.CentredGrid | make_bed_callibration.py:34-40 | With both start values omitted, the grid's centre is the bed's centre on both axes. |
| Grid.CellOrigin | make_bed_callibration.py:63-91 | With a non-negative pitch, every square's corner lies at or beyond the start corner on both axes. With a non-positive pitch, it lies at or before it. |
| Grid.NeighbourOrigins | make_bed_callibration.py:63-91 | Moving one column shifts the square's corner by `square_size + spacing` in x only. Moving one row shifts it in y only. Square (0, 0) sits at the start corner. These are the source's running `current_x`/`current_y`. |
| Offsets.RoundHalfEven | make_bed_callibration.py:46 | Python's `round` to an integer: the result is within one half of the value, and an exact tie goes to the even integer. |
| Offsets.RoundHalfEvenMonotone | make_bed_callibration.py:46 | Rounding preserves order. |
| Offsets.Round3 | make_bed_callibration.py:46 | `round(v, 3)` is within 0.0005 of `v` and a whole number of thousandths. On an exact tie it is the even number of thousandths, as Python's `round` gives. |
| Offsets.Round3Monotone | make_bed_callibration.py:46 | `round(., 3)` preserves order. |
| Offsets.Round3Exact | make_bed_callibration.py:46 | A value with at most three decimals is unchanged by `round(., 3)`. |
| Offsets.Schedule | make_bed_callibration.py:45-48 | The offset list fails exactly when `x_count * y_count == 1`, with the offset-step error. Otherwise it has one entry per iteration of `range(x_count * y_count)`, each within 0.0005 of `z_min + i * (z_max - z_min) / (n - 1)`. |
| Offsets.ExactScheduleShape | make_bed_callibration.py:46 | Before rounding, the offsets start at `z_min`, end at `z_max` and advance by the constant step `(z_max - z_min) / (n - 1)`. |
| Offsets.ExactOffsetLinear | make_bed_callibration.py:46 | Before rounding, offset `i` is `z_min` plus `i` steps. |
| Offsets.ScheduleEnds | make_bed_callibration.py:45-48 | The first offset is `round(z_min, 3)` and the last is `round(z_max, 3)`. |
| Offsets.ScheduleMonotone | make_bed_callibration.py:45-48 | The rounded offsets never decrease when `z_min <= z_max` and never increase when `z_max <= z_min`. |
| Extrusion.CalculateExtrusion | make_bed_callibration.py:41-42 | The filament fed for a segment, times the cross-section of 1.75 mm filament (pi as 3.1416), equals the bead's volume `length * line_width * layer_height * multiplier`. |
| Extrusion.ExtrusionLinear | make_bed_callibration.py:41-42 | Filament is additive in segment length and scales with it. |
| Extrusion.ExtrusionDoubles | make_bed_callibration.py:41-42 | Doubling a segment doubles its filament. |
| Extrusion.ExtrusionNonNegative | make_bed_callibration.py:41-42 | Non-negative inputs never ask for a retraction. |
| Toolpath.SegmentLengthEuclidean | make_bed_callibration.py:85 | For an axis-aligned segment, the modelled length is the non-negative square root of `dx**2 + dy**2`, which is the value the source computes. |
| Toolpath.SquarePath | make_bed_callibration.py:76-82 | The layer path has five points, starts at the square's corner and returns to it. |
| Toolpath.SquareEdge | make_bed_callibration.py:76-89 | Each of the four edges, measured from the previous point as the updated `path[0]` does, runs along one axis and is `abs(square_size)` long. |
| Toolpath.Trunc | make_bed_callibration.py:72 | `int()` truncates toward zero: the magnitude is the floor of the argument's magnitude, and the sign is kept. |
| Toolpath.LayerCount | make_bed_callibration.py:72-73 | The layer loop runs `floor(square_height / layer_height)` times for a non-negative quotient, and not at all when the quotient is below one. |
| Toolpath.LayerZ | make_bed_callibration.py:74 | A layer's nozzle height is strictly above the square's offset when `layer_height > 0`, and equals the offset when `layer_height == 0`. |
| Toolpath.LayerZSteps | make_bed_callibration.py:74 | For any layer height, layer 0 sits one layer height above the offset and each later layer is exactly one layer height higher. |
| Toolpath.LayerZIncreasing | make_bed_callibration.py:73-74 | With `layer_height > 0`, a later layer is strictly higher than an earlier one. |
| GCode.Header | make_bed_callibration.py:50-60 | The set-up is nine lines starting with the title comment. None of them extrudes or announces a square. |
| GCode.Footer | make_bed_callibration.py:93-96 | The shut-down is four lines ending with the motor-disable command. None of them extrudes or announces a square. |
| GCode.RowStartProduct | make_bed_callibration.py:64-70 | The running square counter `idx` at the start of row `row` is `row * x_count`. |
| GCode.CellIndex | make_bed_callibration.py:69-70 | `z_offsets[idx]` always names an existing offset. |
| GCode.PlanOf | make_bed_callibration.py:34-48 | What the loops read is taken from the settings: start corner, pitch, counts, offset list, layer count, per-edge filament and feedrates. The grid has `CellCount` squares and every square has an offset. |
| GCode.GenerateErrors | make_bed_callibration.py:45-73 | Generation stops with the offset-step error exactly when the offset schedule cannot be built. It stops with the layer-count error exactly when the schedule exists, both counts are positive and `layer_height == 0`. In every other case a program is produced. |
| GCode.Fed | make_bed_callibration.py:87 | Adding a non-negative amount per edge never takes the running total below where it started. Adding a non-positive amount never takes it above. |
| GCode.EBefore | make_bed_callibration.py:62-88 | The extruder position at the start of any layer is never negative when edges feed non-negative filament, because it starts at 0 and only accumulates. |
| GCode.LayerMoves | make_bed_callibration.py:73-89 | A layer has six moves. The Z move is to its height at feedrate 100. The travel is to the square's corner. The four extruding moves run at the print feedrate and end back at the corner. With non-negative filament per edge, their reported positions never fall below the layer's starting total and never decrease. |
| GCode.ProgramFrame | make_bed_callibration.py:50-96 | A program has at least 13 lines. It opens with the nine set-up lines and closes with the four shut-down lines. |
| Layout.FedAdds | make_bed_callibration.py:87 | Feeding `a` edges and then `b` more is feeding `a + b` edges. |
| Layout.FedClosedForm | make_bed_callibration.py:87 | After `n` edges of `s` each, the running total has grown by `n * s`. |
| Layout.EBeforeCounts | make_bed_callibration.py:62-88 | The extruder position at the start of any layer is the filament of every earlier edge of the job. The total is carried across layers and squares and never reset. |
| Layout.PrefixLength | make_bed_callibration.py:66-89 | `n` loop iterations that each append `w` lines append `n * w` lines. |
| Layout.RowLinesLength | make_bed_callibration.py:68-89 | The first `c` squares of a row take `c * (1 + 6 * layers)` lines. |
| Layout.GridLinesLength | make_bed_callibration.py:66-91 | The first `r` rows take `r * x_count * (1 + 6 * layers)` lines. |
| Layout.ProgramLength | make_bed_callibration.py:50-96 | A program has `9 + squares * (1 + 6 * layers) + 4` lines. |
| Layout.CellLayersStep | make_bed_callibration.py:73-89 | Each pass of the layer loop appends exactly that layer's six lines. |
| Layout.RowLinesStep | make_bed_callibration.py:68-89 | Each pass of the column loop appends exactly that square's lines. |
| Layout.GridLinesStep | make_bed_callibration.py:66-91 | Each pass of the row loop appends exactly that row's lines. |
| Layout.PrefixStep | make_bed_callibration.py:66-89 | One more pass of a loop lays its block after everything the earlier passes appended. |
| Layout.PrefixConcat | make_bed_callibration.py:66-89 | The lines a loop has appended after `n` passes are its first `n` blocks laid end to end. |
| Layout.CellLayersAt | make_bed_callibration.py:73-89 | Line `t` of layer `i` is line `6 * i + t` of the square's layers. |
| Layout.CellLayerLine | make_bed_callibration.py:71-89 | Line `t` of layer `k` is line `1 + 6 * k + t` of the square, after its comment. |
| Layout.CellInRow | make_bed_callibration.py:68-89 | A square's lines follow all earlier squares of its row. |
| Layout.RowInGrid | make_bed_callibration.py:66-91 | A row's lines follow all earlier rows. |
| Layout.CellInGrid | make_bed_callibration.py:66-91 | A square's lines follow all earlier rows and all earlier squares of its row. |
| Layout.LineOfClosedForm | make_bed_callibration.py:50-89 | Line `t` of square number `c` is program line `9 + c * (1 + 6 * layers) + t`. |
| Layout.CellLineNumber | make_bed_callibration.py:50-91 | That line number counts the nine set-up lines, the earlier rows and the earlier squares of the row. |
| Layout.ProgramGridAt | make_bed_callibration.py:50-96 | Line `i` of the grid is line `9 + i` of the program. |
| Layout.ProgramCellLine | make_bed_callibration.py:50-96 | Line `t` of square (row, col) is program line `LineOf(layers, row * x_count + col, t)`. |
| Layout.LayerContent | make_bed_callibration.py:73-89 | Layer `k` of a square contains four moves. The Z move goes to `(k + 1) * layer_height + z_offset`. The travel goes to the square's corner. The four extruding moves go around the square, continuing the extruder total of every earlier edge. |
| Layout.LayerLinesZ | make_bed_callibration.py:74-75 | A layer opens with the Z move to its height above the square's offset, at feedrate 100. |
| Layout.LayerLinesTravel | make_bed_callibration.py:83 | The second line of a layer travels to the square's corner at `travel_speed * 60`. |
| Layout.LayerMovesExtrude | make_bed_callibration.py:84-88 | Extruding move `j` goes to corner `j + 1` of the path and reports the total after `j + 1` more edges. |
| Layout.ExtruderAfter | make_bed_callibration.py:62-88 | Extruding move `j` of layer `k` of square `c` reports the filament of `n = (c * layers + k) * 4 + j + 1` edges, which is `n` times the per-edge filament. |
| Layout.FedAfter | make_bed_callibration.py:87 | Feeding `b` more edges after a total that already covers `a` edges gives `(a + b)` times the per-edge filament. |
| Layout.LayerLinesExtrude | make_bed_callibration.py:84-88 | Line `2 + j` of layer `k` of square (row, col) extrudes to corner `j + 1`. It reports `((c * layers + k) * 4 + j + 1)` times the per-edge filament, at `print_speed * 60`. |
| Layout.ProgramParts | make_bed_callibration.py:50-96 | A successful program is the set-up, every row of squares, and the shut-down. |
| Layout.SquareNumberIndex | make_bed_callibration.py:64-70 | The row-major number `row * x_count + col` is the value of `idx` when square (row, col) takes its offset. |
| Layout.ProgramCellAt | make_bed_callibration.py:50-96 | Line `t` of square (row, col) sits at program line `LineOf(layers, row * x_count + col, t)`. |
| Layout.ProgramSquareComment | make_bed_callibration.py:69-71 | Square (row, col), numbered `c` in row-major order, is announced at line `9 + c * (1 + 6 * layers)`. The comment names square `c + 1` and offset `c` of the schedule. |
| Layout.ProgramLayerAt | make_bed_callibration.py:71-89 | Line `t` of layer `k` of square (row, col) sits at program line `LineOf(layers, c, 1 + 6 * k + t)`. |
| Layout.PlanLayerZ | make_bed_callibration.py:69-75 | In the plan for the settings, layer `k` of square `c` opens with the Z move to `(k + 1) * layer_height + z_offsets[c]`. |
| Layout.PlanLayerTravel | make_bed_callibration.py:76-83 | In the plan for the settings, layer `k` travels to the square's corner as placed from the start corner. |
| Layout.ProgramLayerZ | make_bed_callibration.py:69-75 | In the program, layer `k` of square `c` opens with the Z move to `(k + 1) * layer_height + z_offsets[c]`. |
| Layout.ProgramLayerTravel | make_bed_callibration.py:63-91 | In the program, that Z move is followed by a travel to the square's corner, as placed from the start corner with `current_x`/`current_y`. |
| Generator.TraceLayer | make_bed_callibration.py:73-89 | One pass of the layer loop appends exactly the layer's six lines. It advances `e_position` by four edges' filament. |
| Generator.TraceSquare | make_bed_callibration.py:72-89 | The layer loop appends the square's layers and carries `e_position` to the start of the next square. |
| Generator.TraceCell | make_bed_callibration.py:69-89 | One square fails exactly when `layer_height == 0`, with the layer-count error. Otherwise it appends the comment and layers, and `idx` moves to the next square. |
| Generator.TraceRow | make_bed_callibration.py:66-91 | A row fails exactly when it has a square and `layer_height == 0`. Otherwise it appends the row's squares in column order and `idx` counts them. |
| Generator.TraceGrid | make_bed_callibration.py:62-91 | The row loop fails exactly when some square is printed and `layer_height == 0`. Otherwise it appends every row in order, starting from `e_position == 0`. |
| Generator.GenerateCalibration | make_bed_callibration.py:34-96 | The loop-by-loop generator produces exactly `Generate(cfg)`, including which error stops it. |
| Generator.GridOutcome | make_bed_callibration.py:62-96 | The grid fails exactly when `Generate` reports the layer-count error. A successful program is set-up, grid and shut-down. |
| ExtruderLog.ExtruderPositionsConcat | make_bed_callibration.py:88 | The positions reported by two stretches of output are those of the first followed by those of the second. |
| ExtruderLog.NoExtrusion | make_bed_callibration.py:50-60 | Lines without extruding moves report no positions. |
| ExtruderLog.HeaderFooterPositions | make_bed_callibration.py:50-96 | Neither the set-up nor the shut-down reports an extruder position. |
| ExtruderLog.RampConcat | make_bed_callibration.py:87 | The running totals after edges `from+1 .. from+n` followed by the next `m` edges are the totals after edges `from+1 .. from+n+m`. |
| ExtruderLog.FedMonotone | make_bed_callibration.py:87 | Adding a non-negative amount per edge never lowers the running total. |
| ExtruderLog.RampMonotone | make_bed_callibration.py:87-88 | Along a run of non-negative edges the reported totals never decrease. |
| ExtruderLog.LayerShapePositions | make_bed_callibration.py:75-88 | A Z move and a travel report nothing. Four extruding moves at `(from + j) * s` report the totals after edges `from + 1 .. from + 4`. |
| ExtruderLog.LayerPositions | make_bed_callibration.py:73-88 | A layer reports four positions: the totals after the next four edges of the job. |
| ExtruderLog.CellLayersPositions | make_bed_callibration.py:73-88 | The first `k` layers of a square report `4 * k` positions, continuing from the edges of every earlier square. |
| ExtruderLog.CellLinesPositions | make_bed_callibration.py:71-88 | A square's comment reports nothing and its layers report the rest. |
| ExtruderLog.RowLinesPositions | make_bed_callibration.py:68-88 | The first `c` squares of a row report `4 * layers * c` positions, continuing from every earlier row. |
| ExtruderLog.GridLinesPositions | make_bed_callibration.py:66-91 | The first `r` rows report `4 * layers * x_count * r` positions, from the first edge of the job. |
| ExtruderLog.ProgramPositions | make_bed_callibration.py:50-96 | A program reports the totals after each edge of the job, in order. |
| ExtruderLog.ProgramRamp | make_bed_callibration.py:62-96 | The program for given settings reports the running totals after edges `1 .. 4 * layers * squares`. |
| ExtruderLog.ExtrusionCount | make_bed_callibration.py:62-96 | The program reports exactly `4 * layers * squares` extruder positions. |
| ExtruderLog.ExtrusionAt | make_bed_callibration.py:62-88 | The `m`-th reported position (from zero) is the running total after `m + 1` edges. So the last one is the filament of the whole job: `squares * layers * 4 * calculate_extrusion(abs(square_size), ...)`. |
| ExtruderLog.ExtrusionMonotone | make_bed_callibration.py:62-88 | With non-negative layer height, line width and multiplier, the reported extruder position never decreases over the program. |

## Left out

- Writing `z_offset_calibration.gcode` and returning its path (make_bed_callibration.py:98-100) are left out, because they are file I/O. The model stops at the list of lines.
- The `__main__` call with default arguments (make_bed_callibration.py:102-103) is left out, because it is process entry and I/O. `Config.Defaults` records the default arguments.
- Text rendering is left out: the f-strings, `:.3f` and `:.5f`, and Python's float repr for X/Y and feedrates. Lines are an abstract datatype carrying exact numbers.
- IEEE floating point is left out. All arithmetic is on exact reals, including `square_height / layer_height` before `int()`, the filament cross-section `1.75**2 * 3.1416 / 4`, and the offsets before rounding.
- The square root on line 85 is not computed. Every edge is axis-aligned, so its length is `|dx| + |dy|`. `Toolpath.SegmentLengthEuclidean` proves this is the non-negative root of `dx**2 + dy**2`.
- Temperatures and speeds are opaque payloads. `bed_size_z` is accepted and never used, in the source as in the model.
- Offsets.Schedule: its contract bounds each entry to within 0.0005 of the exact interpolation instead of restating the rounding digit for digit. The exact value is `Round3` of the exact offset, and `Offsets.Round3`'s contract pins that down up to ties.
- ExtruderLog.ExtrusionAt: the position is stated as the running total after `m + 1` edges, added one edge at a time as the source does. The closed form `(m + 1) * calculate_extrusion(...)` is `Layout.FedClosedForm`, kept as a separate lemma.
- Layout.LayerLinesExtrude: the X/Y and E of each extruding move are stated for the plan of the settings, not restated at a program line number for the settings. Their program positions follow from `Layout.ProgramLayerAt` and `Layout.PlanLayerZ`-style plan lemmas.
