/** The generator itself, written the way the source writes it: one pass
    over rows, columns, layers and path corners, appending to `lines` and
    accumulating the absolute extruder position `e`. */
module Generator {
  import opened Config
  import opened Grid
  import opened Offsets
  import opened Extrusion
  import opened Toolpath
  import opened GCode
  import opened Layout

  /** One layer of one square: the Z move, the travel to the corner and the
      four extruding moves, each measured from the previous point. */
  method TraceLayer(cfg: Settings, corner: Point, layer: nat, zOffset: real, e0: real)
    returns (emitted: seq<Line>, e: real)
    ensures emitted == LayerMoves(corner, cfg.squareSize, LayerZ(layer, cfg.layerHeight, zOffset),
                                  e0, SegmentE(cfg), cfg.travelSpeed * 60.0, cfg.printSpeed * 60.0)
    ensures e == Fed(e0, SegmentE(cfg), 4)
  {
    ghost var spec := LayerMoves(corner, cfg.squareSize, LayerZ(layer, cfg.layerHeight, zOffset),
                                 e0, SegmentE(cfg), cfg.travelSpeed * 60.0, cfg.printSpeed * 60.0);
    ghost var square := SquarePath(corner, cfg.squareSize);
    var z := (layer + 1) as real * cfg.layerHeight + zOffset;
    emitted := [ZMove(z, ZFeed)];
    var path := SquarePath(corner, cfg.squareSize);
    emitted := emitted + [Travel(path[0].x, path[0].y, cfg.travelSpeed * 60.0)];
    var corners := path[1..];
    assert spec[0] == ZMove(z, ZFeed) && spec[1] == Travel(corner.x, corner.y, cfg.travelSpeed * 60.0);
    e := e0;
    var j := 0;
    while j < |corners|
      invariant 0 <= j <= 4 && |path| == 5
      invariant corners == square[1..]
      invariant path[0] == square[j]
      invariant e == Fed(e0, SegmentE(cfg), j)
      invariant emitted == spec[..2 + j]
    {
      var pt := corners[j];
      assert pt == square[j + 1];
      SquareEdge(corner, cfg.squareSize, j);
      var length := SegmentLength(path[0], pt);
      var extrude := CalculateExtrusion(length, cfg.layerHeight, cfg.lineWidth, cfg.extrusionMultiplier);
      assert extrude == SegmentE(cfg);
      e := e + extrude;
      assert spec[2 + j] == Extrude(pt.x, pt.y, e, cfg.printSpeed * 60.0);
      emitted := emitted + [Extrude(pt.x, pt.y, e, cfg.printSpeed * 60.0)];
      path := path[0 := pt];
      j := j + 1;
    }
  }

  /** All layers of square (row, col) (the source's layer loop), continuing
      the extruder position from `e0`, the filament of all earlier squares. */
  method TraceSquare(cfg: Settings, ghost p: Plan, ghost row: nat, ghost col: nat,
                     corner: Point, zOffset: real, e0: real)
    returns (emitted: seq<Line>, e: real)
    requires cfg.layerHeight != 0.0
    requires Follows(p, cfg) && ValidCell(p, row, col)
    requires corner == CellOrigin(p.start, p.pitch, row, col)
    requires zOffset == p.offsets[CellIndex(p, row, col)]
    requires e0 == EBefore(p, CellIndex(p, row, col), 0)
    ensures emitted == CellLayers(p, row, col, p.layers)
    ensures e == EBefore(p, CellIndex(p, row, col) + 1, 0)
  {
    ghost var cell := CellIndex(p, row, col);
    var layers := Trunc(cfg.squareHeight / cfg.layerHeight);
    emitted := [];
    e := e0;
    var layer := 0;
    while layer < layers
      invariant 0 <= layer <= p.layers
      invariant e == EBefore(p, cell, layer)
      invariant emitted == CellLayers(p, row, col, layer)
    {
      var moves;
      moves, e := TraceLayer(cfg, corner, layer, zOffset, e);
      CellLayersStep(p, row, col, layer);
      LayerContent(p, row, col, layer);
      emitted := emitted + moves;
      layer := layer + 1;
    }
  }

  /** One square (the body of the source's column loop): take the next
      offset, announce the square, then print its layers. */
  method TraceCell(cfg: Settings, zOffsets: seq<real>, ghost p: Plan, ghost row: nat, ghost col: nat,
                   currentX: real, currentY: real, idx0: nat, e0: real)
    returns (r: Result<seq<Line>>, idx: nat, e: real)
    requires Follows(p, cfg) && zOffsets == p.offsets && ValidCell(p, row, col)
    requires Point(currentX, currentY) == CellOrigin(p.start, p.pitch, row, col)
    requires idx0 == CellIndex(p, row, col) && e0 == EBefore(p, idx0, 0)
    ensures r.Failure? <==> cfg.layerHeight == 0.0
    ensures r.Failure? ==> r.error == LayerCountByZero
    ensures r.Success? ==> r.value == CellLines(p, row, col)
    ensures r.Success? ==> idx == idx0 + 1 && e == EBefore(p, idx, 0)
  {
    var zOffset := zOffsets[idx0];
    idx := idx0 + 1;
    var lines := [SquareComment(idx, zOffset)];
    if cfg.layerHeight == 0.0 {
      return Failure(LayerCountByZero), idx, e0;
    }
    var emitted;
    emitted, e := TraceSquare(cfg, p, row, col, Point(currentX, currentY), zOffset, e0);
    r := Success(lines + emitted);
  }

  /** One row of squares (the body of the source's row loop): each square's
      comment, then its layers; `idx` counts squares and `e` carries on. */
  method TraceRow(cfg: Settings, zOffsets: seq<real>, ghost p: Plan, row: nat,
                  start: Point, currentY: real, idx0: nat, e0: real)
    returns (r: Result<seq<Line>>, idx: nat, e: real)
    requires ValidPlan(p) && Follows(p, cfg)
    requires zOffsets == p.offsets && start == p.start && row < p.yCount
    requires currentY == CellOrigin(start, p.pitch, row, 0).y
    requires idx0 == RowStart(p, row) && e0 == EBefore(p, idx0, 0)
    ensures r.Failure? <==> p.xCount > 0 && cfg.layerHeight == 0.0
    ensures r.Failure? ==> r.error == LayerCountByZero
    ensures r.Success? ==> r.value == RowLines(p, row, p.xCount)
    ensures r.Success? ==> idx == RowStart(p, row + 1) && e == EBefore(p, idx, 0)
  {
    var lines := [];
    idx, e := idx0, e0;
    var currentX := start.x;
    NeighbourOrigins(start, p.pitch, row, 0);
    var col := 0;
    while col < cfg.xCount
      invariant 0 <= col <= p.xCount
      invariant idx == RowStart(p, row) + col
      invariant currentX == CellOrigin(start, p.pitch, row, col).x
      invariant currentY == CellOrigin(start, p.pitch, row, col).y
      invariant e == EBefore(p, idx, 0)
      invariant lines == RowLines(p, row, col)
      invariant col > 0 ==> cfg.layerHeight != 0.0
    {
      var cell;
      cell, idx, e := TraceCell(cfg, zOffsets, p, row, col, currentX, currentY, idx, e);
      if cell.Failure? {
        return cell, idx, e;
      }
      RowLinesStep(p, row, col);
      lines := lines + cell.value;
      NeighbourOrigins(start, p.pitch, row, col);
      currentX := currentX + cfg.squareSize + cfg.spacing;
      col := col + 1;
    }
    r := Success(lines);
  }

  /** All rows of squares (the source's row loop), starting at the first
      square with nothing extruded yet. */
  method TraceGrid(cfg: Settings, zOffsets: seq<real>, ghost p: Plan, start: Point)
    returns (r: Result<seq<Line>>)
    requires ValidPlan(p) && Follows(p, cfg)
    requires zOffsets == p.offsets && start == p.start
    ensures r.Failure? <==> p.xCount > 0 && p.yCount > 0 && cfg.layerHeight == 0.0
    ensures r.Failure? ==> r.error == LayerCountByZero
    ensures r.Success? ==> r.value == GridLines(p, p.yCount)
  {
    var lines := [];
    var e := 0.0;
    var currentY := start.y;
    var idx := 0;
    var row := 0;
    while row < cfg.yCount
      invariant 0 <= row <= p.yCount
      invariant idx == RowStart(p, row)
      invariant currentY == CellOrigin(start, p.pitch, row, 0).y
      invariant e == EBefore(p, idx, 0)
      invariant lines == GridLines(p, row)
      invariant row > 0 && p.xCount > 0 ==> cfg.layerHeight != 0.0
    {
      var emitted;
      emitted, idx, e := TraceRow(cfg, zOffsets, p, row, start, currentY, idx, e);
      if emitted.Failure? {
        return emitted;
      }
      GridLinesStep(p, row);
      lines := lines + emitted.value;
      NeighbourOrigins(start, p.pitch, row, 0);
      currentY := currentY + cfg.squareSize + cfg.spacing;
      row := row + 1;
    }
    r := Success(lines);
  }

  /** Builds the calibration program; the result is exactly the reference
      program `Generate(cfg)`, including which error stops it. */
  method GenerateCalibration(cfg: Settings) returns (r: Result<seq<Line>>)
    ensures r == Generate(cfg)
  {
    var start := Start(cfg);
    var schedule := Schedule(cfg.zOffsetMin, cfg.zOffsetMax, cfg.xCount * cfg.yCount);
    if schedule.Failure? {
      return Failure(schedule.error);
    }
    ghost var p := PlanOf(cfg);
    var grid := TraceGrid(cfg, schedule.value, p, start);
    GridOutcome(cfg);
    if grid.Failure? {
      return Failure(grid.error);
    }
    r := Success(Header(cfg) + grid.value + Footer());
  }

  /** The grid fails exactly when `Generate` reports the layer-count
      error. */
  lemma GridOutcome(cfg: Settings)
    requires cfg.xCount * cfg.yCount != 1
    ensures Generate(cfg).Failure? <==>
            PlanOf(cfg).xCount > 0 && PlanOf(cfg).yCount > 0 && cfg.layerHeight == 0.0
    ensures Generate(cfg).Failure? ==> Generate(cfg).error == LayerCountByZero
    ensures Generate(cfg).Success? ==>
            Generate(cfg).value == Header(cfg) + GridLines(PlanOf(cfg), PlanOf(cfg).yCount) + Footer()
  {
    var p := PlanOf(cfg);
    if p.xCount > 0 && p.yCount > 0 {
      MulPositive(p.xCount, p.yCount);
    }
  }

  lemma MulPositive(a: nat, b: nat)
    requires a > 0 && b > 0
    ensures a * b > 0
  {
  }
}
