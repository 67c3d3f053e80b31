/** The generated program as a sequence of abstract G-code lines, and the
    reference definition of what the generator emits for given settings. */
module GCode {
  import opened Config
  import opened Grid
  import opened Offsets
  import opened Extrusion
  import opened Toolpath

  /** Feedrate (mm/min) of every per-layer Z move. */
  const ZFeed: real := 100.0

  /** One output line. Numbers are kept exact; the textual formatting of
      the source (decimal places, float repr) is not modelled. */
  datatype Line =
    | Title                                           // "; Z Offset Calibration G-code"
    | AbsolutePositioning                             // G90
    | AbsoluteExtrusion                               // M82
    | SetHotend(temp: int)                            // M104 S<temp>
    | SetBed(temp: int)                               // M140 S<temp>
    | WaitHotend(temp: int)                           // M109 S<temp>
    | WaitBed(temp: int)                              // M190 S<temp>
    | HomeAll                                         // G28
    | Lift(height: real, feed: real)                  // G1 Z<height> F<feed> ; Lift Z
    | SquareComment(number: int, zOffset: real)       // ; Square <number> with Z offset <zOffset>
    | ZMove(z: real, feed: real)                      // G1 Z<z> F<feed>
    | Travel(x: real, y: real, feed: real)            // G1 X<x> Y<y> F<feed>
    | Extrude(x: real, y: real, e: real, feed: real)  // G1 X<x> Y<y> E<e> F<feed>
    | HotendOff                                       // M104 S0
    | BedOff                                          // M140 S0
    | DisableMotors                                   // M84

  /** Set-up: absolute positioning and extrusion, heat and wait, home, lift. */
  function Header(cfg: Settings): (h: seq<Line>)
    ensures |h| == 9 && h[0] == Title
    ensures forall i :: 0 <= i < |h| ==> !h[i].Extrude? && !h[i].SquareComment?
  {
    [ Title, AbsolutePositioning, AbsoluteExtrusion,
      SetHotend(cfg.nozzleTemp), SetBed(cfg.bedTemp),
      WaitHotend(cfg.nozzleTemp), WaitBed(cfg.bedTemp),
      HomeAll, Lift(5.0, 5000.0) ]
  }

  /** Shut-down: lift clear, heaters off, motors off. */
  function Footer(): (f: seq<Line>)
    ensures |f| == 4 && f[3] == DisableMotors
    ensures forall i :: 0 <= i < |f| ==> !f[i].Extrude? && !f[i].SquareComment?
  {
    [ Lift(20.0, 1000.0), HotendOff, BedOff, DisableMotors ]
  }

  /** Everything the per-square loops need, computed once from the settings. */
  datatype Plan = Plan(
    start: Point,
    pitch: real,
    xCount: nat,
    yCount: nat,
    offsets: seq<real>,
    layers: nat,
    size: real,
    layerHeight: real,
    segmentE: real,
    travelFeed: real,
    printFeed: real)

  /** The number of squares in the rows before `row`, counted row by row;
      it is `row * xCount` (`RowStartProduct`). */
  function RowStart(p: Plan, row: nat): nat {
    if row == 0 then 0 else RowStart(p, row - 1) + p.xCount
  }

  lemma {:induction false} RowStartProduct(p: Plan, row: nat)
    ensures RowStart(p, row) == row * p.xCount
    decreases row
  {
    if row > 0 {
      RowStartProduct(p, row - 1);
      assert (row - 1) * p.xCount + p.xCount == row * p.xCount;
    }
  }

  lemma {:induction false} RowStartMonotone(p: Plan, a: nat, b: nat)
    requires a <= b
    ensures RowStart(p, a) <= RowStart(p, b)
    decreases b
  {
    if a < b {
      RowStartMonotone(p, a, b - 1);
    }
  }

  /** Every square of the grid has an offset. */
  predicate ValidPlan(p: Plan) {
    RowStart(p, p.yCount) <= |p.offsets|
  }

  /** The failure, if any, that stops generation: the offset list is built
      first, and the layer count is first computed inside the first square. */
  function Check(cfg: Settings): (r: Option<Error>)
    ensures r == Some(OffsetStepByZero) <==> cfg.xCount * cfg.yCount == 1
    ensures r == Some(LayerCountByZero) <==>
      cfg.xCount * cfg.yCount != 1 && CellCount(cfg) > 0 && cfg.layerHeight == 0.0
  {
    if cfg.xCount * cfg.yCount == 1 then Some(OffsetStepByZero)
    else if CellCount(cfg) > 0 && cfg.layerHeight == 0.0 then Some(LayerCountByZero)
    else None
  }

  /** Filament fed for one edge of a square: every edge is `|squareSize|` long. */
  function SegmentE(cfg: Settings): real {
    CalculateExtrusion(Abs(cfg.squareSize), cfg.layerHeight, cfg.lineWidth, cfg.extrusionMultiplier)
  }

  /** Layers per square; only meaningful when some square is printed, since
      the source computes it inside the square loop. */
  function Layers(cfg: Settings): nat {
    if cfg.layerHeight == 0.0 then 0 else LayerCount(cfg.squareHeight, cfg.layerHeight)
  }

  /** `p` carries what the source's loops read from the settings: the
      grid's size and pitch, the square's size, the layers and the feeds. */
  predicate Follows(p: Plan, cfg: Settings) {
    && p.xCount == Max0(cfg.xCount) && p.yCount == Max0(cfg.yCount)
    && p.pitch == Pitch(cfg) && p.size == cfg.squareSize
    && p.layerHeight == cfg.layerHeight && p.layers == Layers(cfg)
    && p.segmentE == SegmentE(cfg)
    && p.travelFeed == cfg.travelSpeed * 60.0 && p.printFeed == cfg.printSpeed * 60.0
  }

  /** The plan for settings whose offset list can be built. */
  function PlanOf(cfg: Settings): (p: Plan)
    requires cfg.xCount * cfg.yCount != 1
    ensures ValidPlan(p) && Follows(p, cfg)
    ensures p.start == Start(cfg)
    ensures p.offsets == Schedule(cfg.zOffsetMin, cfg.zOffsetMax, cfg.xCount * cfg.yCount).value
    ensures p.xCount * p.yCount == CellCount(cfg)
  {
    var n := cfg.xCount * cfg.yCount;
    assert Max0(cfg.xCount) * Max0(cfg.yCount) <= Max0(n) by {
      if cfg.xCount > 0 && cfg.yCount > 0 {} else { assert Max0(cfg.xCount) * Max0(cfg.yCount) == 0; }
    }
    var p := Plan(
      Start(cfg),
      Pitch(cfg),
      Max0(cfg.xCount),
      Max0(cfg.yCount),
      Schedule(cfg.zOffsetMin, cfg.zOffsetMax, n).value,
      Layers(cfg),
      cfg.squareSize,
      cfg.layerHeight,
      SegmentE(cfg),
      cfg.travelSpeed * 60.0,
      cfg.printSpeed * 60.0);
    RowStartProduct(p, p.yCount);
    p
  }

  predicate ValidCell(p: Plan, row: nat, col: nat) {
    ValidPlan(p) && row < p.yCount && col < p.xCount
  }

  /** Row-major position of a square, which is also its index into the
      offset list; it always names an existing offset. */
  function CellIndex(p: Plan, row: nat, col: nat): (i: nat)
    requires ValidCell(p, row, col)
    ensures i < RowStart(p, p.yCount) && i < |p.offsets|
  {
    RowStartMonotone(p, row + 1, p.yCount);
    RowStart(p, row) + col
  }

  /** How many extruding segments precede layer `layer` of square number
      `cell` (zero-based, row-major). */
  function SegmentsBefore(p: Plan, cell: nat, layer: nat): nat {
    (cell * p.layers + layer) * 4
  }

  /** The extruder position at the start of layer `layer` of square number
      `cell`: the running total is never reset, so it carries over from the
      last layer of the previous square. */
  function EBefore(p: Plan, cell: nat, layer: nat): (r: real)
    ensures p.segmentE >= 0.0 ==> r >= 0.0
    decreases cell, layer
  {
    if layer > 0 then Fed(EBefore(p, cell, layer - 1), p.segmentE, 4)
    else if cell > 0 then EBefore(p, cell - 1, p.layers)
    else 0.0
  }

  /** One layer at height `z` over the square with corner `corner`: a Z
      move, a travel to the corner, then four extruding moves around the
      square. Each extruding move reports the absolute extruder position,
      which grows by `segmentE` per edge from `e0`. */
  function LayerMoves(corner: Point, size: real, z: real, e0: real, segmentE: real,
                      travelFeed: real, printFeed: real): (ls: seq<Line>)
    ensures |ls| == 6 && ls[0] == ZMove(z, ZFeed)
    ensures ls[1] == Travel(corner.x, corner.y, travelFeed)
    ensures ls[2].Extrude? && ls[3].Extrude? && ls[4].Extrude? && ls[5].Extrude?
    ensures ls[2].feed == ls[3].feed == ls[4].feed == ls[5].feed == printFeed
    ensures ls[5].x == corner.x && ls[5].y == corner.y
    ensures segmentE >= 0.0 ==> e0 <= ls[2].e <= ls[3].e <= ls[4].e <= ls[5].e
  {
    var path := SquarePath(corner, size);
    [ ZMove(z, ZFeed),
      Travel(path[0].x, path[0].y, travelFeed),
      Extrude(path[1].x, path[1].y, Fed(e0, segmentE, 1), printFeed),
      Extrude(path[2].x, path[2].y, Fed(e0, segmentE, 2), printFeed),
      Extrude(path[3].x, path[3].y, Fed(e0, segmentE, 3), printFeed),
      Extrude(path[4].x, path[4].y, Fed(e0, segmentE, 4), printFeed) ]
  }

  /** The extruder position after `count` more segments of `segmentE` each,
      added one at a time as the source's `e_position += extrude` does. */
  function Fed(e0: real, segmentE: real, count: nat): (r: real)
    ensures segmentE >= 0.0 ==> r >= e0
    ensures segmentE <= 0.0 ==> r <= e0
  {
    if count == 0 then e0 else Fed(e0, segmentE, count - 1) + segmentE
  }

  /** A run of equal-sized blocks laid end to end, as each of the source's
      loops lays them: the rows of the grid, the squares of one row, the
      layers of one square. */
  datatype Run = Rows | SquaresOf(row: nat) | LayersOf(row: nat, col: nat)

  /** A piece of the program body: the first `n` blocks of a run, one
      whole square, or one layer of a square. `Moves` is the same layer as
      `Layer`, one unfolding further: positions in the program are worked
      out from `Layer` without ever seeing the moves themselves. */
  datatype Part =
    | Prefix(run: Run, n: nat)
    | Square(row: nat, col: nat)
    | Layer(row: nat, col: nat, k: nat)
    | Moves(row: nat, col: nat, k: nat)

  /** Run `run` of plan `p` has at least `n` blocks. */
  predicate RunFits(p: Plan, run: Run, n: nat) {
    ValidPlan(p) &&
    match run
    case Rows => n <= p.yCount
    case SquaresOf(row) => row < p.yCount && n <= p.xCount
    case LayersOf(row, col) => row < p.yCount && col < p.xCount
  }

  predicate Fits(p: Plan, part: Part) {
    match part
    case Prefix(run, n) => RunFits(p, run, n)
    case Square(row, col) => ValidCell(p, row, col)
    case Layer(row, col, _) => ValidCell(p, row, col)
    case Moves(row, col, _) => ValidCell(p, row, col)
  }

  /** Nesting depth, outermost loop highest. */
  function Depth(run: Run): nat {
    match run
    case Rows => 5
    case SquaresOf(_) => 4
    case LayersOf(_, _) => 2
  }

  function PartDepth(part: Part): nat {
    match part
    case Prefix(run, _) => Depth(run)
    case Square(_, _) => 3
    case Layer(_, _, _) => 1
    case Moves(_, _, _) => 0
  }

  function PartSize(part: Part): nat {
    match part
    case Prefix(_, n) => n
    case Square(_, _) => 0
    case Layer(_, _, _) => 0
    case Moves(_, _, _) => 0
  }

  /** The lines of a piece of the program body. */
  function Body(p: Plan, part: Part): (ls: seq<Line>)
    requires Fits(p, part)
    ensures part.Square? ==> |ls| == 1 + 6 * p.layers
    ensures part.Prefix? && part.run.LayersOf? ==> |ls| == 6 * part.n
    ensures part.Layer? || part.Moves? ==> |ls| == 6
    decreases PartDepth(part), PartSize(part), 1
  {
    match part
    case Layer(row, col, k) => Body(p, Moves(row, col, k))
    case Moves(row, col, k) =>
      // Layer `k` of square (row, col), starting from the filament fed for
      // every earlier segment of the job.
      var cell := CellIndex(p, row, col);
      LayerMoves(CellOrigin(p.start, p.pitch, row, col), p.size,
                 LayerZ(k, p.layerHeight, p.offsets[cell]),
                 EBefore(p, cell, k), p.segmentE,
                 p.travelFeed, p.printFeed)
    case Square(row, col) =>
      var cell := CellIndex(p, row, col);
      [SquareComment(cell + 1, p.offsets[cell])] + Body(p, Prefix(LayersOf(row, col), p.layers))
    case Prefix(run, n) =>
      if n == 0 then [] else Body(p, Prefix(run, n - 1)) + Block(p, run, n - 1)
  }

  /** Block `i` of a run: row `i` of the grid, square `i` of a row, or
      layer `i` of a square. */
  function Block(p: Plan, run: Run, i: nat): (b: seq<Line>)
    requires RunFits(p, run, i + 1)
    ensures run.SquaresOf? ==> |b| == 1 + 6 * p.layers
    ensures run.LayersOf? ==> |b| == 6
    decreases Depth(run), i + 1, 0
  {
    match run
    case Rows => Body(p, Prefix(SquaresOf(i), p.xCount))
    case SquaresOf(row) => Body(p, Square(row, i))
    case LayersOf(row, col) => Body(p, Layer(row, col, i))
  }

  /** Layer `k` of square (row, col). */
  function LayerLines(p: Plan, row: nat, col: nat, k: nat): (ls: seq<Line>)
    requires ValidCell(p, row, col)
    ensures |ls| == 6
  {
    Body(p, Layer(row, col, k))
  }

  /** The first `k` layers of square (row, col). */
  function CellLayers(p: Plan, row: nat, col: nat, k: nat): (ls: seq<Line>)
    requires ValidCell(p, row, col)
    ensures |ls| == 6 * k
  {
    Body(p, Prefix(LayersOf(row, col), k))
  }

  /** Square (row, col): its comment, then all of its layers. */
  function CellLines(p: Plan, row: nat, col: nat): (ls: seq<Line>)
    requires ValidCell(p, row, col)
    ensures |ls| == 1 + 6 * p.layers
  {
    Body(p, Square(row, col))
  }

  /** The first `c` squares of row `row`. */
  function RowLines(p: Plan, row: nat, c: nat): seq<Line>
    requires ValidPlan(p) && row < p.yCount && c <= p.xCount
  {
    Body(p, Prefix(SquaresOf(row), c))
  }

  /** The first `r` rows. */
  function GridLines(p: Plan, r: nat): seq<Line>
    requires ValidPlan(p) && r <= p.yCount
  {
    Body(p, Prefix(Rows, r))
  }

  /** A program with set-up `h` and the squares of plan `p`. */
  function Program(h: seq<Line>, p: Plan): seq<Line>
    requires ValidPlan(p)
  {
    h + GridLines(p, p.yCount) + Footer()
  }

  /** The whole program for the given settings, or the error that stops it. */
  function Generate(cfg: Settings): (r: Result<seq<Line>>)
    ensures r.Failure? <==> Check(cfg).Some?
    ensures r.Failure? ==> Check(cfg) == Some(r.error)
  {
    match Check(cfg)
    case Some(err) => Failure(err)
    case None => Success(Program(Header(cfg), PlanOf(cfg)))
  }

  /** The two ways the generator can stop. The offset list cannot be built
      (its step divides by zero). Or the offsets exist, some square is
      printed, and the layer count divides by a zero layer height. Otherwise
      a program is produced. */
  lemma GenerateErrors(cfg: Settings)
    ensures (Generate(cfg).Failure? && Generate(cfg).error == OffsetStepByZero)
        <==> Schedule(cfg.zOffsetMin, cfg.zOffsetMax, cfg.xCount * cfg.yCount).Failure?
    ensures (Generate(cfg).Failure? && Generate(cfg).error == LayerCountByZero)
        <==> (&& Schedule(cfg.zOffsetMin, cfg.zOffsetMax, cfg.xCount * cfg.yCount).Success?
              && cfg.xCount > 0 && cfg.yCount > 0 && cfg.layerHeight == 0.0)
    ensures Generate(cfg).Success?
        <==> (&& Schedule(cfg.zOffsetMin, cfg.zOffsetMax, cfg.xCount * cfg.yCount).Success?
              && !(cfg.xCount > 0 && cfg.yCount > 0 && cfg.layerHeight == 0.0))
  {
    if cfg.xCount > 0 && cfg.yCount > 0 {
      assert CellCount(cfg) == cfg.xCount * cfg.yCount;
      assert cfg.xCount * cfg.yCount >= 1 * cfg.yCount;
    } else {
      assert Max0(cfg.xCount) == 0 || Max0(cfg.yCount) == 0;
      assert CellCount(cfg) == 0;
    }
  }

  /** A successful program opens with the nine set-up lines and closes with
      the four shut-down lines. */
  lemma ProgramFrame(cfg: Settings)
    requires Generate(cfg).Success?
    ensures |Generate(cfg).value| >= 13
    ensures Generate(cfg).value[..9] == Header(cfg)
    ensures Generate(cfg).value[|Generate(cfg).value| - 4..] == Footer()
  {
    var body := GridLines(PlanOf(cfg), PlanOf(cfg).yCount);
    assert Generate(cfg).value == Header(cfg) + body + Footer();
    assert (Header(cfg) + body + Footer())[..9] == Header(cfg);
    assert (Header(cfg) + body + Footer())[9 + |body|..] == Footer();
  }
}
