/** Where everything sits in the generated program: its length, the line
    of every square's comment and of every move of every layer, and the
    extruder position each extruding move reports. */
module Layout {
  import opened Config
  import opened Grid
  import opened Offsets
  import opened Extrusion
  import opened Toolpath
  import opened GCode
  import opened Blocks

  /** Lines per square: one comment plus six lines per layer. */
  function Width(p: Plan): nat {
    1 + 6 * p.layers
  }

  // ---------------------------------------------------------------------
  // Integer arithmetic the solver needs spelled out

  lemma MulSucc(a: int, w: int)
    ensures a * w + w == (a + 1) * w
  {
  }

  lemma MulAssoc(a: int, b: int, c: int)
    ensures a * (b * c) == (b * a) * c
  {
  }

  // ---------------------------------------------------------------------
  // Running extruder position

  lemma {:induction false} FedAdds(e0: real, s: real, a: nat, b: nat)
    ensures Fed(Fed(e0, s, a), s, b) == Fed(e0, s, a + b)
    decreases b
  {
    if b > 0 {
      FedAdds(e0, s, a, b - 1);
    }
  }

  /** Adding `s` one segment at a time `n` times adds `n * s`. */
  lemma {:induction false} FedClosedForm(e0: real, s: real, n: nat)
    ensures Fed(e0, s, n) == e0 + n as real * s
    decreases n
  {
    if n > 0 {
      FedClosedForm(e0, s, n - 1);
    }
  }

  /** The extruder position at the start of a layer is the filament of all
      earlier segments of the job: the running total is never reset. */
  lemma {:induction false} EBeforeCounts(p: Plan, cell: nat, layer: nat)
    ensures EBefore(p, cell, layer) == Fed(0.0, p.segmentE, SegmentsBefore(p, cell, layer))
    decreases cell, layer
  {
    if layer > 0 {
      EBeforeCounts(p, cell, layer - 1);
      FedAdds(0.0, p.segmentE, SegmentsBefore(p, cell, layer - 1), 4);
    } else if cell > 0 {
      EBeforeCounts(p, cell - 1, p.layers);
      MulSucc(cell - 1, p.layers);
    }
  }

  // ---------------------------------------------------------------------
  // Runs of blocks

  /** `n` blocks of `w` lines each make `n * w` lines. */
  lemma {:induction false} PrefixLength(p: Plan, run: Run, n: nat, w: nat)
    requires RunFits(p, run, n)
    requires forall i :: 0 <= i < n ==> |Block(p, run, i)| == w
    ensures |Body(p, Prefix(run, n))| == n * w
    decreases n
  {
    if n > 0 {
      PrefixLength(p, run, n - 1, w);
      MulSucc(n - 1, w);
    }
  }

  /** Block `i` of run `run`, and nothing past the run's end. */
  function BlockOr(p: Plan, run: Run, i: nat): seq<Line> {
    if RunFits(p, run, i + 1) then Block(p, run, i) else []
  }

  /** The blocks of run `run`, as a function of their number. */
  function RunBlocks(p: Plan, run: Run): nat -> seq<Line> {
    (i: nat) => BlockOr(p, run, i)
  }

  lemma RunBlocksAt(p: Plan, run: Run, n: nat, i: nat)
    requires RunFits(p, run, n) && i < n
    ensures RunBlocks(p, run)(i) == Block(p, run, i)
  {
    assert RunFits(p, run, i + 1);
  }

  /** The first `n` blocks of a run are `Concat` of its blocks. */
  lemma {:induction false} PrefixConcat(p: Plan, run: Run, n: nat)
    requires RunFits(p, run, n)
    ensures Body(p, Prefix(run, n)) == Concat(RunBlocks(p, run), n)
    decreases n
  {
    if n > 0 {
      PrefixConcat(p, run, n - 1);
      RunBlocksAt(p, run, n, n - 1);
      PrefixStep(p, run, n);
      assert Concat(RunBlocks(p, run), n) == Concat(RunBlocks(p, run), n - 1) + RunBlocks(p, run)(n - 1);
    }
  }

  /** One more block of a run is laid after the ones before it. */
  lemma PrefixStep(p: Plan, run: Run, n: nat)
    requires RunFits(p, run, n) && n > 0
    ensures Body(p, Prefix(run, n)) == Body(p, Prefix(run, n - 1)) + Block(p, run, n - 1)
  {
  }

  /** Moves an indexing fact across equal sequences. */
  lemma SameAt<T>(a: seq<T>, b: seq<T>, c: seq<T>, d: seq<T>, x: T, t: nat)
    requires a == b && c == d && |d| + t < |b| && b[|d| + t] == x
    ensures |c| + t < |a| && a[|c| + t] == x
  {
  }

  // ---------------------------------------------------------------------
  // Sizes

  lemma RowLinesLength(p: Plan, row: nat, c: nat)
    requires ValidPlan(p) && row < p.yCount && c <= p.xCount
    ensures |RowLines(p, row, c)| == c * Width(p)
  {
    PrefixLength(p, SquaresOf(row), c, Width(p));
  }

  lemma GridLinesLength(p: Plan, r: nat)
    requires ValidPlan(p) && r <= p.yCount
    ensures |GridLines(p, r)| == r * (p.xCount * Width(p))
  {
    forall row | 0 <= row < r
      ensures |Block(p, Rows, row)| == p.xCount * Width(p)
    {
      RowLinesLength(p, row, p.xCount);
    }
    PrefixLength(p, Rows, r, p.xCount * Width(p));
  }

  /** The program is 9 set-up lines, one comment and six lines per layer for
      every square, and 4 shut-down lines. */
  lemma ProgramLength(cfg: Settings)
    requires Generate(cfg).Success?
    ensures |Generate(cfg).value| == 9 + CellCount(cfg) * (1 + 6 * Layers(cfg)) + 4
  {
    var p := PlanOf(cfg);
    assert Generate(cfg).value == Program(Header(cfg), p);
    GridLinesLength(p, p.yCount);
    MulAssoc(p.yCount, p.xCount, Width(p));
  }

  /** Each loop of the source appends one more block: a layer to its
      square, a square to its row, a row to the grid. */
  lemma CellLayersStep(p: Plan, row: nat, col: nat, k: nat)
    requires ValidCell(p, row, col)
    ensures CellLayers(p, row, col, k + 1) == CellLayers(p, row, col, k) + LayerLines(p, row, col, k)
  {
    assert Block(p, LayersOf(row, col), k) == LayerLines(p, row, col, k);
  }

  lemma RowLinesStep(p: Plan, row: nat, c: nat)
    requires ValidPlan(p) && row < p.yCount && c < p.xCount
    ensures RowLines(p, row, c + 1) == RowLines(p, row, c) + CellLines(p, row, c)
  {
    assert Block(p, SquaresOf(row), c) == CellLines(p, row, c);
  }

  lemma GridLinesStep(p: Plan, r: nat)
    requires ValidPlan(p) && r < p.yCount
    ensures GridLines(p, r + 1) == GridLines(p, r) + RowLines(p, r, p.xCount)
  {
    assert Block(p, Rows, r) == RowLines(p, r, p.xCount);
  }

  // ---------------------------------------------------------------------
  // Positions (row-major order)

  /** Line `t` of layer `i` is line `6 * i + t` of the square's layers. */
  lemma CellLayersAt(p: Plan, row: nat, col: nat, k: nat, i: nat, t: nat)
    requires ValidCell(p, row, col) && i < k && t < 6
    ensures 6 * i + t < |CellLayers(p, row, col, k)|
    ensures CellLayers(p, row, col, k)[6 * i + t] == LayerLines(p, row, col, i)[t]
  {
    var run := LayersOf(row, col);
    LayerBlock(p, row, col, i);
    PrefixConcat(p, run, k);
    PrefixConcat(p, run, i);
    RunBlocksAt(p, run, k, i);
    ConcatAtBlock(RunBlocks(p, run), k, i, LayerLines(p, row, col, i), t);
    SameAt(CellLayers(p, row, col, k), Concat(RunBlocks(p, run), k),
           CellLayers(p, row, col, i), Concat(RunBlocks(p, run), i), LayerLines(p, row, col, i)[t], t);
  }

  lemma LayerBlock(p: Plan, row: nat, col: nat, i: nat)
    requires ValidCell(p, row, col)
    ensures Block(p, LayersOf(row, col), i) == LayerLines(p, row, col, i)
  {
  }

  /** Line `t` of layer `k` is line `u == 1 + 6 * k + t` of the square's
      own lines. */
  lemma CellLayerLine(p: Plan, row: nat, col: nat, k: nat, t: nat, u: nat)
    requires ValidCell(p, row, col) && k < p.layers && t < 6 && u == 1 + 6 * k + t
    ensures u < |CellLines(p, row, col)|
    ensures CellLines(p, row, col)[u] == LayerLines(p, row, col, k)[t]
  {
    var cl := CellLines(p, row, col);
    var layers := CellLayers(p, row, col, p.layers);
    assert cl == [cl[0]] + layers;
    CellLayersAt(p, row, col, p.layers, k, t);
  }

  /** Line `t` of square (row, col) within its row. */
  lemma CellInRow(p: Plan, row: nat, col: nat, t: nat)
    requires ValidCell(p, row, col) && t < Width(p)
    ensures |RowLines(p, row, col)| + t < |RowLines(p, row, p.xCount)|
    ensures RowLines(p, row, p.xCount)[|RowLines(p, row, col)| + t] == CellLines(p, row, col)[t]
  {
    PrefixConcat(p, SquaresOf(row), p.xCount);
    PrefixConcat(p, SquaresOf(row), col);
    RunBlocksAt(p, SquaresOf(row), p.xCount, col);
    ConcatAtBlock(RunBlocks(p, SquaresOf(row)), p.xCount, col, Block(p, SquaresOf(row), col), t);
    SameAt(Body(p, Prefix(SquaresOf(row), p.xCount)), Concat(RunBlocks(p, SquaresOf(row)), p.xCount),
           Body(p, Prefix(SquaresOf(row), col)), Concat(RunBlocks(p, SquaresOf(row)), col), Block(p, SquaresOf(row), col)[t], t);
  }

  /** Line `i` of row `row` within the whole grid. */
  lemma RowInGrid(p: Plan, row: nat, i: nat)
    requires ValidPlan(p) && row < p.yCount && i < |RowLines(p, row, p.xCount)|
    ensures |GridLines(p, row)| + i < |GridLines(p, p.yCount)|
    ensures GridLines(p, p.yCount)[|GridLines(p, row)| + i] == RowLines(p, row, p.xCount)[i]
  {
    PrefixConcat(p, Rows, p.yCount);
    PrefixConcat(p, Rows, row);
    RunBlocksAt(p, Rows, p.yCount, row);
    ConcatAtBlock(RunBlocks(p, Rows), p.yCount, row, Block(p, Rows, row), i);
    SameAt(Body(p, Prefix(Rows, p.yCount)), Concat(RunBlocks(p, Rows), p.yCount),
           Body(p, Prefix(Rows, row)), Concat(RunBlocks(p, Rows), row), Block(p, Rows, row)[i], i);
  }

  /** Square (row, col)'s lines follow all earlier rows and all earlier
      squares of its own row. */
  lemma CellInGrid(p: Plan, row: nat, col: nat, t: nat)
    requires ValidCell(p, row, col) && t < Width(p)
    ensures |GridLines(p, row)| + |RowLines(p, row, col)| + t < |GridLines(p, p.yCount)|
    ensures GridLines(p, p.yCount)[|GridLines(p, row)| + |RowLines(p, row, col)| + t] == CellLines(p, row, col)[t]
  {
    var i := |RowLines(p, row, col)| + t;
    CellInRow(p, row, col, t);
    RowInGrid(p, row, i);
    assert GridLines(p, p.yCount)[|GridLines(p, row)| + i] == RowLines(p, row, p.xCount)[i];
  }

  /** The program line holding line `t` of the square numbered `c`: nine
      set-up lines, then `1 + 6 * layers` lines per earlier square. */
  function LineOf(layers: nat, c: nat, t: nat): nat {
    if c == 0 then 9 + t else LineOf(layers, c - 1, t) + (1 + 6 * layers)
  }

  /** Square `c` starts after the nine set-up lines and `c` whole squares. */
  lemma {:induction false} LineOfClosedForm(layers: nat, c: nat, t: nat)
    ensures LineOf(layers, c, t) == 9 + c * (1 + 6 * layers) + t
    decreases c
  {
    if c > 0 {
      LineOfClosedForm(layers, c - 1, t);
      MulSucc(c - 1, 1 + 6 * layers);
    }
  }

  /** Counting the lines before square (row, col) row by row and square by
      square gives `LineOf`. */
  lemma LineOfSum(layers: nat, x: nat, row: nat, col: nat, c: nat, t: nat, w: nat, before: nat, within: nat)
    requires c == row * x + col
    requires w == 1 + 6 * layers && before == row * (x * w) && within == col * w
    ensures LineOf(layers, c, t) == 9 + (before + within + t)
  {
    LineOfClosedForm(layers, c, t);
    assert (row * x + col) * w == row * (x * w) + col * w;
  }

  lemma MiddleAt<T>(a: seq<T>, b: seq<T>, d: seq<T>, i: nat)
    requires i < |b|
    ensures |a| + i < |a + b + d| && (a + b + d)[|a| + i] == b[i]
  {
  }

  /** Line `i` of the grid is line `n == |h| + i` of the program. */
  lemma ProgramGridAt(h: seq<Line>, p: Plan, i: nat, n: nat)
    requires |h| == 9 && ValidPlan(p) && i < |GridLines(p, p.yCount)| && n == 9 + i
    ensures n < |Program(h, p)|
    ensures Program(h, p)[n] == GridLines(p, p.yCount)[i]
  {
    MiddleAt(h, GridLines(p, p.yCount), Footer(), i);
  }

  /** `LineOf` counts the set-up lines, the earlier rows and the earlier
      squares of the same row. */
  lemma CellLineNumber(p: Plan, row: nat, col: nat, t: nat)
    requires ValidCell(p, row, col)
    ensures LineOf(p.layers, CellIndex(p, row, col), t)
         == 9 + (|GridLines(p, row)| + |RowLines(p, row, col)| + t)
  {
    GridLinesLength(p, row);
    RowLinesLength(p, row, col);
    RowStartProduct(p, row);
    LineOfSum(p.layers, p.xCount, row, col, CellIndex(p, row, col), t, Width(p),
              |GridLines(p, row)|, |RowLines(p, row, col)|);
  }

  /** After nine set-up lines, line `t` of square (row, col) is line
      `LineOf(layers, c, t)`, `c` being the square's row-major index. */
  lemma ProgramCellLine(h: seq<Line>, p: Plan, row: nat, col: nat, t: nat)
    requires |h| == 9 && ValidCell(p, row, col) && t < Width(p)
    ensures LineOf(p.layers, CellIndex(p, row, col), t) < |Program(h, p)|
    ensures Program(h, p)[LineOf(p.layers, CellIndex(p, row, col), t)] == CellLines(p, row, col)[t]
  {
    var n := LineOf(p.layers, CellIndex(p, row, col), t);
    var i := |GridLines(p, row)| + |RowLines(p, row, col)| + t;
    assert n == 9 + i by {
      CellLineNumber(p, row, col, t);
    }
    assert i < |GridLines(p, p.yCount)| && GridLines(p, p.yCount)[i] == CellLines(p, row, col)[t] by {
      CellInGrid(p, row, col, t);
    }
    ProgramGridAt(h, p, i, n);
  }

  /** Layer `k` of square (row, col) is the square's path traced at the
      layer's height, continuing from the filament fed for every earlier
      segment of the job. */
  lemma LayerContent(p: Plan, row: nat, col: nat, k: nat)
    requires ValidCell(p, row, col)
    ensures
      var cell := CellIndex(p, row, col);
      LayerLines(p, row, col, k)
      == LayerMoves(CellOrigin(p.start, p.pitch, row, col), p.size,
                    LayerZ(k, p.layerHeight, p.offsets[cell]),
                    EBefore(p, cell, k), p.segmentE, p.travelFeed, p.printFeed)
  {
    assert Body(p, Layer(row, col, k)) == Body(p, Moves(row, col, k));
  }

  /** A layer opens with the Z move to its height ... */
  lemma LayerLinesZ(p: Plan, row: nat, col: nat, k: nat)
    requires ValidCell(p, row, col)
    ensures LayerLines(p, row, col, k)[0]
         == ZMove(LayerZ(k, p.layerHeight, p.offsets[CellIndex(p, row, col)]), ZFeed)
  {
    LayerContent(p, row, col, k);
  }

  /** ... and travels to the square's corner. */
  lemma LayerLinesTravel(p: Plan, row: nat, col: nat, k: nat)
    requires ValidCell(p, row, col)
    ensures
      var corner := CellOrigin(p.start, p.pitch, row, col);
      LayerLines(p, row, col, k)[1] == Travel(corner.x, corner.y, p.travelFeed)
  {
    LayerContent(p, row, col, k);
  }

  /** Move `2 + j` of a layer is the extruding move to corner `j + 1`. */
  lemma LayerMovesExtrude(corner: Point, size: real, z: real, e0: real, segmentE: real,
                          travelFeed: real, printFeed: real, j: nat)
    requires j < 4
    ensures LayerMoves(corner, size, z, e0, segmentE, travelFeed, printFeed)[2 + j]
         == Extrude(SquarePath(corner, size)[j + 1].x, SquarePath(corner, size)[j + 1].y,
                    Fed(e0, segmentE, j + 1), printFeed)
  {
  }

  /** The `j`-th extruding move of layer `k` of square `c` reports the
      filament of `(c * layers + k) * 4 + j + 1` edges. */
  lemma ExtruderAfter(p: Plan, c: nat, k: nat, j: nat, n: nat)
    requires n == (c * p.layers + k) * 4 + j + 1
    ensures Fed(EBefore(p, c, k), p.segmentE, j + 1) == n as real * p.segmentE
  {
    EBeforeCounts(p, c, k);
    FedAfter(EBefore(p, c, k), p.segmentE, SegmentsBefore(p, c, k), j + 1, n);
  }

  /** Feeding `b` more edges after the first `a` gives the filament of
      `a + b` edges. */
  lemma FedAfter(e: real, s: real, a: nat, b: nat, n: nat)
    requires e == Fed(0.0, s, a) && n == a + b
    ensures Fed(e, s, b) == n as real * s
  {
    FedAdds(0.0, s, a, b);
    FedClosedForm(0.0, s, n);
  }

  /** Move `2 + j` of layer `k` of square (row, col): the extruding move to
      corner `j + 1`, reporting the filament of every edge so far. */
  lemma LayerLinesExtrude(p: Plan, row: nat, col: nat, k: nat, j: nat, n: nat)
    requires ValidCell(p, row, col) && j < 4
    requires n == (CellIndex(p, row, col) * p.layers + k) * 4 + j + 1
    ensures
      var corner := CellOrigin(p.start, p.pitch, row, col);
      LayerLines(p, row, col, k)[2 + j]
      == Extrude(SquarePath(corner, p.size)[j + 1].x, SquarePath(corner, p.size)[j + 1].y,
                 n as real * p.segmentE, p.printFeed)
  {
    var c := CellIndex(p, row, col);
    var corner := CellOrigin(p.start, p.pitch, row, col);
    var e := Fed(EBefore(p, c, k), p.segmentE, j + 1);
    assert LayerLines(p, row, col, k)[2 + j]
        == Extrude(SquarePath(corner, p.size)[j + 1].x, SquarePath(corner, p.size)[j + 1].y, e, p.printFeed) by {
      LayerContent(p, row, col, k);
      LayerMovesExtrude(corner, p.size, LayerZ(k, p.layerHeight, p.offsets[c]), EBefore(p, c, k), p.segmentE,
                        p.travelFeed, p.printFeed, j);
    }
    assert e == n as real * p.segmentE by {
      ExtruderAfter(p, c, k, j, n);
    }
  }

  // ---------------------------------------------------------------------
  // The program for given settings

  /** The row-major number of square (row, col), counting from zero; it is
      also the square's index into the offset schedule. */
  function SquareNumber(cfg: Settings, row: nat, col: nat): nat
    requires col < cfg.xCount
  {
    row * cfg.xCount + col
  }

  /** A successful program is the set-up, every row of squares, and the
      shut-down. */
  lemma ProgramParts(cfg: Settings)
    requires Generate(cfg).Success?
    ensures cfg.xCount * cfg.yCount != 1
    ensures Generate(cfg).value == Program(Header(cfg), PlanOf(cfg))
  {
  }

  /** The row-major square number is the plan's index of the square. */
  lemma SquareNumberIndex(cfg: Settings, row: nat, col: nat)
    requires cfg.xCount * cfg.yCount != 1
    requires row < cfg.yCount && col < cfg.xCount
    ensures ValidCell(PlanOf(cfg), row, col)
    ensures SquareNumber(cfg, row, col) == CellIndex(PlanOf(cfg), row, col)
  {
    RowStartProduct(PlanOf(cfg), row);
  }

  /** Line `t` of square (row, col) is line `LineOf(layers, c, t)` of the
      program, `c` being the square's row-major number. Here and below, a
      grid holding square (row, col) is printed exactly when
      `xCount * yCount != 1 && layerHeight != 0.0` (`GenerateErrors`). */
  lemma ProgramCellAt(cfg: Settings, row: nat, col: nat, t: nat)
    requires cfg.xCount * cfg.yCount != 1 && cfg.layerHeight != 0.0
    requires row < cfg.yCount && col < cfg.xCount && t < 1 + 6 * Layers(cfg)
    ensures LineOf(Layers(cfg), SquareNumber(cfg, row, col), t) < |Generate(cfg).value|
    ensures Generate(cfg).value[LineOf(Layers(cfg), SquareNumber(cfg, row, col), t)]
         == CellLines(PlanOf(cfg), row, col)[t]
  {
    ProgramParts(cfg);
    SquareNumberIndex(cfg, row, col);
    ProgramCellLine(Header(cfg), PlanOf(cfg), row, col, t);
  }

  /** Square (row, col), numbered `c` in row-major order, is announced by a
      comment naming square `c + 1` and offset `c` of the schedule, at line
      `9 + c * (1 + 6 * layers)` of the program. */
  lemma ProgramSquareComment(cfg: Settings, row: nat, col: nat)
    requires cfg.xCount * cfg.yCount != 1 && cfg.layerHeight != 0.0
    requires row < cfg.yCount && col < cfg.xCount
    ensures
      var c := SquareNumber(cfg, row, col);
      var v := Generate(cfg).value;
      && LineOf(Layers(cfg), c, 0) < |v|
      && c < |Schedule(cfg.zOffsetMin, cfg.zOffsetMax, cfg.xCount * cfg.yCount).value|
      && v[LineOf(Layers(cfg), c, 0)]
         == SquareComment(c + 1, Schedule(cfg.zOffsetMin, cfg.zOffsetMax, cfg.xCount * cfg.yCount).value[c])
  {
    ProgramCellAt(cfg, row, col, 0);
    SquareNumberIndex(cfg, row, col);
  }

  /** Layer `k` of square (row, col), numbered `c`, starts with a Z move
      to `(k + 1) * layerHeight` above the square's offset. */
  lemma ProgramLayerZ(cfg: Settings, row: nat, col: nat, k: nat)
    requires cfg.xCount * cfg.yCount != 1 && cfg.layerHeight != 0.0
    requires row < cfg.yCount && col < cfg.xCount && k < Layers(cfg)
    ensures
      var c := SquareNumber(cfg, row, col);
      var offsets := Schedule(cfg.zOffsetMin, cfg.zOffsetMax, cfg.xCount * cfg.yCount).value;
      var v := Generate(cfg).value;
      && LineOf(Layers(cfg), c, 1 + 6 * k) < |v|
      && c < |offsets|
      && v[LineOf(Layers(cfg), c, 1 + 6 * k)] == ZMove(LayerZ(k, cfg.layerHeight, offsets[c]), ZFeed)
  {
    ProgramLayerAt(cfg, row, col, k, 0, 1 + 6 * k);
    PlanLayerZ(cfg, row, col, k);
  }

  /** The Z move of each layer is followed by a travel to the square's
      corner. */
  lemma ProgramLayerTravel(cfg: Settings, row: nat, col: nat, k: nat)
    requires cfg.xCount * cfg.yCount != 1 && cfg.layerHeight != 0.0
    requires row < cfg.yCount && col < cfg.xCount && k < Layers(cfg)
    ensures
      var corner := CellOrigin(Start(cfg), Pitch(cfg), row, col);
      var v := Generate(cfg).value;
      && LineOf(Layers(cfg), SquareNumber(cfg, row, col), 2 + 6 * k) < |v|
      && v[LineOf(Layers(cfg), SquareNumber(cfg, row, col), 2 + 6 * k)]
         == Travel(corner.x, corner.y, cfg.travelSpeed * 60.0)
  {
    ProgramLayerAt(cfg, row, col, k, 1, 2 + 6 * k);
    PlanLayerTravel(cfg, row, col, k);
  }

  /** `LayerLinesZ` for the plan of the given settings. */
  lemma PlanLayerZ(cfg: Settings, row: nat, col: nat, k: nat)
    requires cfg.xCount * cfg.yCount != 1 && cfg.layerHeight != 0.0 && row < cfg.yCount && col < cfg.xCount
    ensures
      var c := SquareNumber(cfg, row, col);
      var offsets := Schedule(cfg.zOffsetMin, cfg.zOffsetMax, cfg.xCount * cfg.yCount).value;
      && ValidCell(PlanOf(cfg), row, col)
      && c < |offsets|
      && LayerLines(PlanOf(cfg), row, col, k)[0] == ZMove(LayerZ(k, cfg.layerHeight, offsets[c]), ZFeed)
  {
    ProgramParts(cfg);
    SquareNumberIndex(cfg, row, col);
    LayerLinesZ(PlanOf(cfg), row, col, k);
  }

  /** `LayerLinesTravel` for the plan of the given settings. */
  lemma PlanLayerTravel(cfg: Settings, row: nat, col: nat, k: nat)
    requires cfg.xCount * cfg.yCount != 1 && cfg.layerHeight != 0.0 && row < cfg.yCount && col < cfg.xCount
    ensures
      var corner := CellOrigin(Start(cfg), Pitch(cfg), row, col);
      && ValidCell(PlanOf(cfg), row, col)
      && LayerLines(PlanOf(cfg), row, col, k)[1] == Travel(corner.x, corner.y, cfg.travelSpeed * 60.0)
  {
    ProgramParts(cfg);
    SquareNumberIndex(cfg, row, col);
    LayerLinesTravel(PlanOf(cfg), row, col, k);
  }

  /** Line `t` of layer `k` of square (row, col) is line `u == 1 + 6 * k + t`
      of the square in the program. */
  lemma ProgramLayerAt(cfg: Settings, row: nat, col: nat, k: nat, t: nat, u: nat)
    requires cfg.xCount * cfg.yCount != 1 && cfg.layerHeight != 0.0
    requires row < cfg.yCount && col < cfg.xCount && k < Layers(cfg) && t < 6 && u == 1 + 6 * k + t
    ensures LineOf(Layers(cfg), SquareNumber(cfg, row, col), u) < |Generate(cfg).value|
    ensures Generate(cfg).value[LineOf(Layers(cfg), SquareNumber(cfg, row, col), u)]
         == LayerLines(PlanOf(cfg), row, col, k)[t]
  {
    ProgramCellAt(cfg, row, col, u);
    CellLayerLine(PlanOf(cfg), row, col, k, t, u);
  }
}
