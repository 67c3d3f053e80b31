/** The extruder positions the program reports, read in program order.
    The source keeps one running total `e` for the whole job and writes it
    after every extruding move, so the positions count edges: the `m`-th
    extruding move (from zero) reports the filament of `m + 1` edges. */
module ExtruderLog {
  import opened Config
  import opened Grid
  import opened Extrusion
  import opened Toolpath
  import opened GCode
  import opened Layout

  /** The `E` value of every extruding move, in program order. */
  function ExtruderPositions(ls: seq<Line>): seq<real> {
    if |ls| == 0 then []
    else ExtruderPositions(ls[..|ls| - 1])
         + (if ls[|ls| - 1].Extrude? then [ls[|ls| - 1].e] else [])
  }

  lemma {:induction false} ExtruderPositionsConcat(a: seq<Line>, b: seq<Line>)
    ensures ExtruderPositions(a + b) == ExtruderPositions(a) + ExtruderPositions(b)
    decreases |b|
  {
    if |b| > 0 {
      var b' := b[..|b| - 1];
      assert (a + b)[..|a + b| - 1] == a + b';
      ExtruderPositionsConcat(a, b');
    } else {
      assert a + b == a;
    }
  }

  /** Lines without an extruding move report nothing. */
  lemma {:induction false} NoExtrusion(ls: seq<Line>)
    requires forall i :: 0 <= i < |ls| ==> !ls[i].Extrude?
    ensures ExtruderPositions(ls) == []
    decreases |ls|
  {
    if |ls| > 0 {
      NoExtrusion(ls[..|ls| - 1]);
    }
  }

  /** The positions after edges `from + 1` to `from + count` of the job:
      the running total of the filament fed, each edge feeding `s`. */
  function Ramp(s: real, from: nat, count: nat): (r: seq<real>)
    ensures |r| == count
  {
    seq(count, m requires 0 <= m < count => Fed(0.0, s, from + m + 1))
  }

  /** Edges `from + 1 .. from + n` followed by the next `m` edges are
      edges `from + 1 .. from + n + m`. */
  lemma RampConcat(s: real, from: nat, n: nat, mid: nat, m: nat, total: nat)
    requires mid == from + n && total == n + m
    ensures Ramp(s, from, n) + Ramp(s, mid, m) == Ramp(s, from, total)
  {
    var a := Ramp(s, from, n) + Ramp(s, mid, m);
    forall i | 0 <= i < total
      ensures a[i] == Ramp(s, from, total)[i]
    {
      if i >= n {
        assert a[i] == Ramp(s, mid, m)[i - n];
      }
    }
  }

  /** Appending a block whose positions continue a ramp extends the
      ramp. */
  lemma PositionsStep(whole: seq<Line>, a: seq<Line>, b: seq<Line>, s: real,
                      from: nat, n: nat, mid: nat, m: nat, total: nat)
    requires whole == a + b
    requires ExtruderPositions(a) == Ramp(s, from, n) && ExtruderPositions(b) == Ramp(s, mid, m)
    requires mid == from + n && total == n + m
    ensures ExtruderPositions(whole) == Ramp(s, from, total)
  {
    ExtruderPositionsConcat(a, b);
    RampConcat(s, from, n, mid, m, total);
  }

  /** Position `m` of a ramp from edge `from` is the running total after
      `e == from + m + 1` edges. */
  lemma RampAt(s: real, from: nat, n: nat, m: nat, e: nat)
    requires m < n && e == from + m + 1
    ensures Ramp(s, from, n)[m] == Fed(0.0, s, e)
  {
  }

  /** Feeding a non-negative amount per edge never lowers the running
      total. */
  lemma {:induction false} FedMonotone(e0: real, s: real, a: nat, b: nat)
    requires s >= 0.0 && a <= b
    ensures Fed(e0, s, a) <= Fed(e0, s, b)
    decreases b
  {
    if a < b {
      FedMonotone(e0, s, a, b - 1);
    }
  }

  /** Along a ramp of non-negative steps the positions never decrease. */
  lemma RampMonotone(s: real, from: nat, n: nat, i: nat, j: nat)
    requires s >= 0.0 && i <= j < n
    ensures Ramp(s, from, n)[i] <= Ramp(s, from, n)[j]
  {
    FedMonotone(0.0, s, from + i + 1, from + j + 1);
  }

  /** The first `n` lines report what the first `n - 1` do, then line
      `n - 1`'s `E` value if it extrudes. */
  lemma PositionsSnoc(ls: seq<Line>, n: nat)
    requires 0 < n <= |ls|
    ensures ExtruderPositions(ls[..n])
         == ExtruderPositions(ls[..n - 1]) + (if ls[n - 1].Extrude? then [ls[n - 1].e] else [])
  {
    assert ls[..n][..n - 1] == ls[..n - 1];
  }

  /** A Z move and a travel, which report nothing, then four extruding
      moves. */
  lemma SixPositions(ls: seq<Line>)
    requires |ls| == 6 && !ls[0].Extrude? && !ls[1].Extrude?
    requires ls[2].Extrude? && ls[3].Extrude? && ls[4].Extrude? && ls[5].Extrude?
    ensures ExtruderPositions(ls) == [ls[2].e, ls[3].e, ls[4].e, ls[5].e]
  {
    assert ls[..0] == [];
    PositionsSnoc(ls, 1);
    PositionsSnoc(ls, 2);
    PositionsSnoc(ls, 3);
    PositionsSnoc(ls, 4);
    PositionsSnoc(ls, 5);
    PositionsSnoc(ls, 6);
    assert ls[..6] == ls;
  }

  /** Four edges from edge `from`, in closed form. */
  lemma RampFour(s: real, from: nat)
    ensures Ramp(s, from, 4) == [(from + 1) as real * s, (from + 2) as real * s,
                                 (from + 3) as real * s, (from + 4) as real * s]
  {
    var r := Ramp(s, from, 4);
    RampAt(s, from, 4, 0, from + 1);
    RampAt(s, from, 4, 1, from + 2);
    RampAt(s, from, 4, 2, from + 3);
    RampAt(s, from, 4, 3, from + 4);
    FedClosedForm(0.0, s, from + 1);
    FedClosedForm(0.0, s, from + 2);
    FedClosedForm(0.0, s, from + 3);
    FedClosedForm(0.0, s, from + 4);
    assert r[0] == (from + 1) as real * s;
    assert r[1] == (from + 2) as real * s;
    assert r[2] == (from + 3) as real * s;
    assert r[3] == (from + 4) as real * s;
    assert r == [r[0], r[1], r[2], r[3]];
  }

  /** A layer's shape: a Z move and a travel, then four extruding moves
      reporting edges `from + 1` to `from + 4`. */
  lemma LayerShapePositions(ls: seq<Line>, s: real, from: nat)
    requires |ls| == 6 && !ls[0].Extrude? && !ls[1].Extrude?
    requires ls[2].Extrude? && ls[2].e == (from + 1) as real * s
    requires ls[3].Extrude? && ls[3].e == (from + 2) as real * s
    requires ls[4].Extrude? && ls[4].e == (from + 3) as real * s
    requires ls[5].Extrude? && ls[5].e == (from + 4) as real * s
    ensures ExtruderPositions(ls) == Ramp(s, from, 4)
  {
    SixPositions(ls);
    RampFour(s, from);
  }

  /** A layer reports four positions, one per edge, continuing from the
      edges of every earlier layer of the job. */
  lemma LayerPositions(p: Plan, row: nat, col: nat, k: nat)
    requires ValidCell(p, row, col)
    ensures ExtruderPositions(LayerLines(p, row, col, k))
         == Ramp(p.segmentE, SegmentsBefore(p, CellIndex(p, row, col), k), 4)
  {
    LayerLinesZ(p, row, col, k);
    LayerLinesTravel(p, row, col, k);
    LayerLinesExtrude(p, row, col, k, 0, SegmentsBefore(p, CellIndex(p, row, col), k) + 1);
    LayerLinesExtrude(p, row, col, k, 1, SegmentsBefore(p, CellIndex(p, row, col), k) + 2);
    LayerLinesExtrude(p, row, col, k, 2, SegmentsBefore(p, CellIndex(p, row, col), k) + 3);
    LayerLinesExtrude(p, row, col, k, 3, SegmentsBefore(p, CellIndex(p, row, col), k) + 4);
    LayerShapePositions(LayerLines(p, row, col, k), p.segmentE, SegmentsBefore(p, CellIndex(p, row, col), k));
  }

  /** The first `k` layers of a square report `4 * k` positions, starting
      after the edges of every earlier square. */
  lemma {:induction false} CellLayersPositions(p: Plan, row: nat, col: nat, k: nat)
    requires ValidCell(p, row, col)
    ensures ExtruderPositions(CellLayers(p, row, col, k))
         == Ramp(p.segmentE, SegmentsBefore(p, CellIndex(p, row, col), 0), 4 * k)
    decreases k
  {
    var cell := CellIndex(p, row, col);
    if k > 0 {
      CellLayersStep(p, row, col, k - 1);
      CellLayersPositions(p, row, col, k - 1);
      LayerPositions(p, row, col, k - 1);
      PositionsStep(CellLayers(p, row, col, k), CellLayers(p, row, col, k - 1), LayerLines(p, row, col, k - 1),
                    p.segmentE, SegmentsBefore(p, cell, 0), 4 * (k - 1), SegmentsBefore(p, cell, k - 1), 4, 4 * k);
    } else {
      assert CellLayers(p, row, col, k) == [];
    }
  }

  /** A square's comment reports nothing; its layers report the rest. */
  lemma CellLinesPositions(p: Plan, row: nat, col: nat)
    requires ValidCell(p, row, col)
    ensures ExtruderPositions(CellLines(p, row, col))
         == Ramp(p.segmentE, SegmentsBefore(p, CellIndex(p, row, col), 0), 4 * p.layers)
  {
    var cell := CellIndex(p, row, col);
    CellLayersPositions(p, row, col, p.layers);
    assert CellLines(p, row, col) == [SquareComment(cell + 1, p.offsets[cell])] + CellLayers(p, row, col, p.layers);
    ExtruderPositionsConcat([SquareComment(cell + 1, p.offsets[cell])], CellLayers(p, row, col, p.layers));
  }

  /** The edges of the first `c` squares of a row. */
  function RowEdgeCount(p: Plan, c: nat): nat {
    4 * p.layers * c
  }

  /** The edges of the first `r` rows. */
  function GridEdgeCount(p: Plan, r: nat): nat {
    4 * p.layers * p.xCount * r
  }

  /** Every square holds `4 * layers` edges, so square `c - 1` of a row
      starts `RowEdgeCount(p, c - 1)` edges into the row. */
  lemma RowEdgesStep(p: Plan, row: nat, c: nat)
    requires ValidPlan(p) && row < p.yCount && 0 < c <= p.xCount
    ensures SegmentsBefore(p, CellIndex(p, row, c - 1), 0)
         == SegmentsBefore(p, RowStart(p, row), 0) + RowEdgeCount(p, c - 1)
    ensures RowEdgeCount(p, c) == RowEdgeCount(p, c - 1) + 4 * p.layers
  {
    assert CellIndex(p, row, c - 1) == RowStart(p, row) + (c - 1);
    ShiftEdges(RowStart(p, row), c - 1, p.layers);
  }

  lemma ShiftEdges(a: nat, b: nat, layers: nat)
    ensures ((a + b) * layers + 0) * 4 == (a * layers + 0) * 4 + 4 * layers * b
  {
    assert (a + b) * layers == a * layers + b * layers;
  }

  /** Row `r - 1` starts after `r - 1` whole rows of squares. */
  lemma GridEdgesStep(p: Plan, r: nat)
    requires 0 < r
    ensures SegmentsBefore(p, RowStart(p, r - 1), 0) == 0 + GridEdgeCount(p, r - 1)
    ensures GridEdgeCount(p, r) == GridEdgeCount(p, r - 1) + RowEdgeCount(p, p.xCount)
  {
    RowStartProduct(p, r - 1);
    assert (r - 1) * p.xCount * p.layers * 4 == 4 * p.layers * p.xCount * (r - 1);
  }

  /** The first `c` squares of a row report their edges, starting after
      the edges of every earlier row. */
  lemma {:induction false} RowLinesPositions(p: Plan, row: nat, c: nat)
    requires ValidPlan(p) && row < p.yCount && c <= p.xCount
    ensures ExtruderPositions(RowLines(p, row, c))
         == Ramp(p.segmentE, SegmentsBefore(p, RowStart(p, row), 0), RowEdgeCount(p, c))
    decreases c
  {
    if c > 0 {
      RowEdgesStep(p, row, c);
      RowLinesStep(p, row, c - 1);
      RowLinesPositions(p, row, c - 1);
      CellLinesPositions(p, row, c - 1);
      PositionsStep(RowLines(p, row, c), RowLines(p, row, c - 1), CellLines(p, row, c - 1),
                    p.segmentE, SegmentsBefore(p, RowStart(p, row), 0), RowEdgeCount(p, c - 1),
                    SegmentsBefore(p, CellIndex(p, row, c - 1), 0), 4 * p.layers, RowEdgeCount(p, c));
    } else {
      assert RowLines(p, row, c) == [];
    }
  }

  /** The first `r` rows report their edges, from the first edge of the
      job. */
  lemma {:induction false} GridLinesPositions(p: Plan, r: nat)
    requires ValidPlan(p) && r <= p.yCount
    ensures ExtruderPositions(GridLines(p, r)) == Ramp(p.segmentE, 0, GridEdgeCount(p, r))
    decreases r
  {
    if r > 0 {
      GridEdgesStep(p, r);
      GridLinesStep(p, r - 1);
      GridLinesPositions(p, r - 1);
      RowLinesPositions(p, r - 1, p.xCount);
      PositionsStep(GridLines(p, r), GridLines(p, r - 1), RowLines(p, r - 1, p.xCount),
                    p.segmentE, 0, GridEdgeCount(p, r - 1), SegmentsBefore(p, RowStart(p, r - 1), 0),
                    RowEdgeCount(p, p.xCount), GridEdgeCount(p, r));
    } else {
      assert GridLines(p, r) == [];
    }
  }

  /** Neither the set-up nor the shut-down extrudes. */
  lemma HeaderFooterPositions(cfg: Settings)
    ensures ExtruderPositions(Header(cfg)) == []
    ensures ExtruderPositions(Footer()) == []
  {
    NoExtrusion(Header(cfg));
    NoExtrusion(Footer());
  }

  /** A program whose set-up does not extrude reports the `n` edges of
      every square, from the first edge of the job. */
  lemma ProgramPositions(h: seq<Line>, p: Plan, s: real, n: nat)
    requires ValidPlan(p) && forall i :: 0 <= i < |h| ==> !h[i].Extrude?
    requires s == p.segmentE && n == 4 * p.layers * (p.xCount * p.yCount)
    ensures ExtruderPositions(Program(h, p)) == Ramp(s, 0, n)
  {
    var body := GridLines(p, p.yCount);
    assert GridEdgeCount(p, p.yCount) == n by {
      MulAssoc(4 * p.layers, p.xCount, p.yCount);
    }
    GridLinesPositions(p, p.yCount);
    NoExtrusion(h);
    NoExtrusion(Footer());
    ExtruderPositionsConcat(h, body);
    ExtruderPositionsConcat(h + body, Footer());
  }

  /** The edges of the whole job: four per layer of every square. */
  function JobEdges(cfg: Settings): nat {
    4 * Layers(cfg) * CellCount(cfg)
  }

  /** The positions the program for `cfg` reports, as a ramp. */
  lemma ProgramRamp(cfg: Settings)
    requires Generate(cfg).Success?
    ensures ExtruderPositions(Generate(cfg).value) == Ramp(SegmentE(cfg), 0, JobEdges(cfg))
  {
    ProgramParts(cfg);
    ProgramPositions(Header(cfg), PlanOf(cfg), SegmentE(cfg), JobEdges(cfg));
  }

  /** The program reports one extruder position per edge of every layer of
      every square, `4 * layers * squares` in all. */
  lemma ExtrusionCount(cfg: Settings)
    requires Generate(cfg).Success?
    ensures |ExtruderPositions(Generate(cfg).value)| == 4 * Layers(cfg) * CellCount(cfg)
  {
    ProgramRamp(cfg);
  }

  /** The `m`-th position reported (from zero) is the running total after
      `m + 1` edges: the total is never reset between layers or squares,
      so the last one is the filament of the whole job (`FedClosedForm`
      gives it as `(m + 1) * SegmentE(cfg)`). */
  lemma ExtrusionAt(cfg: Settings, m: nat)
    requires Generate(cfg).Success? && m < |ExtruderPositions(Generate(cfg).value)|
    ensures ExtruderPositions(Generate(cfg).value)[m] == Fed(0.0, SegmentE(cfg), m + 1)
  {
    ProgramRamp(cfg);
    RampAt(SegmentE(cfg), 0, JobEdges(cfg), m, m + 1);
  }

  /** With non-negative layer height, line width and multiplier the reported
      extruder position never decreases. */
  lemma ExtrusionMonotone(cfg: Settings, i: nat, j: nat)
    requires Generate(cfg).Success?
    requires cfg.layerHeight >= 0.0 && cfg.lineWidth >= 0.0 && cfg.extrusionMultiplier >= 0.0
    requires i <= j < |ExtruderPositions(Generate(cfg).value)|
    ensures ExtruderPositions(Generate(cfg).value)[i] <= ExtruderPositions(Generate(cfg).value)[j]
  {
    ProgramRamp(cfg);
    ExtrusionNonNegative(Abs(cfg.squareSize), cfg.layerHeight, cfg.lineWidth, cfg.extrusionMultiplier);
    RampMonotone(SegmentE(cfg), 0, JobEdges(cfg), i, j);
  }
}
