/** Grid placement: where the first square goes and how far apart the squares are. */
module Grid {
  import opened Config

  datatype Point = Point(x: real, y: real)

  /** The span of `count` squares of side `size` with `spacing` between
      neighbours (the source's `grid_width` / `grid_height`). */
  function Extent(count: int, size: real, spacing: real): real {
    count as real * size + (count - 1) as real * spacing
  }

  /** One axis of the start corner: the explicit value when given, otherwise
      the value that leaves equal margins on both sides of the grid. */
  function ResolveStart(given: Option<real>, bed: real, extent: real): (r: real)
    ensures given.Some? ==> r == given.value
    ensures given.None? ==> r == bed - (r + extent)
  {
    match given
    case Some(v) => v
    case None => (bed - extent) / 2.0
  }

  /** The corner of the first square. Each axis is decided by its own
      argument alone: a supplied start value is kept unchanged, an omitted
      one centres the grid on the bed along that axis. */
  function Start(cfg: Settings): (r: Point)
    ensures cfg.startX.Some? ==> r.x == cfg.startX.value
    ensures cfg.startY.Some? ==> r.y == cfg.startY.value
    ensures cfg.startX.None? ==>
      r.x == cfg.bedSizeX - (r.x + Extent(cfg.xCount, cfg.squareSize, cfg.spacing))
    ensures cfg.startY.None? ==>
      r.y == cfg.bedSizeY - (r.y + Extent(cfg.yCount, cfg.squareSize, cfg.spacing))
  {
    Point(
      ResolveStart(cfg.startX, cfg.bedSizeX, Extent(cfg.xCount, cfg.squareSize, cfg.spacing)),
      ResolveStart(cfg.startY, cfg.bedSizeY, Extent(cfg.yCount, cfg.squareSize, cfg.spacing)))
  }

  /** Distance between the corners of neighbouring squares. */
  function Pitch(cfg: Settings): real {
    cfg.squareSize + cfg.spacing
  }

  /** The corner of the square in row `row` and column `col`. */
  function CellOrigin(start: Point, pitch: real, row: nat, col: nat): (r: Point)
    ensures pitch >= 0.0 ==> start.x <= r.x && start.y <= r.y
    ensures pitch <= 0.0 ==> r.x <= start.x && r.y <= start.y
  {
    Point(start.x + col as real * pitch, start.y + row as real * pitch)
  }

  /** Stepping one column moves the corner by one pitch in x only; stepping
      one row moves it by one pitch in y only. This is what the source's
      running `current_x` / `current_y` do. */
  lemma NeighbourOrigins(start: Point, pitch: real, row: nat, col: nat)
    ensures CellOrigin(start, pitch, row, col + 1).x == CellOrigin(start, pitch, row, col).x + pitch
    ensures CellOrigin(start, pitch, row, col + 1).y == CellOrigin(start, pitch, row, col).y
    ensures CellOrigin(start, pitch, row + 1, col).y == CellOrigin(start, pitch, row, col).y + pitch
    ensures CellOrigin(start, pitch, row + 1, col).x == CellOrigin(start, pitch, row, col).x
    ensures CellOrigin(start, pitch, 0, 0) == start
  {
  }

  /** With both start values omitted, the grid's centre is the bed's centre. */
  lemma CentredGrid(cfg: Settings)
    requires cfg.startX.None? && cfg.startY.None?
    ensures Start(cfg).x + Extent(cfg.xCount, cfg.squareSize, cfg.spacing) / 2.0 == cfg.bedSizeX / 2.0
    ensures Start(cfg).y + Extent(cfg.yCount, cfg.squareSize, cfg.spacing) / 2.0 == cfg.bedSizeY / 2.0
  {
  }
}
