/** The settings of the Z-offset calibration generator (the keyword arguments of
    `generate_z_offset_calibration_gcode`) and the ways generation can fail.
    Python floats are modelled as exact reals and Python ints as unbounded ints. */
module Config {

  datatype Option<T> = None | Some(value: T)

  /** Why generation stops before producing any output. Both are division
      errors the source does not guard against. */
  datatype Error =
    | OffsetStepByZero   // exactly one cell: the offset step divides by x_count*y_count - 1
    | LayerCountByZero   // a cell exists and layer_height is zero: square_height / layer_height

  datatype Result<T> = Success(value: T) | Failure(error: Error)

  /** One generator call's arguments. Temperatures are passed through to the
      firmware commands untouched; speeds are in mm/s and become feedrates
      in mm/min. `bedSizeZ` is accepted but never used by the generator. */
  datatype Settings = Settings(
    xCount: int,
    yCount: int,
    squareSize: real,
    squareHeight: real,
    spacing: real,
    layerHeight: real,
    lineWidth: real,
    extrusionMultiplier: real,
    bedTemp: int,
    nozzleTemp: int,
    printSpeed: real,
    travelSpeed: real,
    startX: Option<real>,
    startY: Option<real>,
    zOffsetMin: real,
    zOffsetMax: real,
    bedSizeX: real,
    bedSizeY: real,
    bedSizeZ: real)

  /** The default arguments of the generator. */
  function Defaults(): Settings {
    Settings(
      4, 3, 20.0, 1.0, 5.0, 0.2, 0.4, 1.0, 60, 215, 20.0, 150.0,
      None, None, -0.3, 0.0, 250.0, 250.0, 250.0)
  }

  /** The number of iterations of `range(n)`: zero for a negative `n`. */
  function Max0(n: int): (r: nat)
    ensures n >= 0 ==> r == n
    ensures n < 0 ==> r == 0
  {
    if n < 0 then 0 else n
  }

  /** The number of squares the nested row/column loops visit. */
  function CellCount(cfg: Settings): nat {
    Max0(cfg.xCount) * Max0(cfg.yCount)
  }
}
