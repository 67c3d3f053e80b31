/** Filament needed for one extruded segment (the source's inner
    `calculate_extrusion`). */
module Extrusion {

  /** Cross-section of 1.75 mm filament with pi taken as 3.1416, in mm^2:
      `1.75**2 * 3.1416 / 4`. */
  const FilamentArea: real := 1.75 * 1.75 * 3.1416 / 4.0

  /** Filament length to feed for a bead of `length` by `lineWidth` by
      `layerHeight`, scaled by `multiplier`: the volume of filament fed
      equals the bead's volume. */
  function CalculateExtrusion(length: real, layerHeight: real, lineWidth: real, multiplier: real): (r: real)
    ensures r * FilamentArea == length * lineWidth * layerHeight * multiplier
  {
    (length * lineWidth * layerHeight * multiplier) / FilamentArea
  }

  /** Extrusion is linear in the segment length: splitting a segment splits
      its filament, and scaling a segment scales its filament. */
  lemma ExtrusionLinear(a: real, b: real, c: real, layerHeight: real, lineWidth: real, multiplier: real)
    ensures CalculateExtrusion(a + b, layerHeight, lineWidth, multiplier)
         == CalculateExtrusion(a, layerHeight, lineWidth, multiplier)
          + CalculateExtrusion(b, layerHeight, lineWidth, multiplier)
    ensures CalculateExtrusion(c * a, layerHeight, lineWidth, multiplier)
         == c * CalculateExtrusion(a, layerHeight, lineWidth, multiplier)
  {
    var k := lineWidth * layerHeight * multiplier;
    assert (a + b) * lineWidth * layerHeight * multiplier == a * k + b * k;
    assert (c * a) * lineWidth * layerHeight * multiplier == c * (a * k);
  }

  /** Doubling a segment doubles its filament. */
  lemma ExtrusionDoubles(a: real, layerHeight: real, lineWidth: real, multiplier: real)
    ensures CalculateExtrusion(2.0 * a, layerHeight, lineWidth, multiplier)
         == 2.0 * CalculateExtrusion(a, layerHeight, lineWidth, multiplier)
  {
    ExtrusionLinear(a, a, 2.0, layerHeight, lineWidth, multiplier);
  }

  /** Non-negative inputs never call for retraction. */
  lemma ExtrusionNonNegative(length: real, layerHeight: real, lineWidth: real, multiplier: real)
    requires length >= 0.0 && layerHeight >= 0.0 && lineWidth >= 0.0 && multiplier >= 0.0
    ensures CalculateExtrusion(length, layerHeight, lineWidth, multiplier) >= 0.0
  {
    assert length * lineWidth >= 0.0;
    assert length * lineWidth * layerHeight >= 0.0;
    assert length * lineWidth * layerHeight * multiplier >= 0.0;
  }
}
