/** The detection record every detector of the backend emits and the
    dashboard screens consume. */
module Detections {
  import opened Base
  import opened Text

  /** `[x1, y1, x2, y2]` in source-frame pixels. */
  datatype Box = Box(x1: int, y1: int, x2: int, y2: int)

  /** Horizontal third of the frame a detection falls in. */
  datatype Position = Left | Center | Right {
    function Name(): string {
      match this
      case Left => "left"
      case Center => "center"
      case Right => "right"
    }

    /** Left-to-right order of the thirds. */
    function Rank(): nat {
      match this
      case Left => 0
      case Center => 1
      case Right => 2
    }
  }

  /** The inputs of a focal-length distance estimate: a real-world size in
      metres and the matching extent of the box in pixels. A detection
      keeps these inputs; the estimate is `FocalDistance`. */
  datatype Estimate = Estimate(realSize: real, pixels: int)

  /** The camera's focal length in pixels and the term that keeps the
      divisor away from zero. */
  const FocalLength: real := 615.0
  const WidthEpsilon: real := 0.000001

  /** The estimated distance in metres, computed over the reals (the
      service computes it in floating point). */
  function FocalDistance(e: Estimate): real {
    e.realSize * FocalLength / (e.pixels as real + WidthEpsilon)
  }

  /** Whether the record carries `"type": "traffic_sign"`. */
  datatype Kind = Untyped | TrafficSign

  /** One detection; `name` is the record's `"label"` key (`label` is a
      Dafny keyword). */
  datatype Detection = Detection(
    name: string,
    confidence: real,
    position: Position,
    distance: Option<Estimate>,
    box: Box,
    kind: Kind)

  /** The service's data files: class names in model-id order and the
      average real-world width (metres) of some labels. */
  datatype Catalog = Catalog(classNames: seq<string>, averageSizes: map<string, real>)

  /** The distance field: present iff the label has an average size and
      that size is non-zero (a zero estimate is falsy and becomes `None`). */
  function DistanceFor(cat: Catalog, lbl: string, pixelWidth: int): (d: Option<Estimate>)
    ensures d.None? <==> lbl !in cat.averageSizes || cat.averageSizes[lbl] == 0.0
    ensures d.Some? ==> d.value == Estimate(cat.averageSizes[lbl], pixelWidth)
  {
    if lbl in cat.averageSizes && cat.averageSizes[lbl] != 0.0
    then Some(Estimate(cat.averageSizes[lbl], pixelWidth))
    else None
  }

  /** The divisor of the estimate is never zero for a whole number of
      pixels, so the estimate is zero exactly when the size is. */
  lemma FocalDistanceZeroIff(e: Estimate)
    ensures FocalDistance(e) == 0.0 <==> e.realSize == 0.0
  {
    var d := e.pixels as real + WidthEpsilon;
    if e.pixels < 0 {
      assert d < 0.0;
    } else {
      assert d > 0.0;
    }
    var q := e.realSize * FocalLength / d;
    assert q * d == e.realSize * FocalLength;
  }

  /** The service computes the estimate for every label with an average
      size and reports it only when it is truthy; testing the size
      instead, as `DistanceFor` does, decides the same way. */
  lemma DistanceForIsTruthiness(cat: Catalog, lbl: string, pixelWidth: int)
    ensures DistanceFor(cat, lbl, pixelWidth).Some? <==>
      lbl in cat.averageSizes && FocalDistance(Estimate(cat.averageSizes[lbl], pixelWidth)) != 0.0
  {
    if lbl in cat.averageSizes {
      FocalDistanceZeroIff(Estimate(cat.averageSizes[lbl], pixelWidth));
    }
  }

  /** `"Person k"`, the label given to the k-th person found in a frame. */
  function PersonLabel(k: nat): string {
    "Person " + NatToString(k)
  }
}
