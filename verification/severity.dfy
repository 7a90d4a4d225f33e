/**
 * Severity estimation: the share of the image a damage box covers, compared
 * against one of two threshold tiers chosen by damage class.
 */
module SeverityRule {
  import opened Catalog
  import opened Geometry

  /** The classes judged on the stricter, critical tier. */
  const CriticalTypes: seq<string> :=
    ["Major-Rear-Bumper-Dent", "Front-Windscreen-Damage", "Rear-windscreen-Damage"]

  datatype Tier = Critical | Standard

  /** Ratio thresholds: strictly above `severe` is severe, else strictly above `moderate` is moderate. */
  datatype Thresholds = Thresholds(severe: real, moderate: real)

  /** Tier membership is exact, case-sensitive string membership. */
  function TierOf(cls: string): Tier
  {
    if cls in CriticalTypes then Critical else Standard
  }

  /** The policy table: one pair of thresholds per tier. */
  function ThresholdsOf(t: Tier): Thresholds
  {
    match t
    case Critical => Thresholds(0.05, 0.02)
    case Standard => Thresholds(0.08, 0.03)
  }

  /** `bbox_area / img_area`, computed exactly. */
  function DamageRatio(area: int, imgArea: int): real
    requires imgArea > 0
  {
    area as real / imgArea as real
  }

  /** Strict comparisons: a ratio exactly at a threshold lands in the lower tier. */
  function Classify(ratio: real, th: Thresholds): Severity
  {
    if ratio > th.severe then Severe
    else if ratio > th.moderate then Moderate
    else Minor
  }

  /**
   * Independent reference for the severity rule on integers only: each
   * threshold test `area / imgArea > p / q` cross-multiplied to
   * `q * area > p * imgArea`.
   */
  function CrossMultipliedSeverity(area: int, critical: bool, imgArea: int): Severity
  {
    if critical then
      if 20 * area > imgArea then Severe
      else if 50 * area > imgArea then Moderate
      else Minor
    else
      if 25 * area > 2 * imgArea then Severe
      else if 100 * area > 3 * imgArea then Moderate
      else Minor
  }

  /** For a positive denominator, `area / imgArea > p / q` iff `q * area > p * imgArea`. */
  lemma RatioAbove(area: int, imgArea: int, p: int, q: int)
    requires imgArea > 0 && q > 0
    ensures DamageRatio(area, imgArea) > p as real / q as real <==> q * area > p * imgArea
  {
  }

  /** The severity of a box of area `area` of class `cls` in an image of area `imgArea`. */
  function SeverityOfArea(area: int, cls: string, imgArea: int): (s: Severity)
    requires imgArea > 0
    ensures s == CrossMultipliedSeverity(area, cls in CriticalTypes, imgArea)
    ensures area <= 0 ==> s == Minor
  {
    RatioAbove(area, imgArea, 1, 20);
    RatioAbove(area, imgArea, 1, 50);
    RatioAbove(area, imgArea, 2, 25);
    RatioAbove(area, imgArea, 3, 100);
    Classify(DamageRatio(area, imgArea), ThresholdsOf(TierOf(cls)))
  }

  /**
   * `_estimate_severity`: the severity of box `b` of class `cls` in an
   * image of `h` rows and `w` columns.
   */
  function EstimateSeverity(b: Box, cls: string, h: nat, w: nat): (s: Severity)
    requires h > 0 && w > 0
    ensures s == CrossMultipliedSeverity(b.Area(), cls in CriticalTypes, h * w)
    ensures b.Area() <= 0 ==> s == Minor
  {
    SeverityOfArea(b.Area(), cls, h * w)
  }

  /** A box that is degenerate along either axis is always minor. */
  lemma DegenerateBoxIsMinor(b: Box, cls: string, h: nat, w: nat)
    requires h > 0 && w > 0
    requires b.x1 == b.x2 || b.y1 == b.y2
    ensures EstimateSeverity(b, cls, h, w) == Minor
  {
  }

  /** For a fixed class and image, a larger box is never less severe. */
  lemma SeverityMonotoneInArea(a1: int, a2: int, cls: string, imgArea: int)
    requires imgArea > 0
    requires a1 <= a2
    ensures SeverityOfArea(a1, cls, imgArea).Rank() <= SeverityOfArea(a2, cls, imgArea).Rank()
  {
  }

  /** For the same geometry, a critical class is never rated below a standard one. */
  lemma CriticalNeverLower(area: int, critical: string, standard: string, imgArea: int)
    requires imgArea > 0
    requires critical in CriticalTypes && standard !in CriticalTypes
    ensures SeverityOfArea(area, critical, imgArea).Rank() >= SeverityOfArea(area, standard, imgArea).Rank()
  {
  }

  /** A ratio exactly at any threshold falls into the tier below it. */
  lemma ThresholdBoundaries(area: int, cls: string, imgArea: int)
    requires imgArea > 0
    ensures cls in CriticalTypes && 20 * area == imgArea ==> SeverityOfArea(area, cls, imgArea) == Moderate
    ensures cls in CriticalTypes && 50 * area == imgArea ==> SeverityOfArea(area, cls, imgArea) == Minor
    ensures cls !in CriticalTypes && 25 * area == 2 * imgArea ==> SeverityOfArea(area, cls, imgArea) == Moderate
    ensures cls !in CriticalTypes && 100 * area == 3 * imgArea ==> SeverityOfArea(area, cls, imgArea) == Minor
  {
  }

  /** The critical tier holds exactly the three listed classes, all of them declared. */
  lemma CriticalTypesDeclared()
    ensures |CriticalTypes| == 3
    ensures forall c :: c in CriticalTypes ==> c in DamageClasses
  {
  }
}
