/**
 * The detector's static configuration: the closed list of damage classes the
 * detection model reports, the three severity levels, and the repair-cost
 * matrix (USD) indexed by class and severity, with its lookup rule.
 */
module Catalog {
  import opened Options

  /** Severity levels, ordered minor < moderate < severe. */
  datatype Severity = Minor | Moderate | Severe
  {
    /** Position in the total order minor < moderate < severe. */
    function Rank(): nat
    {
      match this
      case Minor => 0
      case Moderate => 1
      case Severe => 2
    }

    /** The string tag `_estimate_severity` returns for this level. */
    function Tag(): string
    {
      match this
      case Minor => "minor"
      case Moderate => "moderate"
      case Severe => "severe"
    }
  }

  /** Reads a severity tag back; any other string is not a severity. */
  function SeverityOfTag(t: string): (s: Option<Severity>)
    ensures s.Some? ==> s.value.Tag() == t
  {
    if t == "minor" then Some(Minor)
    else if t == "moderate" then Some(Moderate)
    else if t == "severe" then Some(Severe)
    else None
  }

  /** Every severity is recovered from its tag, so tags are distinct. */
  lemma TagRoundTrip(s: Severity)
    ensures SeverityOfTag(s.Tag()) == Some(s)
  {
  }

  /** One row of the cost matrix: a cost for each severity level. */
  datatype CostRow = CostRow(minor: nat, moderate: nat, severe: nat)
  {
    function At(s: Severity): nat
    {
      match s
      case Minor => minor
      case Moderate => moderate
      case Severe => severe
    }

    /** Costs rise strictly with severity. */
    predicate Increasing()
    {
      minor < moderate < severe
    }
  }

  /** Cost charged for a class that has no row in the matrix, at any severity. */
  const FallbackCost: nat := 100

  /** The 23 damage classes, in declaration order. */
  const DamageClasses: seq<string> := [
    "bonnet-dent", "doorouter-dent", "doorouter-paint-trace", "doorouter-scratch",
    "fender-dent", "front-bumper-dent", "front-bumper-scratch", "Front-Windscreen-Damage",
    "Headlight-Damage", "Major-Rear-Bumper-Dent", "medium-Bodypanel-Dent", "paint-chip",
    "paint-trace", "pillar-dent", "quaterpanel-dent", "rear-bumper-dent",
    "rear-bumper-scratch", "Rear-windscreen-Damage", "roof-dent", "RunningBoard-Dent",
    "Sidemirror-Damage", "Signlight-Damage", "Taillight-Damage"
  ]

  /** The repair-cost matrix. */
  const RepairCosts: map<string, CostRow> := map[
    // Dents
    "bonnet-dent" := CostRow(150, 400, 800),
    "doorouter-dent" := CostRow(100, 350, 700),
    "fender-dent" := CostRow(120, 380, 750),
    "front-bumper-dent" := CostRow(100, 300, 600),
    "pillar-dent" := CostRow(200, 500, 1000),
    "quaterpanel-dent" := CostRow(150, 400, 800),
    "rear-bumper-dent" := CostRow(100, 300, 600),
    "roof-dent" := CostRow(200, 600, 1200),
    "medium-Bodypanel-Dent" := CostRow(150, 400, 900),
    "Major-Rear-Bumper-Dent" := CostRow(300, 700, 1500),
    "RunningBoard-Dent" := CostRow(80, 250, 500),
    // Scratches
    "doorouter-scratch" := CostRow(50, 150, 400),
    "front-bumper-scratch" := CostRow(50, 150, 350),
    "rear-bumper-scratch" := CostRow(50, 150, 350),
    // Paint damage
    "doorouter-paint-trace" := CostRow(60, 180, 450),
    "paint-chip" := CostRow(40, 120, 300),
    "paint-trace" := CostRow(50, 150, 400),
    // Glass and light damage
    "Front-Windscreen-Damage" := CostRow(200, 500, 1000),
    "Rear-windscreen-Damage" := CostRow(200, 500, 1000),
    "Headlight-Damage" := CostRow(150, 400, 800),
    "Taillight-Damage" := CostRow(100, 300, 600),
    "Signlight-Damage" := CostRow(80, 200, 400),
    "Sidemirror-Damage" := CostRow(100, 300, 600)
  ]

  /**
   * The cost of a damage of class `cls` at severity `s`: the matrix entry
   * when the class has a row, otherwise the fallback whatever the severity.
   */
  function RepairCost(cls: string, s: Severity): (cost: nat)
    ensures cls in DamageClasses ==> cost == RepairCosts[cls].At(s)
    ensures cls !in RepairCosts ==> cost == FallbackCost
    ensures cost > 0
  {
    CoverageAndOrder();
    if cls in RepairCosts then RepairCosts[cls].At(s) else FallbackCost
  }

  /**
   * Every declared class has a cost row, every row belongs to a declared
   * class, and within every row the costs rise strictly with severity.
   */
  lemma CoverageAndOrder()
    ensures |DamageClasses| == 23
    ensures forall c :: c in DamageClasses <==> c in RepairCosts
    ensures forall c :: c in RepairCosts ==> RepairCosts[c].Increasing() && RepairCosts[c].minor > 0
  {
    ClassesHaveRows();
    RowsHaveClasses();
    RowsIncrease();
  }

  lemma ClassesHaveRows()
    ensures forall c :: c in DamageClasses ==> c in RepairCosts
  {
  }

  lemma RowsHaveClasses()
    ensures forall c :: c in RepairCosts ==> c in DamageClasses
  {
  }

  lemma RowsIncrease()
    ensures forall c :: c in RepairCosts ==> RepairCosts[c].Increasing() && RepairCosts[c].minor > 0
  {
  }

  /** For a known class, a strictly higher severity costs strictly more. */
  lemma CostIncreasesWithSeverity(cls: string, s: Severity, t: Severity)
    requires cls in DamageClasses
    requires s.Rank() < t.Rank()
    ensures RepairCost(cls, s) < RepairCost(cls, t)
  {
    CoverageAndOrder();
  }

  /** For a class outside the matrix, the cost does not depend on severity. */
  lemma UnknownClassCostIgnoresSeverity(cls: string, s: Severity, t: Severity)
    requires cls !in RepairCosts
    ensures RepairCost(cls, s) == RepairCost(cls, t) == FallbackCost
  {
  }
}
