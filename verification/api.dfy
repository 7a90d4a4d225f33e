/**
 * The pure parts of the REST layer: the single-image summary (count, total
 * cost, severity breakdown), the JSON projection of a detection, the
 * comparison summary, and the damage-class listing with its keyword
 * categories.
 */
module Api {
  import opened Options
  import opened Seqs
  import opened Catalog
  import opened Geometry
  import opened Detector
  import opened Text

  datatype SeverityBreakdown = SeverityBreakdown(minor: nat, moderate: nat, severe: nat)
  {
    /** The breakdown with one more detection of severity `s`. */
    function Bump(s: Severity): SeverityBreakdown
    {
      match s
      case Minor => this.(minor := minor + 1)
      case Moderate => this.(moderate := moderate + 1)
      case Severe => this.(severe := severe + 1)
    }
  }

  datatype DetectSummary = DetectSummary(totalDamages: nat, totalEstimatedCost: nat, breakdown: SeverityBreakdown)

  /** The `bbox` object of a response, with named corners. */
  datatype BoxView = BoxView(x1: int, y1: int, x2: int, y2: int)

  /** One detection as it appears in a response, severity as its string tag. */
  datatype DetectionView = DetectionView(cls: string, confidence: real, severity: string, estimatedCost: nat, bbox: BoxView)

  datatype ComparisonSummary = ComparisonSummary(pickupDamages: nat, returnDamages: nat, newDamages: nat, totalNewCost: nat)

  datatype ComparisonResponse = ComparisonResponse(summary: ComparisonSummary, newDamages: seq<DetectionView>)

  datatype Categories = Categories(dents: seq<string>, scratches: seq<string>, paint: seq<string>, glassLights: seq<string>)

  datatype ClassListing = ClassListing(totalClasses: nat, classes: seq<string>, categories: Categories)

  /** `sum(1 for d in ds if d['severity'] == s)`. */
  function CountSeverity(ds: seq<Detection>, s: Severity): nat
  {
    |Filter(ds, (d: Detection) => d.severity == s)|
  }

  /** Every detection has exactly one of the three severities. */
  lemma {:induction false} SeverityCountsPartition(ds: seq<Detection>)
    ensures CountSeverity(ds, Minor) + CountSeverity(ds, Moderate) + CountSeverity(ds, Severe) == |ds|
  {
    if |ds| > 0 {
      SeverityCountsPartition(ds[1..]);
    }
  }

  /** The severity breakdown: its three counts add up to the number of detections. */
  function Breakdown(ds: seq<Detection>): (b: SeverityBreakdown)
    ensures b.minor + b.moderate + b.severe == |ds|
    ensures ds == [] ==> b == SeverityBreakdown(0, 0, 0)
  {
    SeverityCountsPartition(ds);
    SeverityBreakdown(CountSeverity(ds, Minor), CountSeverity(ds, Moderate), CountSeverity(ds, Severe))
  }

  /**
   * Each detection adds one to the count of its own severity and to no
   * other; with the empty case this fixes what every count means.
   */
  lemma BreakdownCons(d: Detection, ds: seq<Detection>)
    ensures Breakdown([d] + ds) == Breakdown(ds).Bump(d.severity)
  {
    assert ([d] + ds)[1..] == ds;
  }

  /**
   * The `summary` object of a single-image response: the detection count,
   * the summed cost, and a breakdown that partitions the count.
   */
  function Summarize(ds: seq<Detection>): (s: DetectSummary)
    ensures s.totalDamages == |ds|
    ensures s.breakdown == Breakdown(ds)
    ensures s.breakdown.minor + s.breakdown.moderate + s.breakdown.severe == s.totalDamages
    ensures s.totalEstimatedCost == TotalCost(ds)
    ensures ds == [] ==> s.totalEstimatedCost == 0
  {
    TotalCostAppend([], []);
    DetectSummary(|ds|, TotalCost(ds), Breakdown(ds))
  }

  /** The JSON view of one detection; confidence is passed through unrounded. */
  function View(d: Detection): DetectionView
  {
    DetectionView(d.cls, d.confidence, d.severity.Tag(), d.estimatedCost,
                  BoxView(d.bbox.x1, d.bbox.y1, d.bbox.x2, d.bbox.y2))
  }

  /** Reads a detection back from its view; fails on an unknown severity tag. */
  function FromView(v: DetectionView): Option<Detection>
  {
    match SeverityOfTag(v.severity)
    case None => None
    case Some(s) => Some(Detection(Box(v.bbox.x1, v.bbox.y1, v.bbox.x2, v.bbox.y2), v.confidence, v.cls, s, v.estimatedCost))
  }

  /**
   * The `detections` list of a response: one view per detection, in the
   * same order, each losing nothing (it reads back to its detection), with
   * the box corners copied in position order.
   */
  function ViewAll(ds: seq<Detection>): (vs: seq<DetectionView>)
    ensures |vs| == |ds|
    ensures forall i :: 0 <= i < |ds| ==> FromView(vs[i]) == Some(ds[i])
    ensures forall i :: 0 <= i < |ds| ==>
      vs[i].bbox == BoxView(ds[i].bbox.x1, ds[i].bbox.y1, ds[i].bbox.x2, ds[i].bbox.y2)
  {
    var vs := seq(|ds|, i requires 0 <= i < |ds| => View(ds[i]));
    forall i | 0 <= i < |ds|
      ensures FromView(vs[i]) == Some(ds[i])
    {
      TagRoundTrip(ds[i].severity);
    }
    vs
  }

  /** Two detections with the same view are the same detection. */
  lemma ViewInjective(d: Detection, e: Detection)
    requires View(d) == View(e)
    ensures d == e
  {
  }

  /**
   * The comparison part of a `/api/compare` response for the two detection
   * lists: the three list sizes, the new-damage total carried through
   * unchanged, and the views of the new damages.
   */
  function RespondToComparison(pickup: seq<Detection>, ret: seq<Detection>): (r: ComparisonResponse)
    ensures r.summary.pickupDamages == |pickup|
    ensures r.summary.returnDamages == |ret|
    ensures r.summary.newDamages == |r.newDamages| <= r.summary.returnDamages
    ensures r.summary.totalNewCost == Compare(pickup, ret).totalNewCost <= TotalCost(ret)
    ensures |r.newDamages| == |Compare(pickup, ret).newDamages|
    ensures forall i :: 0 <= i < |r.newDamages| ==>
      FromView(r.newDamages[i]) == Some(Compare(pickup, ret).newDamages[i])
  {
    var c := Compare(pickup, ret);
    SubsequenceNoLonger(c.newDamages, ret);
    ComparisonResponse(
      ComparisonSummary(|pickup|, |ret|, |c.newDamages|, c.totalNewCost),
      ViewAll(c.newDamages))
  }

  /** A subsequence is never longer than the sequence it is drawn from. */
  lemma {:induction false} SubsequenceNoLonger<T>(xs: seq<T>, ys: seq<T>)
    requires IsSubsequence(xs, ys)
    ensures |xs| <= |ys|
    decreases |ys|
  {
    if |xs| > 0 {
      if xs[0] == ys[0] && IsSubsequence(xs[1..], ys[1..]) {
        SubsequenceNoLonger(xs[1..], ys[1..]);
      } else {
        SubsequenceNoLonger(xs, ys[1..]);
      }
    }
  }

  /** The classes whose lower-cased name contains any of `keys`, in declaration order. */
  function Category(keys: seq<string>): (cs: seq<string>)
    ensures IsSubsequence(cs, DamageClasses)
    ensures forall c :: c in cs <==> c in DamageClasses && ContainsAny(Lower(c), keys)
  {
    Filter(DamageClasses, (c: string) => ContainsAny(Lower(c), keys))
  }

  /** Searching for one key is plain substring search. */
  lemma ContainsAnyOfOne(s: string, k: string)
    ensures ContainsAny(s, [k]) == Contains(s, k)
  {
    assert [k][1..] == [];
  }

  /** Searching for three keys is a disjunction of three substring searches. */
  lemma ContainsAnyOfThree(s: string, a: string, b: string, c: string)
    ensures ContainsAny(s, [a, b, c]) == (Contains(s, a) || Contains(s, b) || Contains(s, c))
  {
    assert [a, b, c][1..] == [b, c];
    assert [b, c][1..] == [c];
    ContainsAnyOfOne(s, c);
  }

  /** A one-keyword category holds exactly the classes containing that keyword. */
  lemma CategoryOfOne(k: string)
    ensures forall c :: c in Category([k]) <==> c in DamageClasses && Contains(Lower(c), k)
  {
    forall c: string {
      ContainsAnyOfOne(Lower(c), k);
    }
  }

  /** A three-keyword category holds exactly the classes containing one of them. */
  lemma CategoryOfThree(a: string, b: string, d: string)
    ensures forall c :: c in Category([a, b, d]) <==>
      (c in DamageClasses && (Contains(Lower(c), a) || Contains(Lower(c), b) || Contains(Lower(c), d)))
  {
    forall c: string {
      ContainsAnyOfThree(Lower(c), a, b, d);
    }
  }

  /**
   * The `/api/damage-classes` listing: the class count, the classes, and
   * four keyword categories, each an order-preserving selection of the
   * classes.
   */
  function ListClasses(): (l: ClassListing)
    ensures l.totalClasses == |l.classes| == 23
    ensures l.classes == DamageClasses
    ensures forall c :: c in l.categories.dents <==> c in DamageClasses && Contains(Lower(c), "dent")
    ensures forall c :: c in l.categories.scratches <==> c in DamageClasses && Contains(Lower(c), "scratch")
    ensures forall c :: c in l.categories.paint <==> c in DamageClasses && Contains(Lower(c), "paint")
    ensures forall c :: c in l.categories.glassLights <==>
      (c in DamageClasses &&
       (Contains(Lower(c), "windscreen") || Contains(Lower(c), "light") || Contains(Lower(c), "mirror")))
    ensures IsSubsequence(l.categories.dents, l.classes)
    ensures IsSubsequence(l.categories.scratches, l.classes)
    ensures IsSubsequence(l.categories.paint, l.classes)
    ensures IsSubsequence(l.categories.glassLights, l.classes)
  {
    var glass := ["windscreen", "light", "mirror"];
    CategoryOfOne("dent");
    CategoryOfOne("scratch");
    CategoryOfOne("paint");
    CategoryOfThree("windscreen", "light", "mirror");
    ClassListing(|DamageClasses|, DamageClasses,
      Categories(Category(["dent"]), Category(["scratch"]), Category(["paint"]), Category(glass)))
  }
}
