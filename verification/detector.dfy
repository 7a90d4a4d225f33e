/**
 * The damage interpreter: turning raw centre-form predictions into enriched
 * detections (corner box, severity, repair cost), and the pickup/return
 * comparison that picks out the "new" damages by per-class counts.
 */
module Detector {
  import opened Seqs
  import opened Catalog
  import opened Geometry
  import opened SeverityRule

  /** One raw prediction from the inference service: a centre-form box, a label and a score. */
  datatype Prediction = Prediction(x: real, y: real, width: real, height: real, cls: string, confidence: real)

  /** The inference response, whose `predictions` entry may be absent. */
  datatype InferenceResult = NoPredictions | Predictions(preds: seq<Prediction>)
  {
    /** How many predictions the response carries; an absent entry carries none. */
    function Size(): nat
    {
      match this
      case NoPredictions => 0
      case Predictions(ps) => |ps|
    }
  }

  /** An enriched detection: corner box, score, label, severity and cost. */
  datatype Detection = Detection(bbox: Box, confidence: real, cls: string, severity: Severity, estimatedCost: nat)

  /** Result of comparing the detections of a pickup photo and a return photo. */
  datatype Comparison = Comparison(
    pickupDamages: seq<Detection>,
    returnDamages: seq<Detection>,
    newDamages: seq<Detection>,
    totalNewCost: nat)

  /**
   * Centre-form to corner-form: each corner is the exact corner truncated
   * toward zero, so it lies within one pixel of it, and a box with
   * non-negative extent keeps its corners in order.
   */
  function CornerBox(p: Prediction): (b: Box)
    ensures b.x1 == Trunc(p.x - p.width / 2.0) && b.y1 == Trunc(p.y - p.height / 2.0)
    ensures b.x2 == Trunc(p.x + p.width / 2.0) && b.y2 == Trunc(p.y + p.height / 2.0)
    ensures -1.0 < b.x1 as real - (p.x - p.width / 2.0) < 1.0
    ensures -1.0 < b.y1 as real - (p.y - p.height / 2.0) < 1.0
    ensures -1.0 < b.x2 as real - (p.x + p.width / 2.0) < 1.0
    ensures -1.0 < b.y2 as real - (p.y + p.height / 2.0) < 1.0
    ensures p.width >= 0.0 ==> b.x1 <= b.x2
    ensures p.height >= 0.0 ==> b.y1 <= b.y2
  {
    TruncMonotone(p.x - p.width / 2.0, p.x + p.width / 2.0);
    TruncMonotone(p.y - p.height / 2.0, p.y + p.height / 2.0);
    Box(Trunc(p.x - p.width / 2.0), Trunc(p.y - p.height / 2.0),
        Trunc(p.x + p.width / 2.0), Trunc(p.y + p.height / 2.0))
  }

  /**
   * One prediction enriched: label and score copied unchanged, the severity
   * rule applied to the corner box, and the cost looked up for that label
   * and severity.
   */
  function BuildDetection(p: Prediction, h: nat, w: nat): (d: Detection)
    requires h > 0 && w > 0
    ensures d.cls == p.cls && d.confidence == p.confidence
    ensures d.bbox == CornerBox(p)
    ensures d.severity == CrossMultipliedSeverity(d.bbox.Area(), p.cls in CriticalTypes, h * w)
    ensures p.cls in DamageClasses ==> d.estimatedCost == RepairCosts[p.cls].At(d.severity)
    ensures p.cls !in RepairCosts ==> d.estimatedCost == FallbackCost
    ensures p.width >= 0.0 && p.height >= 0.0 ==> d.bbox.Ordered()
  {
    var b := CornerBox(p);
    var s := EstimateSeverity(b, p.cls, h, w);
    Detection(b, p.confidence, p.cls, s, RepairCost(p.cls, s))
  }

  /**
   * `detect_damages` after the inference call: exactly one detection per
   * prediction, in input order, none dropped or merged; no `predictions`
   * entry gives no detections.
   */
  method DetectDamages(result: InferenceResult, h: nat, w: nat) returns (detections: seq<Detection>)
    requires h > 0 && w > 0
    ensures |detections| == result.Size()
    ensures result.Predictions? ==>
      forall i :: 0 <= i < |detections| ==> detections[i] == BuildDetection(result.preds[i], h, w)
  {
    detections := [];
    if result.Predictions? {
      var preds := result.preds;
      var k := 0;
      while k < |preds|
        invariant 0 <= k <= |preds|
        invariant |detections| == k
        invariant forall i :: 0 <= i < k ==> detections[i] == BuildDetection(preds[i], h, w)
      {
        detections := detections + [BuildDetection(preds[k], h, w)];
        k := k + 1;
      }
    }
  }

  /** The class labels of `ds`, in order. */
  function ClassesOf(ds: seq<Detection>): (cs: seq<string>)
    ensures |cs| == |ds|
    ensures forall i :: 0 <= i < |ds| ==> cs[i] == ds[i].cls
  {
    seq(|ds|, i requires 0 <= i < |ds| => ds[i].cls)
  }

  /** `sum(d['estimated_cost'] for d in ds)`. */
  function TotalCost(ds: seq<Detection>): nat
  {
    SumOf(ds, (d: Detection) => d.estimatedCost)
  }

  /**
   * The test `compare_images` applies to a return-side detection to judge
   * it new: its class is absent from the pickup labels, or occurs fewer
   * times there than among the return labels.
   */
  predicate IsNew(d: Detection, pickupClasses: seq<string>, returnClasses: seq<string>)
  {
    d.cls !in pickupClasses || Count(pickupClasses, d.cls) < Count(returnClasses, d.cls)
  }

  /**
   * The return detections judged new: an order-preserving selection of the
   * return list holding exactly those whose class the return photo shows
   * more often than the pickup photo.
   */
  function NewDamages(pickup: seq<Detection>, ret: seq<Detection>): (nd: seq<Detection>)
    ensures IsSubsequence(nd, ret)
    ensures forall d :: d in nd <==> d in ret && Count(ClassesOf(pickup), d.cls) < Count(ClassesOf(ret), d.cls)
  {
    var pc := ClassesOf(pickup);
    var rc := ClassesOf(ret);
    var nd := Filter(ret, (d: Detection) => IsNew(d, pc, rc));
    forall d | d in ret
      ensures IsNew(d, pc, rc) <==> Count(pc, d.cls) < Count(rc, d.cls)
    {
      ClassOfMember(ret, d);
    }
    nd
  }

  /** The class of every detection in a list is among the list's labels. */
  lemma ClassOfMember(ds: seq<Detection>, d: Detection)
    requires d in ds
    ensures d.cls in ClassesOf(ds)
  {
  }

  /**
   * `compare_images` on the two detection lists: both lists carried
   * through, the new damages selected, and their costs summed.
   */
  function Compare(pickup: seq<Detection>, ret: seq<Detection>): (c: Comparison)
    ensures c.pickupDamages == pickup && c.returnDamages == ret
    ensures c.newDamages == NewDamages(pickup, ret)
    ensures IsSubsequence(c.newDamages, ret)
    ensures c.totalNewCost == TotalCost(c.newDamages) <= TotalCost(ret)
  {
    var nd := NewDamages(pickup, ret);
    SumOfFilterBounded(ret, (d: Detection) => IsNew(d, ClassesOf(pickup), ClassesOf(ret)),
                       (d: Detection) => d.estimatedCost);
    Comparison(pickup, ret, nd, TotalCost(nd))
  }

  /** `compare_images`: detect on both photos, then compare. */
  method CompareImages(pickupResult: InferenceResult, ph: nat, pw: nat,
                       returnResult: InferenceResult, rh: nat, rw: nat) returns (c: Comparison)
    requires ph > 0 && pw > 0 && rh > 0 && rw > 0
    ensures |c.pickupDamages| == pickupResult.Size()
    ensures |c.returnDamages| == returnResult.Size()
    ensures pickupResult.Predictions? ==> forall i :: 0 <= i < |c.pickupDamages| ==>
      c.pickupDamages[i] == BuildDetection(pickupResult.preds[i], ph, pw)
    ensures returnResult.Predictions? ==> forall i :: 0 <= i < |c.returnDamages| ==>
      c.returnDamages[i] == BuildDetection(returnResult.preds[i], rh, rw)
    ensures c == Compare(c.pickupDamages, c.returnDamages)
  {
    var pickup := DetectDamages(pickupResult, ph, pw);
    var ret := DetectDamages(returnResult, rh, rw);
    c := Compare(pickup, ret);
  }

  /** Summing costs distributes over concatenation; nothing costs nothing. */
  lemma TotalCostAppend(a: seq<Detection>, b: seq<Detection>)
    ensures TotalCost(a + b) == TotalCost(a) + TotalCost(b)
    ensures TotalCost([]) == 0
  {
    SumOfAppend(a, b, (d: Detection) => d.estimatedCost);
  }

  /** The absent-from-pickup test is redundant: the per-class count test alone selects the same list. */
  lemma NewDamagesByCountOnly(pickup: seq<Detection>, ret: seq<Detection>)
    ensures NewDamages(pickup, ret) ==
      Filter(ret, (d: Detection) => Count(ClassesOf(pickup), d.cls) < Count(ClassesOf(ret), d.cls))
  {
    var pc := ClassesOf(pickup);
    var rc := ClassesOf(ret);
    forall i | 0 <= i < |ret|
      ensures IsNew(ret[i], pc, rc) == (Count(pc, ret[i].cls) < Count(rc, ret[i].cls))
    {
      ClassOfMember(ret, ret[i]);
    }
    FilterCongruent(ret, (d: Detection) => IsNew(d, pc, rc),
                    (d: Detection) => Count(pc, d.cls) < Count(rc, d.cls));
  }

  /**
   * Whole classes are new or not: among the new damages, a class occurs
   * either as often as in the return list or not at all.
   */
  lemma NewDamagesWholeClasses(pickup: seq<Detection>, ret: seq<Detection>, c: string)
    ensures Count(ClassesOf(NewDamages(pickup, ret)), c) ==
      if Count(ClassesOf(pickup), c) < Count(ClassesOf(ret), c) then Count(ClassesOf(ret), c) else 0
  {
    var pc := ClassesOf(pickup);
    var rc := ClassesOf(ret);
    var keep := (s: string) => s !in pc || Count(pc, s) < Count(rc, s);
    FilterCongruent(ret, (d: Detection) => IsNew(d, pc, rc), (d: Detection) => keep(d.cls));
    ClassCountOfFilter(ret, keep, c);
  }

  /** The labels of a list with one detection in front. */
  lemma ClassesOfCons(d: Detection, ds: seq<Detection>)
    ensures ClassesOf([d] + ds) == [d.cls] + ClassesOf(ds)
  {
  }

  /** The labels of the tail of a list are the tail of its labels. */
  lemma ClassesOfTail(xs: seq<Detection>)
    requires |xs| > 0
    ensures ClassesOf(xs[1..]) == ClassesOf(xs)[1..]
  {
  }

  /** The labels of the detections a class test keeps are the labels that test keeps. */
  lemma {:induction false} ClassesOfFilter(xs: seq<Detection>, keep: string -> bool)
    ensures ClassesOf(Filter(xs, (d: Detection) => keep(d.cls))) == Filter(ClassesOf(xs), keep)
  {
    if |xs| > 0 {
      var p := (d: Detection) => keep(d.cls);
      var rest := Filter(xs[1..], p);
      ClassesOfFilter(xs[1..], keep);
      ClassesOfTail(xs);
      if keep(xs[0].cls) {
        ClassesOfCons(xs[0], rest);
      }
    }
  }

  /** Filtering by a test on the class keeps each class wholly or drops it wholly. */
  lemma ClassCountOfFilter(xs: seq<Detection>, keep: string -> bool, c: string)
    ensures Count(ClassesOf(Filter(xs, (d: Detection) => keep(d.cls))), c) ==
      if keep(c) then Count(ClassesOf(xs), c) else 0
  {
    ClassesOfFilter(xs, keep);
  }

  /** When the pickup photo shows every class at least as often as the return photo, nothing is new. */
  lemma NothingNewWhenPickupCovers(pickup: seq<Detection>, ret: seq<Detection>)
    requires forall c :: Count(ClassesOf(ret), c) <= Count(ClassesOf(pickup), c)
    ensures NewDamages(pickup, ret) == []
    ensures Compare(pickup, ret).totalNewCost == 0
  {
  }

  /**
   * The count heuristic marks a whole class, not its excess: one damage at
   * pickup and two of the same class at return makes both return damages new.
   */
  lemma ExcessMarksWholeClass(p: Detection, r1: Detection, r2: Detection)
    requires p.cls == r1.cls == r2.cls
    ensures NewDamages([p], [r1, r2]) == [r1, r2]
  {
  }

  /** A return damage of a class absent at pickup is new. */
  lemma UnseenClassIsNew(r: Detection)
    ensures NewDamages([], [r]) == [r]
  {
  }

  /** Fewer damages of a class at return than at pickup makes none of them new. */
  lemma FewerAtReturnIsNotNew(p1: Detection, p2: Detection, r: Detection)
    requires p1.cls == p2.cls == r.cls
    ensures NewDamages([p1, p2], [r]) == []
  {
  }

  /**
   * A 100 by 100 box centred at (200, 200) labelled `front-bumper-dent` in a
   * 640 by 480 image covers about 3.3% of it: moderate, costing 300.
   */
  lemma FrontBumperScenario(conf: real)
    ensures BuildDetection(Prediction(200.0, 200.0, 100.0, 100.0, "front-bumper-dent", conf), 480, 640)
         == Detection(Box(150, 150, 250, 250), conf, "front-bumper-dent", Moderate, 300)
  {
  }
}
