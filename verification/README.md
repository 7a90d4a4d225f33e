# Vehicle damage interpretation, modelled in Dafny

This project models the decision logic of a vehicle damage assessment service. An
object-detection service returns raw predictions for a photo. Each prediction has a
centre-form box, a class label and a confidence. The `DamageDetector` turns each
prediction into a detection. A detection has an integer corner box, a severity
(`minor`, `moderate` or `severe`) and a repair-cost estimate in USD. The detector also
compares a pickup photo with a return photo and reports which return-side damages count
as new. The REST layer then summarises detections: a total cost, a severity breakdown, a
JSON view of each detection, a comparison summary, and the list of damage classes
grouped into keyword categories.

Modules, one per concept:

- `Seqs` (`seqs.dfy`): Python's `list.count`, filtering list comprehensions, and
  `sum(...)`, plus an order-preserving subsequence relation.
- `Options` (`options.dfy`): an optional value.
- `Catalog` (`catalog.dfy`): the 23 damage classes, the severity levels, the cost matrix
  and the cost lookup with its fallback of 100.
- `Geometry` (`geometry.dfy`): truncation toward zero (Python `int()` on a float) and
  corner-form boxes.
- `SeverityRule` (`severity.dfy`): the area-ratio rule with its two threshold tiers. The
  exact real ratio is used. An integer cross-multiplied form serves as an independent
  reference.
- `Detector` (`detector.dfy`): predictions, detections, `detect_damages` after the
  network call, and the pickup/return comparison.
- `Text` (`text.dfy`): ASCII lower-casing and substring search.
- `Api` (`api.dfy`): the pure summaries computed by the REST layer.

The inference call is replaced by an input of type `InferenceResult`. It is either
`NoPredictions` (the response has no `predictions` key) or a sequence of `Prediction`
records with `real` coordinates and confidence. The image's height and width are inputs.
Severity is the datatype `Catalog.Severity`, so every detection's severity is one of the
three levels by construction.

Two behaviours of the code are easy to misread, and the model keeps both:

- Corners are truncated toward zero with `int()` (detector.py:127-130). They are not
  rounded and not floored. The model uses `Geometry.Trunc`, and
  `Geometry.TruncIsNotFloor` shows that this differs from flooring on negative
  coordinates.
- When pickup has `p` and return has `r > p` damages of a class, every one of the `r`
  return damages of that class is new, not only the excess `r - p`
  (detector.py:252-255). `Detector.ExcessMarksWholeClass` proves this: one `A` at
  pickup and two `A`s at return make both return `A`s new.
  `Detector.NewDamagesWholeClasses` states the general rule.

## Model

| member | source | states |
|---|---|---|
| Seqs.Count | detector.py:254-255 | `list.count` is at most the list length, and it is zero exactly when the element is absent |
| Seqs.Filter | detector.py:252-255 | a filtering comprehension keeps only elements that satisfy the test and are in the input, keeps every such element, and preserves input order (subsequence); each element of the input occurs in the result exactly as often as in the input when it passes the test, and not at all otherwise |
| Seqs.SumOfFilterBounded | detector.py:257 | the cost sum over a filtered list never exceeds the sum over the whole list |
| Catalog.RepairCost | detector.py:139 | a declared class costs its matrix entry at that severity, a class without a row costs exactly 100 at any severity, and every cost is positive |
| Catalog.CoverageAndOrder | detector.py:18-59 | there are 23 classes; a string is a declared class exactly when it has a cost row; every row is positive and strictly increasing minor < moderate < severe |
| Catalog.CostIncreasesWithSeverity | detector.py:28-59 | for a declared class, a strictly higher severity costs strictly more |
| Catalog.UnknownClassCostIgnoresSeverity | detector.py:139 | for a class without a row, all three severities cost the fallback 100 |
| Catalog.TagRoundTrip | detector.py:174-187 | the three severity tags `minor`/`moderate`/`severe` read back to their severities, so they are distinct |
| Geometry.Trunc | detector.py:127-130 | `int()` on a coordinate gives the integer between 0 and the value that is less than one unit away from it (truncation toward zero) |
| Geometry.TruncMonotone | detector.py:127-130 | truncation preserves order, which keeps corners ordered for a non-negative extent |
| Geometry.TruncOdd | detector.py:127-130 | truncation commutes with negation |
| Geometry.TruncOfWhole | detector.py:127-130 | a whole-number coordinate is kept exactly |
| Geometry.TruncIsNotFloor | detector.py:127-130 | on -0.5 and -2.5, truncation gives 0 and -2 where flooring gives -1 and -3 |
| Geometry.OrderedBoxArea | detector.py:165 | a box with ordered corners has a non-negative area, which is zero exactly when one side is empty |
| SeverityRule.RatioAbove | detector.py:167-184 | comparing `bbox_area / img_area` with a threshold `p/q` is the same as comparing `q*area` with `p*img_area` |
| SeverityRule.SeverityOfArea | detector.py:164-187 | the severity equals the integer cross-multiplied rule: critical classes are severe above 1/20 and moderate above 1/50, other classes severe above 2/25 and moderate above 3/100; a non-positive area is minor |
| SeverityRule.EstimateSeverity | detector.py:151-187 | `_estimate_severity` on a corner box agrees with the cross-multiplied rule on `(x2-x1)*(y2-y1)` over `h*w`, and a box with area <= 0 is minor |
| SeverityRule.DegenerateBoxIsMinor | detector.py:165-187 | a box with zero width or zero height is minor for every class |
| SeverityRule.SeverityMonotoneInArea | detector.py:173-187 | for a fixed class and image, a larger box is never rated less severe |
| SeverityRule.CriticalNeverLower | detector.py:170-187 | for the same geometry, a critical class is never rated below a standard class |
| SeverityRule.ThresholdBoundaries | detector.py:174-187 | a ratio exactly at 0.05, 0.02, 0.08 or 0.03 falls into the tier below (strict `>`) |
| SeverityRule.CriticalTypesDeclared | detector.py:170-171 | the critical tier holds three classes, all of them declared classes |
| Detector.CornerBox | detector.py:124-130 | each corner is `int()` (`Geometry.Trunc`) of the exact corner `centre -/+ size/2`, so it lies within one pixel of it, and a non-negative width or height keeps x1 <= x2 or y1 <= y2 |
| Detector.BuildDetection | detector.py:122-147 | label and confidence are copied unchanged; the box is the truncated corner box; severity follows the cross-multiplied rule; cost is the matrix entry for a declared class and 100 for a class without a row; non-negative sizes give ordered corners |
| Detector.DetectDamages | detector.py:117-149 | exactly one detection per prediction, in input order, none dropped or merged; a response without `predictions` gives none |
| Detector.ClassesOf | detector.py:251 | the label list has one entry per detection, position by position |
| Detector.NewDamages | detector.py:250-255 | the new damages are an order-preserving selection of the return detections, containing exactly those whose class is counted fewer times among pickup labels than among return labels |
| Detector.Compare | detector.py:250-263 | both detection lists are carried through, the new damages are exactly `Detector.NewDamages` of the two lists (so an order-preserving selection of the return list), and `total_new_cost` is their cost sum, at most the return list's cost sum |
| Detector.CompareImages | detector.py:235-263 | the pickup and return lists hold one detection per prediction of each photo, and the result is the comparison of those two lists |
| Detector.TotalCostAppend | api.py:98 | the total cost of two lists joined is the sum of their totals, and no detections cost 0 |
| Detector.NewDamagesByCountOnly | detector.py:252-255 | the `not in pickup_classes` disjunct is redundant: the count test alone selects the same list |
| Detector.NewDamagesWholeClasses | detector.py:252-255 | among the new damages, each class occurs as often as in the return list when pickup shows it fewer times, and otherwise not at all |
| Detector.ClassesOfFilter | detector.py:251-255 | the labels of the detections kept by a test on their label are the labels that test keeps, in order |
| Detector.ClassCountOfFilter | detector.py:252-255 | filtering detections by any test on their class keeps all of a class or none of it: the per-class count is the full count or zero |
| Detector.NothingNewWhenPickupCovers | detector.py:252-257 | when pickup shows every class at least as often as return, nothing is new and the new cost is 0 |
| Detector.ExcessMarksWholeClass | detector.py:252-255 | one damage at pickup and two of the same class at return make both return damages new |
| Detector.UnseenClassIsNew | detector.py:252-253 | with no pickup damages, a return damage is new |
| Detector.FewerAtReturnIsNotNew | detector.py:252-255 | two damages of a class at pickup and one at return make nothing new |
| Detector.FrontBumperScenario | detector.py:124-146 | a 100x100 `front-bumper-dent` box centred at (200,200) in a 640x480 image becomes corners (150,150,250,250), moderate, cost 300 |
| Api.SeverityCountsPartition | api.py:120-124 | the minor, moderate and severe counts add up to the number of detections |
| Api.Breakdown | api.py:120-124 | the severity breakdown's three counts add up to the number of detections, and all are 0 for no detections |
| Api.BreakdownCons | api.py:120-124 | a detection in front adds one to the count of its own severity and leaves the other two counts unchanged; with the empty case, each count is the number of detections of that severity |
| Api.Summarize | api.py:117-124 | `total_damages` is the number of detections, `severity_breakdown` is `Api.Breakdown` of the detections and adds up to it, and `total_estimated_cost` is the cost sum, 0 for no detections |
| Api.ViewAll | api.py:126-140 | the response list has one entry per detection in the same order; each entry reads back to its detection, so class, severity, cost and confidence are unchanged; `bbox.x1..y2` are the corners in position order |
| Api.ViewInjective | api.py:127-138 | two different detections never get the same response entry |
| Api.RespondToComparison | api.py:203-223 | the summary reports the pickup and return sizes, a new-damage count no larger than the return count, and the new-damage total unchanged, at most the return cost sum; each listed entry reads back to the matching new damage |
| Api.Category | api.py:245-250 | a category is an order-preserving selection of the classes, holding exactly the classes whose lower-cased name contains one of the keywords |
| Api.ContainsAnyOfOne | api.py:245-247 | searching for one keyword is plain substring search |
| Api.ContainsAnyOfThree | api.py:248-249 | `any(x in s for x in [a, b, c])` is the disjunction of the three substring tests |
| Api.CategoryOfOne | api.py:245-247 | a one-keyword category holds exactly the classes whose lower-cased name contains the keyword |
| Api.CategoryOfThree | api.py:248-249 | the three-keyword category holds exactly the classes whose lower-cased name contains one of the keywords |
| Api.ListClasses | api.py:241-250 | `total_classes` equals the number of classes, 23; the classes are the declared list; `dents`, `scratches`, `paint` and `glass_lights` each hold exactly the classes whose lower-cased name contains their keyword(s), in declaration order |
| Text.Lower | api.py:245 | lower-casing keeps the length and replaces each character by its lower-case form, position by position |
| Text.LowerIdempotent | api.py:245 | a lower-cased name has no capitals left, so lower-casing twice changes nothing |
| Text.Contains | api.py:245-247 | the `in` test on strings holds exactly when the keyword occurs at some position of the name |
| Text.ContainsAny | api.py:248-249 | `any(...)` over keywords holds exactly when some keyword occurs in the name |

## Left out

- The Roboflow client, the `infer` call, JPEG and base64 encoding, and reading the image
  shape with `np.array` (detector.py:61-119). These are network and foreign-library
  calls. The response and the image's height and width are inputs.
- `draw_detections` (detector.py:189-233). It draws pixels with PIL, loads fonts and
  formats floats; none of it feeds the cost or severity logic.
- The `summary` message string of `compare_images` (detector.py:264). It is string
  formatting only.
- Every FastAPI endpoint, CORS, uploads, timestamps, the health check and the
  `/api/repair-costs` passthrough of the cost matrix. Only the pure values computed
  inside the endpoints are modelled.
- Api.ViewAll: the confidence is passed through unrounded. The source rounds it with
  `round(confidence, 4)` (api.py:129), which is float rounding.
- Api.RespondToComparison: the same unrounded confidence as `Api.ViewAll` (api.py:212).
- SeverityRule.EstimateSeverity: requires a positive height and width. For a zero-size
  image the source divides by zero (detector.py:167). Such an image cannot reach that
  line anyway, because JPEG encoding fails first (detector.py:110).
- Detector.DetectDamages: requires a positive height and width, for the same reason.
- Float arithmetic. Coordinates, confidences and the area ratio are exact reals, so
  rounding exactly at a threshold and NaN or infinite coordinates (on which `int()`
  raises) are not modelled.
- Text.Lower: lowers ASCII capitals only. Python's `str.lower` also lowers non-ASCII
  letters, but every class name is ASCII.
- The inner `.get(severity, 100)` default (detector.py:139) never applies, because every
  cost row has all three severities. The model's `CostRow` has exactly those three
  fields.
- Predictions that lack a key (a `KeyError` in the source) cannot occur, because a
  `Prediction` always has all six fields. The confidence is not range-checked, in the
  source or in the model.
- ui.py, main.py, config.py and test_suite.py. They are the UI, process launch,
  configuration and network-bound tests. ui.py repeats the api.py aggregations.
