# Posture scorer — a verified model

The posture app scores a photo of a seated or standing person from the 33 pose
landmarks that MediaPipe reports. It has two scorers:

* the **on-device scorer** in `App.js` (`analyzePostureFromLandmarks` with its
  helpers `calculateNeckAngle` and `calculateOverallConfidence`). It derives six
  measurements from the landmarks and grades each one against a ladder of
  thresholds. An issue (mild, moderate or severe) with impact text and five
  recommendations is pushed for every measurement past its first rung. The
  severities are summed into a severity score, which is turned into a 0–100
  posture score scaled by landmark visibility. Five assessment bands then label
  that score;
* the **Flask backends** (`posture_backend/working_posture_app.py` and the simpler
  `posture_backend/app.py`, which runs without TensorFlow). Each turns the landmarks into six readings with a
  0/1 flag each, lists an issue text and three tips per raised flag, and scores
  `max(0, 100 − 16.67 × flags)`. The working backend also derives a "Good / Fair /
  Poor" prediction from that score; the simpler one returns a fixed placeholder.

Modules, one per concern:

| file | module | what it holds |
|---|---|---|
| `wrappers.dfy` | `Wrappers` | `Option` and `Result` |
| `js_number.dfy` | `JsNumber` | JavaScript numbers (finite, ±Infinity, NaN), with division, `Math.abs`, `+`, `>` and `Math.round` |
| `geometry.dfy` | `Geometry` | landmarks, points, vectors, the transcendental functions as parameters, degrees |
| `pose.dfy` | `Pose` | MediaPipe landmark indices, the ear/shoulder/hip midpoints |
| `client_features.dfy` | `FeatureExtractor` | confidence, neck angle, the spinal deviation loop, the six measurements |
| `client_issues.dfy` | `IssueDetector` | severity ladders, the six checks, their texts, the issue list |
| `score.dfy` | `ScoreAggregator` | severity score, posture score, assessment bands |
| `client_analysis.dfy` | `PostureAnalysis` | `analyzePostureFromLandmarks` as a step-by-step method |
| `backend_report.dfy` | `BackendReport` | backend readings and flags, issue/tip lists, the 16.67 score |
| `working_backend.dfy` | `WorkingPostureApp` | `working_posture_app.py`: readings with absolute offsets, prediction |
| `simple_backend.dfy` | `PostureApp` | `app.py`: readings with signed offsets, placeholder prediction |

JavaScript arithmetic is modelled where it matters. `App.js` divides by
`Math.abs(...)` without guarding against zero, so `JsNumber.Div` returns
`+Infinity`, `-Infinity` or `NaN` exactly as JavaScript does. Every comparison
with `NaN` is false. `Math.sqrt`, `Math.atan2` and `Math.acos` (and their numpy
twins) are parameters of the model (`Geometry.Transcendentals`): the model applies
them to exactly the arguments the source passes. Results that hold for every
choice of these functions are proved for every choice. Results that need a
property of them, such as `sqrt(0) == 0` or `sqrt(x)² == x`, list it as a
`requires`.

The impact text and the five recommendations of an `App.js` issue are fixed by
its type, severity and detail: the elevated shoulder for a shoulder imbalance,
and the cervical condition for a curve. `IssueDetector.Issue` therefore stores
type, severity, detail and measurement. The two texts are the functions
`ImpactOf` and `RecommendationsOf`, whose strings are those of `App.js`.

## Model

| member | source | states |
|---|---|---|
| JsNumber.Div | App.js:971 | a quotient is finite exactly when the divisor is nonzero, and then it times the divisor gives the dividend; a zero divisor gives +Infinity, −Infinity or NaN by the sign of the dividend |
| JsNumber.Abs | App.js:1049 | `Math.abs` keeps NaN, maps both infinities to +Infinity and a finite value to its magnitude |
| JsNumber.Add | App.js:1085 | adding finite numbers is real addition; the sum is NaN exactly when an operand is NaN or infinities of opposite sign meet |
| JsNumber.AboveUpward | App.js:974 | a value past a threshold stays past it when it grows (in the order where NaN is only comparable to itself) |
| JsNumber.Above | App.js:974 | the strict `>` of every threshold check: NaN and −Infinity are never above a threshold, +Infinity always is, a finite value is when it is larger |
| JsNumber.Magnitude | App.js:1021 | the absolute value is non-negative and is the value or its negation |
| JsNumber.Round | App.js:1147 | `Math.round` lands within half a unit of its argument, halves rounding up |
| JsNumber.Max | App.js:1143 | `Math.max` is an upper bound of both arguments and equals one of them |
| JsNumber.Clamp | App.js:1199 | clamping lands inside the bounds, leaves a value already inside unchanged and maps values outside to the nearer bound |
| Geometry.Midpoint | App.js:946-959 | a midpoint is equally far (per coordinate) from both endpoints |
| Geometry.Minus | App.js:1177-1178 | the difference vector is zero exactly when the two points coincide |
| Geometry.SquaredLength | App.js:1180-1181 | a squared length is non-negative and zero for the zero vector |
| Geometry.Lagrange | App.js:1081-1083 | dot² + cross² equals the product of the squared lengths, the identity behind the perpendicular-distance formula |
| Geometry.Degrees | App.js:1020 | converting radians to degrees keeps the sign and zero |
| FeatureExtractor.VisibilitySumAtMost | App.js:1195-1197 | a visibility sum over n key points is at most n times any bound on each visibility |
| FeatureExtractor.VisibilitySumAtLeast | App.js:1195-1197 | a visibility sum over n key points is at least n times any lower bound on each |
| FeatureExtractor.VisibilityAt | App.js:1196 | the optional-chained visibility with 0 as fallback: a missing landmark or a missing visibility counts as 0, otherwise the visibility itself |
| FeatureExtractor.VisibilitySum | App.js:1195-1197 | the left-to-right `reduce` over the key indices; `VisibilitySumAtMost` and `VisibilitySumAtLeast` bound it by the count times a per-point bound |
| FeatureExtractor.MeanKeyVisibility | App.js:1194-1197 | the visibility sum over the nine key points (nose, eyes, ears, shoulders, hips) divided by nine, which `OverallConfidence` then clamps |
| FeatureExtractor.OverallConfidence | App.js:1193-1200 | confidence lies in 0.5..1: the mean visibility of the nine key points when that mean is in range, exactly 0.5 below it and exactly 1 above it |
| FeatureExtractor.ConfidenceOfUniformVisibility | App.js:1193-1200 | when all nine key points share one visibility v, the confidence is v clamped to 0.5..1 |
| FeatureExtractor.ConfidenceFloor | App.js:1196-1199 | visibility at most 0.5 at every key point (a missing one counts as 0) gives confidence exactly 0.5 |
| FeatureExtractor.ClampedCosine | App.js:1186-1187 | the cosine handed to `acos` always lies in −1..1 |
| FeatureExtractor.NeckAngle | App.js:1176-1190 | a zero-length neck or head vector gives the default angle 45 |
| FeatureExtractor.DegenerateNeckAngle | App.js:1183 | when the ear sits on the shoulder or the nose on the ear, the neck angle is 45 |
| FeatureExtractor.PerpendicularDistanceExact | App.js:1078-1083 | for a non-degenerate line the projection formula equals sqrt(cross² / line²), the true distance of the middle point from the line |
| FeatureExtractor.ExactDistanceFromProjection | App.js:1081-1083 | with an exact line length the projection formula yields the finite value sqrt(cross² / line²), never NaN |
| FeatureExtractor.SpinalDeviation | App.js:1068-1088 | the loop over interior points returns the chain's deviation, the sum of each interior point's perpendicular distance |
| FeatureExtractor.FeaturesOf | App.js:968-1111 | the seven measurements of one frame, each the measurement function whose contract is stated in its own row: head-forward ratio, shoulder-imbalance ratio and side, head tilt on the eye line, protraction, spinal deviation and neck angle |
| FeatureExtractor.ThreePointChain | App.js:1069-1086 | for the ear–shoulder–hip chain the deviation is the single perpendicular distance of the shoulder |
| FeatureExtractor.PerpendicularDistance | App.js:1078-1083 | the projection formula of one loop step; `PerpendicularDistanceExact` states that it is the true distance sqrt(cross² / line²) for a non-degenerate line |
| FeatureExtractor.DistanceFromProjection | App.js:1081-1083 | NaN for a zero line length (0/0 in the projection) or a negative radicand; `ExactDistanceFromProjection` states that with an exact line length the result is finite |
| FeatureExtractor.ChainDeviation | App.js:1070-1086 | the sum, in prefix order, of every interior point's perpendicular distance; `SpinalDeviation` and `ThreePointChain` state the loop's result and the three-point case |
| FeatureExtractor.HeadForwardRatio | App.js:970-971 | finite iff ear and shoulder midpoints differ in height, then non-negative and times the height gap equal to the horizontal offset; NaN iff the midpoints coincide; never −Infinity |
| FeatureExtractor.ShoulderImbalanceRatio | App.js:994-995 | finite iff the shoulder and hip midpoints differ in height, then non-negative and times that gap equal to the shoulder height difference; NaN iff both gaps are zero; never −Infinity |
| FeatureExtractor.LeftShoulderHigher | App.js:1000 | the left shoulder is the elevated one iff its y is smaller (image y grows downwards); `ShoulderCheck` states that the elevated side follows it |
| FeatureExtractor.HeadTiltAngle | App.js:1019-1020 | the signed eye-line angle in degrees: positive exactly when `atan2` of the eye vector is positive, and zero exactly when it is zero |
| FeatureExtractor.ShoulderProtraction | App.js:1045-1046 | finite iff the shoulders differ in x, then times the shoulder width equal to the signed shoulder-over-hip offset; NaN iff both are zero |
| IssueDetector.LadderBands | App.js:974-975 | a finite value is graded none, mild, moderate or severe exactly in the four bands cut by the three thresholds, all strict |
| IssueDetector.LadderMonotone | App.js:998-999 | a larger measurement never gets a lower rank on the same ladder |
| IssueDetector.LadderSpecialValues | App.js:971-975 | +Infinity grades severe; NaN and −Infinity raise no issue |
| IssueDetector.Weight | App.js:1138 | an issue's weight in the score is 3 for severe, 2 for moderate, 1 otherwise, so always between 1 and 3 |
| IssueDetector.Grade | App.js:975 | the nested ternary of each check; `LadderBands` states its three strict bands, `LadderMonotone` its monotonicity |
| IssueDetector.Classify | App.js:974-975 | no issue up to the emit threshold, else the grade; `LadderBands`, `LadderMonotone` and `LadderSpecialValues` state its bands, order and ±Infinity/NaN cases |
| IssueDetector.Impact | App.js:981-982 | the impact text by type and severity, with the strings of App.js:981-982, 1006-1007, 1032-1033, 1056-1057, 1097-1098 and 1122-1123 |
| IssueDetector.RecommendationsOf | App.js:1008-1014 | every issue carries exactly five recommendations |
| IssueDetector.CervicalSeverity | App.js:1114-1115 | severe outside 25..65, moderate outside 30..60 but inside 25..65, mild inside 30..60 |
| IssueDetector.ForwardHeadCheck | App.js:974-991 | an issue is pushed iff the head-forward ratio exceeds 0.15; it carries the ratio and the 0.15/0.25/0.35 ladder's grade |
| IssueDetector.ShoulderCheck | App.js:998-1016 | an issue is pushed iff the imbalance ratio exceeds 0.08, graded on 0.08/0.14/0.20, naming the left shoulder as elevated iff it is higher |
| IssueDetector.ShoulderAdviceNamesBothSides | App.js:1000-1010 | the first two tips name the elevated side and the opposite side, which differ |
| IssueDetector.HeadTiltCheck | App.js:1021-1042 | an issue is pushed iff the tilt magnitude exceeds 5°, graded on 5/10/15, clockwise iff the signed angle is positive |
| IssueDetector.RoundedShouldersCheck | App.js:1049-1066 | an issue is pushed iff the protraction's magnitude exceeds 0.12, graded on 0.12/0.18/0.25, reporting the magnitude |
| IssueDetector.SpinalCheck | App.js:1090-1107 | an issue is pushed iff the spinal deviation exceeds 0.08, graded on 0.08/0.12/0.15 |
| IssueDetector.CervicalCheck | App.js:1113-1132 | an issue is pushed iff the neck angle is outside 35..55, with the two-sided severity, loss of lordosis iff below 35 |
| IssueDetector.CervicalAdviceFollowsCondition | App.js:1116-1125 | the first tip is extension exercises below 35° and chin tucks above 55° |
| IssueDetector.BandDistance | App.js:1113 | the distance of the neck angle from the normal band is zero exactly inside 35..55 |
| IssueDetector.CervicalIsLadderOnBandDistance | App.js:1113-1115 | the two-sided cervical grading is an ordinary ladder (0, 5, 10) on the distance from the normal band |
| IssueDetector.DefaultNeckAngleIsNormal | App.js:1183 | the default neck angle 45 raises no cervical issue |
| IssueDetector.CheckReportsItsType | App.js:968-1132 | each of the six checks emits exactly when its trigger holds and only an issue of its own type |
| IssueDetector.ChecksInSlots | App.js:968-1132 | slot i of the six checks holds only an issue of the i-th type |
| IssueDetector.CollectMembers | App.js:963 | an issue is in the pushed list exactly when some check produced it |
| IssueDetector.CollectLength | App.js:1135-1136 | pushing at most once per check gives no more issues than checks |
| IssueDetector.CollectOrdered | App.js:968-1132 | checks in type order push issues in type order |
| IssueDetector.IssuesWellFormed | App.js:1135-1136 | a frame has at most six issues, one per type, in evaluation order |
| IssueDetector.IssueReportedIff | App.js:974-1113 | an issue of a type is listed if and only if that type's trigger holds |
| IssueDetector.IssuesInCheckOrder | App.js:968-1132 | the issue list is the concatenation of the six checks' outputs in source order |
| IssueDetector.TiltThresholdIsStrict | App.js:1024-1026 | exactly ±5° raises no tilt issue; just past it raises a mild one whose direction follows the sign |
| IssueDetector.Collect | App.js:976-1131 | the pushes of the checks in order; `CollectMembers`, `CollectLength` and `CollectOrdered` state membership, length and order |
| IssueDetector.IssuesOf | App.js:963-1132 | `analysis.issues`; `IssueReportedIff`, `IssuesWellFormed` and `IssuesInCheckOrder` state which issues it holds and in what order |
| ScoreAggregator.SeverityScoreAppend | App.js:1137-1140 | the severity sum of a concatenation is the sum of the parts' sums |
| ScoreAggregator.SeverityScoreBounds | App.js:1137-1140 | the severity sum lies between the issue count and three times it |
| ScoreAggregator.CollectedSeverity | App.js:1137-1140 | the severity sum of the pushed issues is the sum of each check's weight |
| ScoreAggregator.SeverityOfFeatures | App.js:1137-1140 | a frame's severity score is the sum of the six measurements' ladder ranks |
| ScoreAggregator.SeverityScoreOfFrame | App.js:1135-1142 | a frame's severity score is at most 18 (six issues, weight three) |
| ScoreAggregator.SeverityScore | App.js:1137-1140 | the weighted sum (mild 1, moderate 2, severe 3); `SeverityScoreAppend` and `SeverityScoreBounds` state additivity and the count bounds |
| ScoreAggregator.RawScore | App.js:1142-1143 | the raw score lies in 0..1, is 1 iff there is no severity and 0 iff the severity reaches 18, and is (18 − severity)/18 below that |
| ScoreAggregator.PostureScoreRange | App.js:1143-1147 | with confidence in 0..1 the posture score is an integer in 0..100 |
| ScoreAggregator.PostureScoreAntitone | App.js:1143-1147 | more severity never raises the posture score |
| ScoreAggregator.PostureScoreMonotoneInConfidence | App.js:1146-1147 | more confidence never lowers the posture score |
| ScoreAggregator.ScoreWithoutIssues | App.js:1143-1147 | a frame without issues scores its rounded confidence × 100, between 50 and 100 |
| ScoreAggregator.WorseFeaturesNeverScoreHigher | App.js:968-1147 | a frame that is worse in every measurement has no lower severity and no higher posture score |
| ScoreAggregator.Assess | App.js:1150-1170 | the bands: Excellent from 90, Good 75..89, Fair 60..74, Poor 40..59, Critical below 40 |
| ScoreAggregator.AssessMonotone | App.js:1150-1170 | a higher score never gets a worse band |
| ScoreAggregator.ConfidenceAloneDecidesAnIssueFreeFrame | App.js:1143-1165 | an issue-free frame with poorly visible key points scores exactly 50 and is rated Poor |
| ScoreAggregator.FullConfidenceWithoutIssues | App.js:1143-1153 | an issue-free, fully visible frame scores 100 and is rated Excellent |
| ScoreAggregator.PostureScore | App.js:1146-1147 | `Math.round(rawScore × confidence × 100)`; `PostureScoreRange`, `PostureScoreAntitone` and `PostureScoreMonotoneInConfidence` state its range and both monotonicities |
| ScoreAggregator.Label | App.js:1151-1167 | the assessment label of each band, with the strings of App.js; `Assess` states the bands |
| ScoreAggregator.QualityColor | App.js:1152-1168 | the colour of each band, with the colour codes of App.js |
| ScoreAggregator.StatusMessage | App.js:1153-1169 | the status message of each band, with the strings of App.js |
| PostureAnalysis.MeasurementsOf | App.js:972-1111 | the measurements record has exactly the six keys the analysis writes |
| PostureAnalysis.Push | App.js:976-990 | a found issue is appended at the end of the list; none leaves it unchanged |
| PostureAnalysis.AnalyzePostureFromLandmarks | App.js:903-1173 | fails with "Insufficient landmarks detected" iff the landmarks are missing or fewer than 33; otherwise every field is its specification, with score in 0..100, confidence in 0.5..1 and at most six issues |
| PostureAnalysis.LevelEarAndShoulder | App.js:970-975 | ear and shoulder at the same height give an infinite ratio and a severe forward-head issue, or NaN and no issue when they coincide |
| PostureAnalysis.CoincidentShoulders | App.js:1045-1050 | shoulders at the same x give infinite protraction and a severe rounded-shoulders issue, or no issue when shoulder and hip midpoints align |
| BackendReport.Flag | posture_backend/working_posture_app.py:81 | a flag is 1 exactly when its condition holds |
| BackendReport.NeckReadingOf | posture_backend/working_posture_app.py:105-124 | the neck flag is 1 iff the angle is more than 25° from 90°; a zero norm product gives 90° unflagged |
| BackendReport.DegenerateNeckReading | posture_backend/working_posture_app.py:118-120 | an ear on the shoulder or a shoulder on the hip gives 90° unflagged |
| BackendReport.Assemble | posture_backend/working_posture_app.py:78-103 | every flag of the assembled record is 1 iff its reading exceeds its limit (0.08, 0.05, 0.2, 0.05, 0.12) |
| BackendReport.ForwardHeadAndSlouchImplyMisalignment | posture_backend/working_posture_app.py:99-103 | when both offsets are flagged, the total misalignment is flagged too |
| BackendReport.Raised | posture_backend/working_posture_app.py:138-203 | the findings whose flag is 1, in check order; `RaisedMembers`, `RaisedCount` and `RaisedOrdered` state membership, count and order |
| BackendReport.RaisedMembers | posture_backend/working_posture_app.py:134-205 | a finding is listed iff its flag is 1 |
| BackendReport.RaisedCount | posture_backend/working_posture_app.py:321-328 | the number of listed findings is the flag sum, at most six |
| BackendReport.RaisedOrdered | posture_backend/working_posture_app.py:134-205 | findings are listed in the fixed check order |
| BackendReport.TotalIssues | posture_backend/working_posture_app.py:321-328 | the sum of the six flags; `RaisedCount` states that it is the number of listed findings, at most six |
| BackendReport.IssueText | posture_backend/working_posture_app.py:140-195 | the issue text of each finding, with the strings of the source; `TextListed` states that the six texts tell the findings apart |
| BackendReport.Advice | posture_backend/working_posture_app.py:141-202 | each recommendation entry carries the finding's label and exactly three tips, with the strings of the source |
| BackendReport.Texts | posture_backend/working_posture_app.py:140-195 | the i-th issue text is the text of the i-th finding |
| BackendReport.Advices | posture_backend/working_posture_app.py:141-204 | one recommendation per finding |
| BackendReport.AdvicesPointwise | posture_backend/working_posture_app.py:141-204 | the i-th recommendation is that of the i-th finding |
| BackendReport.IssueTextInjective | posture_backend/working_posture_app.py:140-195 | two findings with the same issue text are the same finding |
| BackendReport.TextListed | posture_backend/working_posture_app.py:140-195 | a finding's text is listed iff the finding is |
| BackendReport.RaisedInCheckOrder | posture_backend/working_posture_app.py:138-205 | the lists are the six conditional appends concatenated in order |
| BackendReport.NoteIfRaised | posture_backend/working_posture_app.py:139-148 | one `if` block appends the finding's text and recommendation iff its flag is 1 |
| BackendReport.IssuesAndRecommendations | posture_backend/working_posture_app.py:134-205 | returns the texts and recommendations of the raised findings in check order, as many as the flag sum |
| BackendReport.ListedIssues | posture_backend/working_posture_app.py:134-205 | the issue list has one entry per raised flag and names a finding iff its flag is 1 |
| BackendReport.PostureScore | posture_backend/working_posture_app.py:330 | the score lies in 0..100, is 100 iff no flag is raised, is 100 − 16.67 n for up to five flags and 0 for six |
| BackendReport.PostureScoreAntitone | posture_backend/working_posture_app.py:330 | more flags never raise the score |
| WorkingPostureApp.AnalyzePosture | posture_backend/working_posture_app.py:22-132 | no analysis iff there is no pose or a needed landmark is missing; otherwise each reading is its landmark measurement: the magnitudes of mid-ear x − mid-shoulder x, of the shoulder y difference, of the ear line's atan2 and of mid-shoulder x − mid-hip x, the neck angle and its flag as `NeckReadingOf` the three midpoints; every flag matches its reading and total misalignment is the sum of the two offsets |
| WorkingPostureApp.FlaggedPairRaisesAlignment | posture_backend/working_posture_app.py:78-103 | a frame with forward head and slouch flagged has alignment flagged |
| WorkingPostureApp.Prediction | posture_backend/working_posture_app.py:332-349 | Good (binary 1) from 80, Fair from 60, Poor below; probability is score/100 and confidence is max(0.7, probability): at least both, and equal to one of them |
| WorkingPostureApp.PredictionByIssueCount | posture_backend/working_posture_app.py:321-349 | at most one flag predicts Good, two Fair, three or more Poor |
| WorkingPostureApp.AnalyzeFrame | posture_backend/working_posture_app.py:306-349 | fails with the no-pose message iff analysis fails; otherwise issues, tips, count, score and prediction all follow from the readings |
| PostureApp.AnalyzePosture | posture_backend/app.py:20-118 | no analysis iff there is no pose or a needed landmark is missing; otherwise the forward-head offset is the signed mid-ear x − mid-shoulder x and the slouch offset the signed mid-shoulder x − mid-hip x, the shoulder difference and tilt are magnitudes as in the working backend, the neck angle and its flag are `NeckReadingOf` the three midpoints; every flag matches its reading and misalignment sums the two offsets' magnitudes |
| PostureApp.SignedOffsetsAgainstWorkingBackend | posture_backend/app.py:70-95 | both backends agree except on the two signed offsets, which are flagged less often, exactly when the offset is below minus its limit |
| PostureApp.LeftwardHeadIsNotFlagged | posture_backend/app.py:71-73 | a head 0.2 left of the shoulders is not flagged here, but is flagged by the working backend |
| PostureApp.AnalyzeFrame | posture_backend/app.py:246-275 | fails with "No pose detected in image" iff analysis fails; otherwise lists and score follow from the readings, with the fixed placeholder prediction |

## Left out

- Pose detection itself: MediaPipe (and the mock detector in `App.js`) is outside the model. Its result enters as an optional landmark list.
- Image decoding, file upload checks, metadata JSON, CORS, the health and test endpoints and the user interface are outside the scorer.
- The transcendental functions are parameters (see above); floating point is modelled as exact real arithmetic, so rounding error is not captured.
- `description` strings built with `toFixed` are not modelled; the detail they carry (elevated side, tilt direction, cervical condition) is the `Detail` of an issue.
- `IssueDetector.Issue` does not store the impact and recommendation strings. They are the functions `ImpactOf` and `RecommendationsOf` of type, severity and detail.
- `round(posture_score, 1)` in both backends' responses is not modelled. `BackendReport.PostureScore` is the unrounded score.
- The backends' `except` branches are modelled only as the missing-pose result. The neck-angle `except` in `working_posture_app.py` cannot trigger in the model, because the cosine is clipped before `acos`.
- The eyes' midpoint, the elbows and the hips that `App.js` fetches but never uses directly (the hips enter only through their midpoint), and the knee indices it declares, are not modelled; nor is the backends' unused nose.
- The `type` and `severity` fields of an `App.js` issue are the strings `'forward_head_posture'`, …, `'mild'`, …; the model keeps them as the enumerations `IssueType` and `Severity`, one value per string.
- `posture_model.py`, the ML training code and `test_app.py` are not part of this model.

## Findings

| source | as written | input that shows it | evidently intended | confidence | as-written member | corrected member |
|---|---|---|---|---|---|---|
| posture_backend/app.py:71-73 | `forward_head_distance` is the signed offset `mid_ear.x − mid_shoulder.x`, so only a head ahead in +x is flagged. The same file takes the magnitude of this offset for `total_misalignment` (line 91), and the slouch offset (lines 86-88) is signed the same way | mid-ear x = 0.3, mid-shoulder x = 0.5: offset −0.2, flag 0 | flag when the magnitude exceeds 0.08, as `working_posture_app.py:79` does | medium, not executed | PostureApp.LeftwardHeadIsNotFlagged | WorkingPostureApp.AnalyzePosture |
