# Basketball shooting-posture analyzer — a Dafny model

This page takes a photo of a basketball shot. A third-party detector finds up to 33
body landmarks in normalised image coordinates, where y grows downward. Eight fixed
threshold checks then turn them into a report of three text lists: positive
observations, negative observations and tips. Each report also updates running
counters:

- shots analysed;
- shots counted as successful (more than 70% positive entries);
- the success rate and its change since the previous analysis.

This project models that rule engine and the counters in `script.js`.

The model has four modules:

- `landmarks.dfy` (`Landmarks`): a landmark is `Landmark(x, y)` over `real`, and a
  landmark set is `seq<Option<Landmark>>`. `At` reads a slot, and a slot past the
  end reads as missing. The constants are the slot numbers the checks use.
- `rules.dfy` (`PostureRules`):
  - the threshold classifications as pure functions (`FeetVerdict`, `LevelVerdict`,
    `ArmVerdicts`, `ElbowVerdict`, `WristVerdict`, `HeadHeightVerdict`);
  - each check over a landmark set as a function from the landmarks to its verdicts
    (`FeetFindings` … `HeadFindings`);
  - the report built from the verdicts (`Record`, `Analyze`), and lemmas about it;
  - `AnglesReadable` and `AnalyzeAsWritten`: before any check runs, the script
    computes two angles whose values it never uses. That step reads six landmarks
    without testing for them, so the whole analysis throws when one is missing.

  A `Verdict` is either `Positive(text)` or `Negative(text, tip)`. Every negative push
  in the checks is followed by its tip in the same branch, and this type records that
  pairing.
- `analysis.dfy` (`PostureAnalysis`): the imperative side. `Analysis` is a class with
  three `seq<string>` fields. Each check is a method that returns early when a
  landmark is missing and otherwise appends to those fields, branch for branch like
  the script. Each method is proved to leave
  `Record(old report, that check's verdicts)`. `AnalyzeBasketballPosture` returns
  `None` (the script throws) exactly when `AnglesReadable` fails. Otherwise it runs the
  eight checks in order and is proved equal to `Analyze`. `OnPoseResults` handles
  the "no posture detected" result, the throwing analysis, and the counter update.
- `performance.dfy` (`Performance`): `Math.round(100 * p / t)` in integers, as
  `(200p + t) / (2t)`. It is specified by its rounding interval,
  `(2r - 1)t <= 200p < (2r + 1)t`. The counters are a class whose `Update` method
  keeps `0 <= successfulShots <= totalShots` and `0 <= previousAccuracy <= 100`.

The elbow angle is computed in the script with `acos` and `sqrt`. Here it is a
parameter `angle: (Landmark, Landmark, Landmark) -> real`, and only its
classification is modelled.

Boundary behaviour follows the code:

- a feet distance of exactly 0.3 is "too close";
- an elbow angle of exactly 80 is "too open";
- a vertical gap of exactly 0.05 is negative;
- when both wrists are at the same height, the elbow and wrist checks add nothing,
  while the arm check still reports.

`FeetVerdict` and `ElbowVerdict` state the first two cases outright. A distance of
exactly 0.3 is "too close", not "too wide", because the "too wide" test is the strict
`d > 0.3` (script.js:141-147). An angle of exactly 80 is "too open", not "too
closed", because the "too closed" test is the strict `θ < 80` (script.js:258-263).

## Model

| member | source | states |
|---|---|---|
| `PostureRules.FeetVerdict` | script.js:138-148 | exactly one outcome: stable iff 0.1 < d < 0.3, too wide iff d > 0.3, too close iff d <= 0.1 or d == 0.3, with the matching tip |
| `PostureRules.LevelVerdict` | script.js:158-165 | positive iff the vertical gap is strictly below 0.05 (so 0.05 is negative), with the check's own texts and tip |
| `PostureRules.ArmVerdicts` | script.js:211-231 | neither wrist above its elbow iff the single verdict is "no arm" plus its tip; otherwise "arm in position" then, for the left arm when it is raised and else the right, "well raised" iff wrist.y < elbow.y - 0.1, or else "not raised enough" plus its tip |
| `PostureRules.HigherWrist` | script.js:286-298 | the shooting side is the strictly higher wrist; equal heights select no side |
| `PostureRules.ElbowVerdict` | script.js:256-264 | optimal iff 80 < θ < 120, too closed iff θ < 80, too open iff θ == 80 or θ >= 120, with the matching tip |
| `PostureRules.WristVerdict` | script.js:292-297 | centred iff 0.4 < x < 0.6, otherwise off-centre plus its tip |
| `PostureRules.HeadHeightVerdict` | script.js:327-333 | optimal iff nose.y < 0.4, otherwise too low plus its tip |
| `PostureRules.FeetFindings` | script.js:132-149 | no verdict iff a foot is missing; otherwise exactly one, the feet classification of abs(xL - xR) |
| `PostureRules.LevelFindings` | script.js:152-200 | knee, hip and shoulder checks: no verdict iff a landmark of the pair is missing; otherwise exactly one, positive iff the gap is under 0.05 |
| `PostureRules.ArmFindings` | script.js:203-232 | no verdict iff one of the two wrists or two elbows is missing; otherwise the arm classification |
| `PostureRules.ElbowFindings` | script.js:235-277 | at most one verdict; one iff all six arm landmarks are present and the wrists differ in height; it classifies the angle of the higher wrist's arm |
| `PostureRules.WristFindings` | script.js:280-307 | at most one verdict; one iff both wrists are present at different heights; it is the centring verdict `WristVerdict` of the higher wrist's x, positive iff x is in (0.4, 0.6) |
| `PostureRules.HeadFindings` | script.js:310-334 | no verdict iff nose or an eye is missing; otherwise exactly two: first "head aligned" iff the eye gap is under 0.05, else "head tilted" with its tip; then the nose-height verdict |
| `PostureRules.RecordAppends` | script.js:141-147 | pushing verdicts only appends: each list becomes its old contents followed by exactly the texts of its verdicts |
| `PostureRules.NegativesPairWithTips` | script.js:141-147 | the negative texts and the tips of any verdict run have equal length, and the i-th pair comes from one verdict |
| `PostureRules.EntriesPerVerdict` | script.js:141-147 | every verdict adds exactly one entry to the positive or the negative list |
| `PostureRules.ListsOfConcat` | script.js:81-88 | the lists gathered from two verdict runs in a row are those of the first followed by those of the second |
| `PostureRules.RecordConcat` | script.js:81-88 | pushing two verdict runs one after the other equals pushing their concatenation |
| `PostureRules.AnalyzeNegativesMatchTips` | script.js:69-91 | for every landmark set and angle, the report has one tip per negative entry, and each (negative, tip) pair is a verdict of one check |
| `PostureRules.AnalyzeInCheckOrder` | script.js:81-88 | each list of the report is the concatenation of the checks' contributions in the fixed order feet, knees, hips, shoulders, arm, elbow, wrist, head |
| `PostureRules.AnalyzeAllAbsent` | script.js:132-334 | with every slot empty each check's presence guard skips it: no verdicts, three empty lists |
| `PostureRules.AnalyzeAsWritten` | script.js:76-91 | the analysis throws iff one of slots 11, 13, 15, 23, 25, 27 is missing (read unguarded at script.js:98-106, dereferenced at 339-344); otherwise its report is `Analyze` |
| `PostureRules.AllAbsentThrows` | script.js:76-77 | a detection with every slot empty (or too short to reach slot 11) throws |
| `PostureRules.FeetOnlySetThrows` | script.js:98-106 | on a 33-slot set with only the feet, 0.2 apart, the checks alone report one stable stance while the script throws |
| `PostureRules.TiedWristsSkipElbowAndWrist` | script.js:254-306 | with equal wrist heights the arm check still reports while the elbow and wrist checks add nothing |
| `PostureRules.AnalyzeAtMostTenEntries` | script.js:81-88 | one analysis yields at most ten positive and negative entries in total |
| `PostureAnalysis.Analysis.constructor` | script.js:70-74 | a new report has three empty lists |
| `PostureAnalysis.AnalyzeFeetPosition` | script.js:132-149 | appends exactly the feet verdicts to the caller's report; earlier entries unchanged |
| `PostureAnalysis.AnalyzeLevel` | script.js:152-166 | appends exactly the levelness verdicts of one slot pair to the caller's report |
| `PostureAnalysis.AnalyzeKneeAlignment` | script.js:152-166 | appends exactly the knee verdicts |
| `PostureAnalysis.AnalyzeHipPosition` | script.js:169-183 | appends exactly the hip verdicts |
| `PostureAnalysis.AnalyzeShoulderAlignment` | script.js:186-200 | appends exactly the shoulder verdicts |
| `PostureAnalysis.AnalyzeArmPosition` | script.js:203-232 | appends exactly the arm verdicts |
| `PostureAnalysis.ClassifyElbow` | script.js:256-264 | appends the elbow classification of one angle |
| `PostureAnalysis.AnalyzeElbowAngle` | script.js:235-277 | appends exactly the elbow verdicts |
| `PostureAnalysis.ClassifyWrist` | script.js:292-297 | appends the centring classification of one wrist |
| `PostureAnalysis.AnalyzeWristPosition` | script.js:280-307 | appends exactly the wrist verdicts |
| `PostureAnalysis.AnalyzeHeadPosition` | script.js:310-334 | appends exactly the two head verdicts |
| `PostureAnalysis.AnalyzeBasketballPosture` | script.js:69-91 | `None` (throws) iff `AnglesReadable` fails; otherwise a fresh report whose value is `Analyze(landmarks, angle)` |
| `PostureAnalysis.OnPoseResults` | script.js:52-66 | no detection shows exactly `{[], ["Aucune posture détectée"], []}`; a detection gives `AnalyzeAsWritten`; it throws iff landmarks were detected and `AnglesReadable` fails, and then the counters are unchanged; a shown report adds one shot, adds one success iff its accuracy exceeds 70, and sets the previous rate to the rounded success rate; a no-detection never counts as successful |
| `PostureAnalysis.NoDetectionNotAnAnalysis` | script.js:53-55 | no analysis of any landmark set equals the no-detection report, which has a negative entry without a tip |
| `Performance.RoundedPercent` | script.js:476 | r is 100p/t rounded half up: (2r - 1)t <= 200p < (2r + 1)t, and r <= 100 when p <= t |
| `Performance.Accuracy` | script.js:471-476 | 0 for a report with no positive or negative entries, otherwise the rounded share of positives; always in [0, 100] |
| `Performance.SuccessfulExactly` | script.js:476-480 | accuracy > 70 iff there are entries and 200 * positives >= 141 * (positives + negatives), i.e. at least 70.5% positive |
| `Performance.PerformanceStats.constructor` | script.js:24-29 | the counters start at zero |
| `Performance.PerformanceStats.Update` | script.js:467-487 | totalShots + 1; successfulShots + 1 iff accuracy > 70; currentAccuracy is the rounded success rate in [0, 100]; progression = currentAccuracy - old previousAccuracy; previousAccuracy becomes currentAccuracy; 0 <= successfulShots <= totalShots is kept |
| `Performance.ThreeShots` | script.js:479-480 | three analyses with accuracies 80, 60 and 90 leave 3 shots, 2 successful |

## Left out

- `calculateAngle` (script.js:337-353): floating-point `acos`/`sqrt`. The angle is a
  parameter of the elbow check and of `Analyze`.
- `calculateAngles` (script.js:94-110): the angle values are never read. Only the
  throw caused by its unguarded reads is modelled, as `AnglesReadable`.
- `calculatePositions` (script.js:113-129): it only copies slots (an out-of-range
  read gives `undefined` and does not throw), and its result is never read.
- `OnPoseResults`: what happens to the exception after it leaves the callback is not
  modelled. The callback runs inside the detector library's `pose.send`, which is
  not part of this model. If the library rejects the promise awaited at
  script.js:591, the catch at script.js:592-598 shows the error report (one
  negative entry, one tip) and `showFeedback` counts it as a shot with accuracy 0.
- `ElbowVerdict`: a NaN angle is not modelled, because the angle is a `real`.
  `calculateAngle` gives NaN when the shoulder or the wrist coincides with the elbow
  (0 / 0 at script.js:348-351). Every comparison with NaN is false, so the script
  classifies it "too open" (script.js:256-263, 267-274). The model reaches "too open"
  only for θ == 80 or θ >= 120.
- Detector set-up and the asynchronous detector call (script.js:32-49, 584-591). The
  detector's result is the `Option<LandmarkSet>` input of `OnPoseResults`.
- Canvas drawing (script.js:356-427), list rendering and section visibility in
  `showFeedback` (script.js:430-464): presentation only. Only the stats update that
  `showFeedback` makes is modelled.
- `analysisTime` (script.js:468, 481): a wall-clock reading.
- `animateValue` (script.js:497-525): display animation.
- File upload, drag-and-drop, the image-type check, the parallax effect and the
  button handlers (script.js:528-686): browser input and UI.
- Landmark visibility scores: no check reads them.
- IEEE-754 rounding: the model uses exact reals and integers. For example,
  `|0.4 - 0.1|` in doubles is not exactly 0.3, and the script's `(p / t) * 100`
  is computed in doubles before `Math.round`.

## Findings

| source | as written | input that shows it | evidently intended | confidence | as-written member | corrected member |
|---|---|---|---|---|---|---|
| script.js:77 | `calculateAngles` passes slots 11, 13, 15, 23, 25 and 27 to `calculateAngle` without a presence test (script.js:98-106), which reads `.x` on them (script.js:339). A missing one throws a TypeError before any check runs, so the callback shows no report and counts no shot. | a 33-slot detection with only the feet (slots 31 and 32, x = 0.4 and 0.6) | every check tests its own landmarks and skips when they are missing (script.js:136, 156, 173, 190, 209, 244, 284, 315), and the computed angles are never used, so a missing landmark should only skip the checks that need it | not executed | `PostureRules.FeetOnlySetThrows` | `PostureRules.AnalyzeAllAbsent` |
