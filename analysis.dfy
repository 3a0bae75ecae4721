/** One analysis pass: a report object whose three lists the eight checks append
    to, in place, and the handling of a detector result with no body in it. */
module PostureAnalysis {
  import opened Landmarks
  import opened PostureRules
  import opened Performance

  const NO_POSTURE := "Aucune posture détectée"

  /** The report shown when the detector found no body: one negative entry, no
      tip, no check run. */
  const NO_DETECTION_REPORT := Report([], [NO_POSTURE], [])

  /** The report under construction: three lists that only ever grow. */
  class Analysis {
    var positive: seq<string>
    var negative: seq<string>
    var tips: seq<string>

    constructor ()
      ensures Value() == EMPTY_REPORT
    {
      positive, negative, tips := [], [], [];
    }

    function Value(): Report
      reads this
    {
      Report(positive, negative, tips)
    }
  }

  method AnalyzeFeetPosition(lms: LandmarkSet, analysis: Analysis)
    modifies analysis
    ensures analysis.Value() == Record(old(analysis.Value()), FeetFindings(lms))
  {
    var leftFoot := At(lms, LEFT_FOOT_INDEX);
    var rightFoot := At(lms, RIGHT_FOOT_INDEX);
    if leftFoot.None? || rightFoot.None? { return; }
    var footDistance := Abs(leftFoot.value.x - rightFoot.value.x);
    if footDistance > FEET_MIN && footDistance < FEET_MAX {
      analysis.positive := analysis.positive + [FEET_STABLE];
    } else if footDistance > FEET_MAX {
      analysis.negative := analysis.negative + [FEET_TOO_WIDE];
      analysis.tips := analysis.tips + [FEET_TOO_WIDE_TIP];
    } else {
      analysis.negative := analysis.negative + [FEET_TOO_CLOSE];
      analysis.tips := analysis.tips + [FEET_TOO_CLOSE_TIP];
    }
  }

  /** The knee, hip and shoulder checks: one pair of slots that should be level. */
  method AnalyzeLevel(lms: LandmarkSet, left: nat, right: nat, level: string, uneven: string, tip: string,
                      analysis: Analysis)
    modifies analysis
    ensures analysis.Value() == Record(old(analysis.Value()), LevelFindings(lms, left, right, level, uneven, tip))
  {
    var l := At(lms, left);
    var r := At(lms, right);
    if l.None? || r.None? { return; }
    var alignment := Abs(l.value.y - r.value.y);
    if alignment < LEVEL_TOLERANCE {
      analysis.positive := analysis.positive + [level];
    } else {
      analysis.negative := analysis.negative + [uneven];
      analysis.tips := analysis.tips + [tip];
    }
  }

  method AnalyzeKneeAlignment(lms: LandmarkSet, analysis: Analysis)
    modifies analysis
    ensures analysis.Value() == Record(old(analysis.Value()), KneeFindings(lms))
  {
    AnalyzeLevel(lms, LEFT_KNEE, RIGHT_KNEE, KNEES_ALIGNED, KNEES_MISALIGNED, KNEES_TIP, analysis);
  }

  method AnalyzeHipPosition(lms: LandmarkSet, analysis: Analysis)
    modifies analysis
    ensures analysis.Value() == Record(old(analysis.Value()), HipFindings(lms))
  {
    AnalyzeLevel(lms, LEFT_HIP, RIGHT_HIP, HIPS_LEVEL, HIPS_UNEVEN, HIPS_TIP, analysis);
  }

  method AnalyzeShoulderAlignment(lms: LandmarkSet, analysis: Analysis)
    modifies analysis
    ensures analysis.Value() == Record(old(analysis.Value()), ShoulderFindings(lms))
  {
    AnalyzeLevel(lms, LEFT_SHOULDER, RIGHT_SHOULDER, SHOULDERS_ALIGNED, SHOULDERS_MISALIGNED, SHOULDERS_TIP, analysis);
  }

  method AnalyzeArmPosition(lms: LandmarkSet, analysis: Analysis)
    modifies analysis
    ensures analysis.Value() == Record(old(analysis.Value()), ArmFindings(lms))
  {
    var leftWrist := At(lms, LEFT_WRIST);
    var rightWrist := At(lms, RIGHT_WRIST);
    var leftElbow := At(lms, LEFT_ELBOW);
    var rightElbow := At(lms, RIGHT_ELBOW);
    if leftWrist.None? || rightWrist.None? || leftElbow.None? || rightElbow.None? { return; }
    var leftArmRaised := leftWrist.value.y < leftElbow.value.y;
    var rightArmRaised := rightWrist.value.y < rightElbow.value.y;
    if leftArmRaised || rightArmRaised {
      analysis.positive := analysis.positive + [ARM_IN_POSITION];
      var shootingWrist := if leftArmRaised then leftWrist.value else rightWrist.value;
      var shootingElbow := if leftArmRaised then leftElbow.value else rightElbow.value;
      if shootingWrist.y < shootingElbow.y - ARM_LIFT {
        analysis.positive := analysis.positive + [ARM_WELL_RAISED];
      } else {
        analysis.negative := analysis.negative + [ARM_TOO_LOW];
        analysis.tips := analysis.tips + [ARM_TOO_LOW_TIP];
      }
      ghost var vs := ArmFindings(lms);
      RecordPair(old(analysis.Value()), vs[0], vs[1]);
    } else {
      analysis.negative := analysis.negative + [NO_ARM_RAISED];
      analysis.tips := analysis.tips + [NO_ARM_RAISED_TIP];
    }
  }

  /** Pushes the elbow-angle classification of one arm. */
  method ClassifyElbow(theta: real, analysis: Analysis)
    modifies analysis
    ensures analysis.Value() == Add(old(analysis.Value()), ElbowVerdict(theta))
  {
    if theta > ELBOW_MIN && theta < ELBOW_MAX {
      analysis.positive := analysis.positive + [ELBOW_OPTIMAL];
    } else if theta < ELBOW_MIN {
      analysis.negative := analysis.negative + [ELBOW_TOO_CLOSED];
      analysis.tips := analysis.tips + [ELBOW_TOO_CLOSED_TIP];
    } else {
      analysis.negative := analysis.negative + [ELBOW_TOO_OPEN];
      analysis.tips := analysis.tips + [ELBOW_TOO_OPEN_TIP];
    }
  }

  method AnalyzeElbowAngle(lms: LandmarkSet, angle: AngleFn, analysis: Analysis)
    modifies analysis
    ensures analysis.Value() == Record(old(analysis.Value()), ElbowFindings(lms, angle))
  {
    var leftShoulder := At(lms, LEFT_SHOULDER);
    var leftElbow := At(lms, LEFT_ELBOW);
    var leftWrist := At(lms, LEFT_WRIST);
    var rightShoulder := At(lms, RIGHT_SHOULDER);
    var rightElbow := At(lms, RIGHT_ELBOW);
    var rightWrist := At(lms, RIGHT_WRIST);
    if leftShoulder.None? || leftElbow.None? || leftWrist.None?
       || rightShoulder.None? || rightElbow.None? || rightWrist.None? {
      return;
    }
    var leftElbowAngle := angle(leftShoulder.value, leftElbow.value, leftWrist.value);
    var rightElbowAngle := angle(rightShoulder.value, rightElbow.value, rightWrist.value);
    var leftArmHeight := leftWrist.value.y;
    var rightArmHeight := rightWrist.value.y;
    if leftArmHeight < rightArmHeight {
      ClassifyElbow(leftElbowAngle, analysis);
    } else if rightArmHeight < leftArmHeight {
      ClassifyElbow(rightElbowAngle, analysis);
    }
  }

  /** Pushes the centring classification of one wrist. */
  method ClassifyWrist(x: real, analysis: Analysis)
    modifies analysis
    ensures analysis.Value() == Add(old(analysis.Value()), WristVerdict(x))
  {
    if x < WRIST_MAX_X && x > WRIST_MIN_X {
      analysis.positive := analysis.positive + [WRIST_CENTERED];
    } else {
      analysis.negative := analysis.negative + [WRIST_OFF_CENTER];
      analysis.tips := analysis.tips + [WRIST_TIP];
    }
  }

  method AnalyzeWristPosition(lms: LandmarkSet, analysis: Analysis)
    modifies analysis
    ensures analysis.Value() == Record(old(analysis.Value()), WristFindings(lms))
  {
    var leftWrist := At(lms, LEFT_WRIST);
    var rightWrist := At(lms, RIGHT_WRIST);
    if leftWrist.None? || rightWrist.None? { return; }
    var leftArmHeight := leftWrist.value.y;
    var rightArmHeight := rightWrist.value.y;
    if leftArmHeight < rightArmHeight {
      ClassifyWrist(leftWrist.value.x, analysis);
    } else if rightArmHeight < leftArmHeight {
      ClassifyWrist(rightWrist.value.x, analysis);
    }
  }

  method AnalyzeHeadPosition(lms: LandmarkSet, analysis: Analysis)
    modifies analysis
    ensures analysis.Value() == Record(old(analysis.Value()), HeadFindings(lms))
  {
    var nose := At(lms, NOSE);
    var leftEye := At(lms, LEFT_EYE);
    var rightEye := At(lms, RIGHT_EYE);
    if nose.None? || leftEye.None? || rightEye.None? { return; }
    ghost var before := analysis.Value();
    var eyeAlignment := Abs(leftEye.value.y - rightEye.value.y);
    if eyeAlignment < LEVEL_TOLERANCE {
      analysis.positive := analysis.positive + [HEAD_ALIGNED];
    } else {
      analysis.negative := analysis.negative + [HEAD_TILTED];
      analysis.tips := analysis.tips + [HEAD_TILTED_TIP];
    }
    if nose.value.y < HEAD_MAX_Y {
      analysis.positive := analysis.positive + [HEAD_OPTIMAL];
    } else {
      analysis.negative := analysis.negative + [HEAD_TOO_LOW];
      analysis.tips := analysis.tips + [HEAD_TOO_LOW_TIP];
    }
    ghost var vs := HeadFindings(lms);
    RecordPair(before, vs[0], vs[1]);
  }

  /** The whole analysis of a detected body. The angle precomputation runs
      first and reads six landmarks without testing for them, so the call throws
      (here: returns None) when one is missing. Otherwise the eight checks run in
      their fixed order, each appending to the same report. */
  method AnalyzeBasketballPosture(lms: LandmarkSet, angle: AngleFn) returns (result: Option<Analysis>)
    ensures result.None? <==> !AnglesReadable(lms)
    ensures result.Some? ==> fresh(result.value) && result.value.Value() == Analyze(lms, angle)
  {
    var analysis := new Analysis();
    if !AnglesReadable(lms) {
      return None;
    }
    ghost var f1, f2, f3, f4 := FeetFindings(lms), KneeFindings(lms), HipFindings(lms), ShoulderFindings(lms);
    ghost var f5, f6, f7, f8 := ArmFindings(lms), ElbowFindings(lms, angle), WristFindings(lms), HeadFindings(lms);
    AnalyzeFeetPosition(lms, analysis);
    AnalyzeKneeAlignment(lms, analysis);
    RecordConcat(EMPTY_REPORT, f1, f2);
    AnalyzeHipPosition(lms, analysis);
    RecordConcat(EMPTY_REPORT, f1 + f2, f3);
    AnalyzeShoulderAlignment(lms, analysis);
    RecordConcat(EMPTY_REPORT, f1 + f2 + f3, f4);
    AnalyzeArmPosition(lms, analysis);
    RecordConcat(EMPTY_REPORT, f1 + f2 + f3 + f4, f5);
    AnalyzeElbowAngle(lms, angle, analysis);
    RecordConcat(EMPTY_REPORT, f1 + f2 + f3 + f4 + f5, f6);
    AnalyzeWristPosition(lms, analysis);
    RecordConcat(EMPTY_REPORT, f1 + f2 + f3 + f4 + f5 + f6, f7);
    AnalyzeHeadPosition(lms, analysis);
    RecordConcat(EMPTY_REPORT, f1 + f2 + f3 + f4 + f5 + f6 + f7, f8);
    result := Some(analysis);
  }

  /** The detector's callback. With no body detected the fixed one-entry report
      is shown; otherwise the analysis runs, and when it throws the callback
      shows no report and leaves the counters as they were (what the page does
      with the exception afterwards is outside the callback). A report the
      callback shows is counted in the running statistics. */
  method OnPoseResults(poseLandmarks: Option<LandmarkSet>, angle: AngleFn, stats: PerformanceStats)
    returns (outcome: Outcome)
    requires stats.Valid()
    modifies stats
    ensures stats.Valid()
    ensures poseLandmarks.None? ==> outcome == Completed(NO_DETECTION_REPORT)
    ensures poseLandmarks.Some? ==> outcome == AnalyzeAsWritten(poseLandmarks.value, angle)
    ensures outcome == Threw <==> poseLandmarks.Some? && !AnglesReadable(poseLandmarks.value)
    ensures outcome == Threw ==> unchanged(stats)
    ensures outcome.Completed? ==>
      stats.totalShots == old(stats.totalShots) + 1
      && stats.successfulShots == old(stats.successfulShots)
           + (if Accuracy(|outcome.report.positive|, |outcome.report.negative|) > 70 then 1 else 0)
      && stats.previousAccuracy == RoundedPercent(stats.successfulShots, stats.totalShots)
    ensures poseLandmarks.None? ==> stats.successfulShots == old(stats.successfulShots)
  {
    if poseLandmarks.None? {
      outcome := Completed(NO_DETECTION_REPORT);
    } else {
      var result := AnalyzeBasketballPosture(poseLandmarks.value, angle);
      if result.None? {
        return Threw;
      }
      outcome := Completed(result.value.Value());
    }
    var _, _, _ := stats.Update(outcome.report);
  }

  /** The no-detection report can never come out of an analysis: it has a
      negative entry without a tip, which no check produces. */
  lemma NoDetectionNotAnAnalysis(lms: LandmarkSet, angle: AngleFn)
    ensures Analyze(lms, angle) != NO_DETECTION_REPORT
  {
    AnalyzeNegativesMatchTips(lms, angle);
  }
}
