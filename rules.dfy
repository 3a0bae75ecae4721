/** The posture rules: what each of the eight checks concludes from the landmarks,
    and the report that concluding them in order produces. Every check yields a
    list of verdicts; a negative verdict always carries its tip, which is how the
    checks keep one tip per negative entry. */
module PostureRules {
  import opened Landmarks

  /** One conclusion of a check: a positive entry, or a negative entry with its tip. */
  datatype Verdict = Positive(text: string) | Negative(text: string, tip: string)

  /** The three lists of feedback, in the order the entries were added. */
  datatype Report = Report(positive: seq<string>, negative: seq<string>, tips: seq<string>)

  const EMPTY_REPORT := Report([], [], [])

  // Thresholds, in normalised image units except the elbow angle (degrees).
  const FEET_MIN: real := 0.1
  const FEET_MAX: real := 0.3
  const LEVEL_TOLERANCE: real := 0.05
  const ARM_LIFT: real := 0.1
  const ELBOW_MIN: real := 80.0
  const ELBOW_MAX: real := 120.0
  const WRIST_MIN_X: real := 0.4
  const WRIST_MAX_X: real := 0.6
  const HEAD_MAX_Y: real := 0.4

  // The feedback texts, as the page shows them.
  const FEET_STABLE := "Position des pieds stable et équilibrée"
  const FEET_TOO_WIDE := "Les pieds sont trop écartés"
  const FEET_TOO_WIDE_TIP := "Gardez les pieds à largeur d'épaules pour un meilleur équilibre"
  const FEET_TOO_CLOSE := "Les pieds sont trop rapprochés"
  const FEET_TOO_CLOSE_TIP := "Écartez légèrement les pieds pour plus de stabilité"
  const KNEES_ALIGNED := "Alignement des genoux correct"
  const KNEES_MISALIGNED := "Genoux mal alignés"
  const KNEES_TIP := "Assurez-vous que vos genoux sont à la même hauteur"
  const HIPS_LEVEL := "Position des hanches équilibrée"
  const HIPS_UNEVEN := "Hanches déséquilibrées"
  const HIPS_TIP := "Maintenez vos hanches de niveau"
  const SHOULDERS_ALIGNED := "Épaules bien alignées"
  const SHOULDERS_MISALIGNED := "Épaules désalignées"
  const SHOULDERS_TIP := "Gardez vos épaules de niveau et détendues"
  const ARM_IN_POSITION := "Bras de tir en position"
  const ARM_WELL_RAISED := "Bras de tir bien élevé"
  const ARM_TOO_LOW := "Le bras de tir n'est pas assez élevé"
  const ARM_TOO_LOW_TIP := "Élevez davantage votre bras de tir au-dessus de votre tête"
  const NO_ARM_RAISED := "Aucun bras n'est en position de tir"
  const NO_ARM_RAISED_TIP := "Levez votre bras de tir au-dessus de votre tête"
  const ELBOW_OPTIMAL := "Angle du coude optimal pour le tir"
  const ELBOW_TOO_CLOSED := "Angle du coude trop fermé"
  const ELBOW_TOO_CLOSED_TIP := "Ouvrez davantage votre coude pour un meilleur arc de tir"
  const ELBOW_TOO_OPEN := "Angle du coude trop ouvert"
  const ELBOW_TOO_OPEN_TIP := "Fermez légèrement votre coude pour plus de contrôle"
  const WRIST_CENTERED := "Position du poignet centrée"
  const WRIST_OFF_CENTER := "Poignet décentré"
  const WRIST_TIP := "Centrez votre poignet par rapport à votre corps"
  const HEAD_ALIGNED := "Tête bien alignée"
  const HEAD_TILTED := "Tête inclinée"
  const HEAD_TILTED_TIP := "Gardez votre tête droite et regardez vers le panier"
  const HEAD_OPTIMAL := "Tête en position optimale"
  const HEAD_TOO_LOW := "Tête trop basse"
  const HEAD_TOO_LOW_TIP := "Relevez légèrement votre menton"

  // ---------------------------------------------------------------------------
  // Threshold classifications

  /** Feet stance from the horizontal distance between the feet. A distance of
      exactly FEET_MAX is neither in the stable band nor "too wide": it is
      classified as "too close". */
  function FeetVerdict(d: real): (v: Verdict)
    ensures v == Positive(FEET_STABLE) <==> FEET_MIN < d < FEET_MAX
    ensures v == Negative(FEET_TOO_WIDE, FEET_TOO_WIDE_TIP) <==> d > FEET_MAX
    ensures v == Negative(FEET_TOO_CLOSE, FEET_TOO_CLOSE_TIP) <==> d <= FEET_MIN || d == FEET_MAX
  {
    if d > FEET_MIN && d < FEET_MAX then Positive(FEET_STABLE)
    else if d > FEET_MAX then Negative(FEET_TOO_WIDE, FEET_TOO_WIDE_TIP)
    else Negative(FEET_TOO_CLOSE, FEET_TOO_CLOSE_TIP)
  }

  /** The rule shared by knees, hips, shoulders and eyes: two parts are level when
      their vertical gap is strictly below LEVEL_TOLERANCE. */
  function LevelVerdict(gap: real, level: string, uneven: string, tip: string): (v: Verdict)
    ensures v.Positive? <==> gap < LEVEL_TOLERANCE
    ensures v.Positive? ==> v.text == level
    ensures v.Negative? ==> v.text == uneven && v.tip == tip
  {
    if gap < LEVEL_TOLERANCE then Positive(level) else Negative(uneven, tip)
  }

  /** A wrist is raised when it is above its own elbow (smaller y). */
  predicate Raised(wrist: Landmark, elbow: Landmark)
  {
    wrist.y < elbow.y
  }

  /** Shooting-arm position. When both arms are raised the left one is the
      shooting arm. */
  function ArmVerdicts(leftWrist: Landmark, rightWrist: Landmark, leftElbow: Landmark, rightElbow: Landmark): (vs: seq<Verdict>)
    ensures (!Raised(leftWrist, leftElbow) && !Raised(rightWrist, rightElbow)) <==>
            vs == [Negative(NO_ARM_RAISED, NO_ARM_RAISED_TIP)]
    ensures (Raised(leftWrist, leftElbow) || Raised(rightWrist, rightElbow)) <==>
            (|vs| == 2 && vs[0] == Positive(ARM_IN_POSITION))
    ensures |vs| == 2 && Raised(leftWrist, leftElbow) ==>
            (vs[1] == Positive(ARM_WELL_RAISED) <==> leftWrist.y < leftElbow.y - ARM_LIFT)
    ensures |vs| == 2 && !Raised(leftWrist, leftElbow) ==>
            (vs[1] == Positive(ARM_WELL_RAISED) <==> rightWrist.y < rightElbow.y - ARM_LIFT)
    ensures |vs| == 2 ==> vs[1] == Positive(ARM_WELL_RAISED) || vs[1] == Negative(ARM_TOO_LOW, ARM_TOO_LOW_TIP)
  {
    var leftRaised := Raised(leftWrist, leftElbow);
    if leftRaised || Raised(rightWrist, rightElbow) then
      var wrist := if leftRaised then leftWrist else rightWrist;
      var elbow := if leftRaised then leftElbow else rightElbow;
      [ Positive(ARM_IN_POSITION),
        if wrist.y < elbow.y - ARM_LIFT then Positive(ARM_WELL_RAISED)
        else Negative(ARM_TOO_LOW, ARM_TOO_LOW_TIP) ]
    else
      [Negative(NO_ARM_RAISED, NO_ARM_RAISED_TIP)]
  }

  datatype Side = Left | Right

  /** The side whose wrist is strictly higher, as the elbow and wrist checks pick
      it; None when both wrists are at the same height. */
  function HigherWrist(leftWrist: Landmark, rightWrist: Landmark): (s: Option<Side>)
    ensures s == Some(Left) <==> leftWrist.y < rightWrist.y
    ensures s == Some(Right) <==> rightWrist.y < leftWrist.y
    ensures s == None <==> leftWrist.y == rightWrist.y
  {
    if leftWrist.y < rightWrist.y then Some(Left)
    else if rightWrist.y < leftWrist.y then Some(Right)
    else None
  }

  /** Elbow angle of the shooting arm, in degrees. An angle of exactly ELBOW_MIN
      is neither optimal nor "too closed": it is classified as "too open". */
  function ElbowVerdict(theta: real): (v: Verdict)
    ensures v == Positive(ELBOW_OPTIMAL) <==> ELBOW_MIN < theta < ELBOW_MAX
    ensures v == Negative(ELBOW_TOO_CLOSED, ELBOW_TOO_CLOSED_TIP) <==> theta < ELBOW_MIN
    ensures v == Negative(ELBOW_TOO_OPEN, ELBOW_TOO_OPEN_TIP) <==> theta == ELBOW_MIN || theta >= ELBOW_MAX
  {
    if theta > ELBOW_MIN && theta < ELBOW_MAX then Positive(ELBOW_OPTIMAL)
    else if theta < ELBOW_MIN then Negative(ELBOW_TOO_CLOSED, ELBOW_TOO_CLOSED_TIP)
    else Negative(ELBOW_TOO_OPEN, ELBOW_TOO_OPEN_TIP)
  }

  /** Horizontal position of the shooting wrist: centred strictly inside the band. */
  function WristVerdict(x: real): (v: Verdict)
    ensures v == Positive(WRIST_CENTERED) <==> WRIST_MIN_X < x < WRIST_MAX_X
    ensures v == Negative(WRIST_OFF_CENTER, WRIST_TIP) <==> x <= WRIST_MIN_X || x >= WRIST_MAX_X
  {
    if x < WRIST_MAX_X && x > WRIST_MIN_X then Positive(WRIST_CENTERED)
    else Negative(WRIST_OFF_CENTER, WRIST_TIP)
  }

  /** Height of the head: the nose must be strictly above HEAD_MAX_Y. */
  function HeadHeightVerdict(noseY: real): (v: Verdict)
    ensures v == Positive(HEAD_OPTIMAL) <==> noseY < HEAD_MAX_Y
    ensures v == Negative(HEAD_TOO_LOW, HEAD_TOO_LOW_TIP) <==> noseY >= HEAD_MAX_Y
  {
    if noseY < HEAD_MAX_Y then Positive(HEAD_OPTIMAL) else Negative(HEAD_TOO_LOW, HEAD_TOO_LOW_TIP)
  }

  // ---------------------------------------------------------------------------
  // The eight checks over a landmark set

  predicate Both(lms: LandmarkSet, left: nat, right: nat)
  {
    At(lms, left).Some? && At(lms, right).Some?
  }

  predicate ArmPresent(lms: LandmarkSet)
  {
    Both(lms, LEFT_WRIST, RIGHT_WRIST) && Both(lms, LEFT_ELBOW, RIGHT_ELBOW)
  }

  predicate ElbowPresent(lms: LandmarkSet)
  {
    Both(lms, LEFT_SHOULDER, RIGHT_SHOULDER) && ArmPresent(lms)
  }

  predicate HeadPresent(lms: LandmarkSet)
  {
    At(lms, NOSE).Some? && Both(lms, LEFT_EYE, RIGHT_EYE)
  }

  /** Vertical gap between the landmarks of two present slots. */
  function Gap(lms: LandmarkSet, left: nat, right: nat): real
    requires Both(lms, left, right)
  {
    Abs(At(lms, left).value.y - At(lms, right).value.y)
  }

  function FeetFindings(lms: LandmarkSet): (vs: seq<Verdict>)
    ensures vs == [] <==> !Both(lms, LEFT_FOOT_INDEX, RIGHT_FOOT_INDEX)
    ensures vs != [] ==>
      |vs| == 1 && vs[0] == FeetVerdict(Abs(At(lms, LEFT_FOOT_INDEX).value.x - At(lms, RIGHT_FOOT_INDEX).value.x))
  {
    match (At(lms, LEFT_FOOT_INDEX), At(lms, RIGHT_FOOT_INDEX))
    case (Some(leftFoot), Some(rightFoot)) => [FeetVerdict(Abs(leftFoot.x - rightFoot.x))]
    case _ => []
  }

  /** A levelness check over a pair of slots: nothing when either is missing,
      otherwise exactly one verdict, positive iff the gap is under tolerance. */
  function LevelFindings(lms: LandmarkSet, left: nat, right: nat, level: string, uneven: string, tip: string): (vs: seq<Verdict>)
    ensures vs == [] <==> !Both(lms, left, right)
    ensures vs != [] ==> |vs| == 1 && (vs[0].Positive? <==> Gap(lms, left, right) < LEVEL_TOLERANCE)
    ensures vs != [] ==> vs[0] == Positive(level) || vs[0] == Negative(uneven, tip)
  {
    match (At(lms, left), At(lms, right))
    case (Some(l), Some(r)) => [LevelVerdict(Abs(l.y - r.y), level, uneven, tip)]
    case _ => []
  }

  function KneeFindings(lms: LandmarkSet): seq<Verdict>
  {
    LevelFindings(lms, LEFT_KNEE, RIGHT_KNEE, KNEES_ALIGNED, KNEES_MISALIGNED, KNEES_TIP)
  }

  function HipFindings(lms: LandmarkSet): seq<Verdict>
  {
    LevelFindings(lms, LEFT_HIP, RIGHT_HIP, HIPS_LEVEL, HIPS_UNEVEN, HIPS_TIP)
  }

  function ShoulderFindings(lms: LandmarkSet): seq<Verdict>
  {
    LevelFindings(lms, LEFT_SHOULDER, RIGHT_SHOULDER, SHOULDERS_ALIGNED, SHOULDERS_MISALIGNED, SHOULDERS_TIP)
  }

  function ArmFindings(lms: LandmarkSet): (vs: seq<Verdict>)
    ensures vs == [] <==> !ArmPresent(lms)
    ensures vs != [] ==> vs == ArmVerdicts(At(lms, LEFT_WRIST).value, At(lms, RIGHT_WRIST).value,
                                           At(lms, LEFT_ELBOW).value, At(lms, RIGHT_ELBOW).value)
  {
    if ArmPresent(lms) then
      ArmVerdicts(At(lms, LEFT_WRIST).value, At(lms, RIGHT_WRIST).value,
                  At(lms, LEFT_ELBOW).value, At(lms, RIGHT_ELBOW).value)
    else []
  }

  /** The elbow check: the angle of the arm whose wrist is strictly higher is
      classified; with both wrists at one height nothing is added. */
  function ElbowFindings(lms: LandmarkSet, angle: AngleFn): (vs: seq<Verdict>)
    ensures |vs| <= 1
    ensures vs != [] <==> ElbowPresent(lms) && At(lms, LEFT_WRIST).value.y != At(lms, RIGHT_WRIST).value.y
    ensures vs != [] && At(lms, LEFT_WRIST).value.y < At(lms, RIGHT_WRIST).value.y ==>
      vs[0] == ElbowVerdict(angle(At(lms, LEFT_SHOULDER).value, At(lms, LEFT_ELBOW).value, At(lms, LEFT_WRIST).value))
    ensures vs != [] && At(lms, RIGHT_WRIST).value.y < At(lms, LEFT_WRIST).value.y ==>
      vs[0] == ElbowVerdict(angle(At(lms, RIGHT_SHOULDER).value, At(lms, RIGHT_ELBOW).value, At(lms, RIGHT_WRIST).value))
  {
    if !ElbowPresent(lms) then []
    else
      var leftAngle := angle(At(lms, LEFT_SHOULDER).value, At(lms, LEFT_ELBOW).value, At(lms, LEFT_WRIST).value);
      var rightAngle := angle(At(lms, RIGHT_SHOULDER).value, At(lms, RIGHT_ELBOW).value, At(lms, RIGHT_WRIST).value);
      match HigherWrist(At(lms, LEFT_WRIST).value, At(lms, RIGHT_WRIST).value)
      case Some(Left) => [ElbowVerdict(leftAngle)]
      case Some(Right) => [ElbowVerdict(rightAngle)]
      case None => []
  }

  /** The wrist check: the higher wrist must be horizontally centred; with both
      wrists at one height nothing is added. */
  function WristFindings(lms: LandmarkSet): (vs: seq<Verdict>)
    ensures |vs| <= 1
    ensures vs != [] <==> Both(lms, LEFT_WRIST, RIGHT_WRIST) && At(lms, LEFT_WRIST).value.y != At(lms, RIGHT_WRIST).value.y
    ensures vs != [] && At(lms, LEFT_WRIST).value.y < At(lms, RIGHT_WRIST).value.y ==>
      (vs[0].Positive? <==> WRIST_MIN_X < At(lms, LEFT_WRIST).value.x < WRIST_MAX_X)
    ensures vs != [] && At(lms, RIGHT_WRIST).value.y < At(lms, LEFT_WRIST).value.y ==>
      (vs[0].Positive? <==> WRIST_MIN_X < At(lms, RIGHT_WRIST).value.x < WRIST_MAX_X)
    ensures vs != [] && At(lms, LEFT_WRIST).value.y < At(lms, RIGHT_WRIST).value.y ==>
      vs[0] == WristVerdict(At(lms, LEFT_WRIST).value.x)
    ensures vs != [] && At(lms, RIGHT_WRIST).value.y < At(lms, LEFT_WRIST).value.y ==>
      vs[0] == WristVerdict(At(lms, RIGHT_WRIST).value.x)
  {
    match (At(lms, LEFT_WRIST), At(lms, RIGHT_WRIST))
    case (Some(leftWrist), Some(rightWrist)) =>
      (match HigherWrist(leftWrist, rightWrist)
       case Some(Left) => [WristVerdict(leftWrist.x)]
       case Some(Right) => [WristVerdict(rightWrist.x)]
       case None => [])
    case _ => []
  }

  /** The head check: two independent verdicts, eye levelness then nose height. */
  function HeadFindings(lms: LandmarkSet): (vs: seq<Verdict>)
    ensures vs == [] <==> !HeadPresent(lms)
    ensures vs != [] ==> |vs| == 2
    ensures vs != [] ==> (vs[0].Positive? <==> Gap(lms, LEFT_EYE, RIGHT_EYE) < LEVEL_TOLERANCE)
    ensures vs != [] ==> vs[0] == Positive(HEAD_ALIGNED) || vs[0] == Negative(HEAD_TILTED, HEAD_TILTED_TIP)
    ensures vs != [] ==> vs[1] == HeadHeightVerdict(At(lms, NOSE).value.y)
  {
    if !HeadPresent(lms) then []
    else
      [ LevelVerdict(Gap(lms, LEFT_EYE, RIGHT_EYE), HEAD_ALIGNED, HEAD_TILTED, HEAD_TILTED_TIP),
        HeadHeightVerdict(At(lms, NOSE).value.y) ]
  }

  /** All verdicts of one analysis, in the order the checks run. */
  function Findings(lms: LandmarkSet, angle: AngleFn): seq<Verdict>
  {
    FeetFindings(lms) + KneeFindings(lms) + HipFindings(lms) + ShoulderFindings(lms)
    + ArmFindings(lms) + ElbowFindings(lms, angle) + WristFindings(lms) + HeadFindings(lms)
  }

  // ---------------------------------------------------------------------------
  // Building the report

  /** The report after one verdict is pushed: a positive entry, or a negative
      entry and then its tip. */
  function Add(r: Report, v: Verdict): Report
  {
    match v
    case Positive(text) => r.(positive := r.positive + [text])
    case Negative(text, tip) => r.(negative := r.negative + [text], tips := r.tips + [tip])
  }

  /** The report after the verdicts are pushed one after another. */
  function Record(r: Report, vs: seq<Verdict>): Report
    decreases |vs|
  {
    if vs == [] then r else Record(Add(r, vs[0]), vs[1..])
  }

  /** The report the eight checks produce, each skipping when its own landmarks
      are missing. */
  function Analyze(lms: LandmarkSet, angle: AngleFn): Report
  {
    Record(EMPTY_REPORT, Findings(lms, angle))
  }

  /** The slots the angle precomputation reads before any check runs, with no
      presence test: shoulder, elbow and wrist of the left arm, hip, knee and
      ankle of the left leg. The angles it computes are never used, but a
      missing slot among these makes the analysis throw. */
  predicate AnglesReadable(lms: LandmarkSet)
  {
    At(lms, LEFT_SHOULDER).Some? && At(lms, LEFT_ELBOW).Some? && At(lms, LEFT_WRIST).Some?
    && At(lms, LEFT_HIP).Some? && At(lms, LEFT_KNEE).Some? && At(lms, LEFT_ANKLE).Some?
  }

  /** How an analysis ends: with its report, or by throwing before any check. */
  datatype Outcome = Completed(report: Report) | Threw

  /** The analysis as the script runs it: the angle precomputation first, then
      the eight checks. */
  function AnalyzeAsWritten(lms: LandmarkSet, angle: AngleFn): (o: Outcome)
    ensures o == Threw <==> !AnglesReadable(lms)
    ensures o.Completed? ==> o.report == Analyze(lms, angle)
  {
    if AnglesReadable(lms) then Completed(Analyze(lms, angle)) else Threw
  }

  /** Pushing a check's two verdicts is pushing the first, then the second. */
  lemma RecordPair(r: Report, first: Verdict, second: Verdict)
    ensures Record(r, [first, second]) == Add(Add(r, first), second)
  {
    assert [first, second][1..] == [second];
    assert [second][1..] == [];
    assert Record(r, [first, second]) == Record(Add(r, first), [second]);
    assert Record(Add(r, first), [second]) == Record(Add(Add(r, first), second), []);
  }

  // The texts each list receives from a sequence of verdicts, in order.

  function Positives(vs: seq<Verdict>): seq<string>
  {
    if vs == [] then [] else (if vs[0].Positive? then [vs[0].text] else []) + Positives(vs[1..])
  }

  function Negatives(vs: seq<Verdict>): seq<string>
  {
    if vs == [] then [] else (if vs[0].Negative? then [vs[0].text] else []) + Negatives(vs[1..])
  }

  function Tips(vs: seq<Verdict>): seq<string>
  {
    if vs == [] then [] else (if vs[0].Negative? then [vs[0].tip] else []) + Tips(vs[1..])
  }

  // ---------------------------------------------------------------------------
  // Lemmas

  /** Pushing verdicts only appends: the earlier entries of every list stay as
      they were, and each list grows by exactly the texts of its verdicts. */
  lemma {:induction false} RecordAppends(r: Report, vs: seq<Verdict>)
    ensures Record(r, vs) == Report(r.positive + Positives(vs), r.negative + Negatives(vs), r.tips + Tips(vs))
    decreases |vs|
  {
    if vs == [] {
      assert r.positive + [] == r.positive;
      assert r.negative + [] == r.negative;
      assert r.tips + [] == r.tips;
    } else {
      var r' := Add(r, vs[0]);
      RecordAppends(r', vs[1..]);
      var p := if vs[0].Positive? then [vs[0].text] else [];
      var n := if vs[0].Negative? then [vs[0].text] else [];
      var t := if vs[0].Negative? then [vs[0].tip] else [];
      assert r'.positive == r.positive + p && r'.negative == r.negative + n && r'.tips == r.tips + t;
      assert (r.positive + p) + Positives(vs[1..]) == r.positive + (p + Positives(vs[1..]));
      assert (r.negative + n) + Negatives(vs[1..]) == r.negative + (n + Negatives(vs[1..]));
      assert (r.tips + t) + Tips(vs[1..]) == r.tips + (t + Tips(vs[1..]));
    }
  }

  /** Every negative verdict carries exactly one tip, so the negative texts and
      the tips of any verdict sequence pair up one to one. */
  lemma {:induction false} NegativesPairWithTips(vs: seq<Verdict>)
    ensures |Negatives(vs)| == |Tips(vs)|
    ensures forall i :: 0 <= i < |Negatives(vs)| ==> Negative(Negatives(vs)[i], Tips(vs)[i]) in vs
    decreases |vs|
  {
    if vs != [] {
      NegativesPairWithTips(vs[1..]);
      var n := Negatives(vs);
      var t := Tips(vs);
      if vs[0].Negative? {
        assert n == [vs[0].text] + Negatives(vs[1..]);
        assert t == [vs[0].tip] + Tips(vs[1..]);
        forall i | 0 <= i < |n| ensures Negative(n[i], t[i]) in vs {
          if i == 0 {
            assert vs[0] == Negative(n[0], t[0]);
          } else {
            assert n[i] == Negatives(vs[1..])[i - 1] && t[i] == Tips(vs[1..])[i - 1];
            assert Negative(n[i], t[i]) in vs[1..];
          }
        }
      } else {
        assert n == Negatives(vs[1..]) && t == Tips(vs[1..]);
        forall i | 0 <= i < |n| ensures Negative(n[i], t[i]) in vs {
          assert Negative(n[i], t[i]) in vs[1..];
        }
      }
    }
  }

  /** Each verdict adds exactly one entry to the positive or the negative list. */
  lemma {:induction false} EntriesPerVerdict(vs: seq<Verdict>)
    ensures |Positives(vs)| + |Negatives(vs)| == |vs|
    decreases |vs|
  {
    if vs != [] {
      EntriesPerVerdict(vs[1..]);
    }
  }

  /** The lists gathered from two verdict runs back to back are the lists of the
      first run followed by those of the second. */
  lemma ListsOfConcat(a: seq<Verdict>, b: seq<Verdict>)
    ensures Positives(a + b) == Positives(a) + Positives(b)
    ensures Negatives(a + b) == Negatives(a) + Negatives(b)
    ensures Tips(a + b) == Tips(a) + Tips(b)
  {
    PositivesOfConcat(a, b);
    NegativesOfConcat(a, b);
    TipsOfConcat(a, b);
  }

  lemma {:induction false} PositivesOfConcat(a: seq<Verdict>, b: seq<Verdict>)
    ensures Positives(a + b) == Positives(a) + Positives(b)
    decreases |a|
  {
    if a == [] {
      assert a + b == b;
    } else {
      var head := if a[0].Positive? then [a[0].text] else [];
      assert (a + b)[0] == a[0] && (a + b)[1..] == a[1..] + b;
      PositivesOfConcat(a[1..], b);
      assert Positives(a + b) == head + (Positives(a[1..]) + Positives(b));
      assert head + (Positives(a[1..]) + Positives(b)) == (head + Positives(a[1..])) + Positives(b);
    }
  }

  lemma {:induction false} NegativesOfConcat(a: seq<Verdict>, b: seq<Verdict>)
    ensures Negatives(a + b) == Negatives(a) + Negatives(b)
    decreases |a|
  {
    if a == [] {
      assert a + b == b;
    } else {
      var head := if a[0].Negative? then [a[0].text] else [];
      assert (a + b)[0] == a[0] && (a + b)[1..] == a[1..] + b;
      NegativesOfConcat(a[1..], b);
      assert Negatives(a + b) == head + (Negatives(a[1..]) + Negatives(b));
      assert head + (Negatives(a[1..]) + Negatives(b)) == (head + Negatives(a[1..])) + Negatives(b);
    }
  }

  lemma {:induction false} TipsOfConcat(a: seq<Verdict>, b: seq<Verdict>)
    ensures Tips(a + b) == Tips(a) + Tips(b)
    decreases |a|
  {
    if a == [] {
      assert a + b == b;
    } else {
      var head := if a[0].Negative? then [a[0].tip] else [];
      assert (a + b)[0] == a[0] && (a + b)[1..] == a[1..] + b;
      TipsOfConcat(a[1..], b);
      assert Tips(a + b) == head + (Tips(a[1..]) + Tips(b));
      assert head + (Tips(a[1..]) + Tips(b)) == (head + Tips(a[1..])) + Tips(b);
    }
  }

  /** Pushing two verdict runs one after the other is pushing their concatenation:
      each check can append its verdicts to the report the earlier checks left. */
  lemma RecordConcat(r: Report, a: seq<Verdict>, b: seq<Verdict>)
    ensures Record(r, a + b) == Record(Record(r, a), b)
  {
    RecordAppends(r, a + b);
    RecordAppends(r, a);
    RecordAppends(Record(r, a), b);
    ListsOfConcat(a, b);
    assert r.positive + (Positives(a) + Positives(b)) == (r.positive + Positives(a)) + Positives(b);
    assert r.negative + (Negatives(a) + Negatives(b)) == (r.negative + Negatives(a)) + Negatives(b);
    assert r.tips + (Tips(a) + Tips(b)) == (r.tips + Tips(a)) + Tips(b);
  }

  /** For any landmark set and any elbow angle, the report holds exactly one tip
      per negative entry, and the i-th tip is the one its check gave together
      with the i-th negative entry. */
  lemma AnalyzeNegativesMatchTips(lms: LandmarkSet, angle: AngleFn)
    ensures |Analyze(lms, angle).negative| == |Analyze(lms, angle).tips|
    ensures forall i :: 0 <= i < |Analyze(lms, angle).negative| ==>
      Negative(Analyze(lms, angle).negative[i], Analyze(lms, angle).tips[i]) in Findings(lms, angle)
  {
    RecordAppends(EMPTY_REPORT, Findings(lms, angle));
    NegativesPairWithTips(Findings(lms, angle));
  }

  /** The report lists the entries of the eight checks in the order the checks
      run: feet, knees, hips, shoulders, arm, elbow, wrist, head. */
  lemma AnalyzeInCheckOrder(lms: LandmarkSet, angle: AngleFn)
    ensures Analyze(lms, angle).positive ==
      Positives(FeetFindings(lms)) + Positives(KneeFindings(lms)) + Positives(HipFindings(lms))
      + Positives(ShoulderFindings(lms)) + Positives(ArmFindings(lms)) + Positives(ElbowFindings(lms, angle))
      + Positives(WristFindings(lms)) + Positives(HeadFindings(lms))
    ensures Analyze(lms, angle).negative ==
      Negatives(FeetFindings(lms)) + Negatives(KneeFindings(lms)) + Negatives(HipFindings(lms))
      + Negatives(ShoulderFindings(lms)) + Negatives(ArmFindings(lms)) + Negatives(ElbowFindings(lms, angle))
      + Negatives(WristFindings(lms)) + Negatives(HeadFindings(lms))
    ensures Analyze(lms, angle).tips ==
      Tips(FeetFindings(lms)) + Tips(KneeFindings(lms)) + Tips(HipFindings(lms))
      + Tips(ShoulderFindings(lms)) + Tips(ArmFindings(lms)) + Tips(ElbowFindings(lms, angle))
      + Tips(WristFindings(lms)) + Tips(HeadFindings(lms))
  {
    var f1, f2, f3, f4 := FeetFindings(lms), KneeFindings(lms), HipFindings(lms), ShoulderFindings(lms);
    var f5, f6, f7, f8 := ArmFindings(lms), ElbowFindings(lms, angle), WristFindings(lms), HeadFindings(lms);
    RecordAppends(EMPTY_REPORT, Findings(lms, angle));
    ListsOfConcat(f1, f2);
    ListsOfConcat(f1 + f2, f3);
    ListsOfConcat(f1 + f2 + f3, f4);
    ListsOfConcat(f1 + f2 + f3 + f4, f5);
    ListsOfConcat(f1 + f2 + f3 + f4 + f5, f6);
    ListsOfConcat(f1 + f2 + f3 + f4 + f5 + f6, f7);
    ListsOfConcat(f1 + f2 + f3 + f4 + f5 + f6 + f7, f8);
  }

  /** When no slot holds a landmark every check skips: the checks give no
      verdict, and their report is three empty lists. */
  lemma AnalyzeAllAbsent(lms: LandmarkSet, angle: AngleFn)
    requires AllAbsent(lms)
    ensures Findings(lms, angle) == []
    ensures Analyze(lms, angle) == EMPTY_REPORT
  {
  }

  /** The script, by contrast, throws on such a set, before any check runs. */
  lemma AllAbsentThrows(lms: LandmarkSet, angle: AngleFn)
    requires AllAbsent(lms)
    ensures AnalyzeAsWritten(lms, angle) == Threw
  {
  }

  /** A detection of the two feet only, 0.2 apart. */
  function FeetOnly(): (lms: LandmarkSet)
    ensures |lms| == 33
  {
    seq(33, i =>
      if i == LEFT_FOOT_INDEX then Some(Landmark(0.4, 0.9))
      else if i == RIGHT_FOOT_INDEX then Some(Landmark(0.6, 0.9))
      else None)
  }

  /** On the feet-only detection the feet check alone would report a stable
      stance, yet the script throws and shows nothing. */
  lemma FeetOnlySetThrows(angle: AngleFn)
    ensures Analyze(FeetOnly(), angle) == Report([FEET_STABLE], [], [])
    ensures AnalyzeAsWritten(FeetOnly(), angle) == Threw
  {
    var lms := FeetOnly();
    assert At(lms, LEFT_SHOULDER).None?;
    assert FeetFindings(lms) == [Positive(FEET_STABLE)];
    assert KneeFindings(lms) == [] && HipFindings(lms) == [] && ShoulderFindings(lms) == [];
    assert ArmFindings(lms) == [] && ElbowFindings(lms, angle) == [];
    assert WristFindings(lms) == [] && HeadFindings(lms) == [];
    assert Findings(lms, angle) == [Positive(FEET_STABLE)];
    assert Record(EMPTY_REPORT, [Positive(FEET_STABLE)]) == Record(Report([FEET_STABLE], [], []), []);
  }

  /** With both wrists at the same height the arm check still reports (it picks
      the left arm when both are raised), while the elbow and wrist checks, which
      look for a strictly higher wrist, add nothing. */
  lemma TiedWristsSkipElbowAndWrist(lms: LandmarkSet, angle: AngleFn)
    requires ElbowPresent(lms) && At(lms, LEFT_WRIST).value.y == At(lms, RIGHT_WRIST).value.y
    ensures ArmFindings(lms) != []
    ensures ElbowFindings(lms, angle) == [] && WristFindings(lms) == []
  {
  }

  /** One analysis adds at most ten entries to the positive and negative lists
      together: one per check, two for the arm and two for the head. */
  lemma AnalyzeAtMostTenEntries(lms: LandmarkSet, angle: AngleFn)
    ensures |Analyze(lms, angle).positive| + |Analyze(lms, angle).negative| <= 10
  {
    RecordAppends(EMPTY_REPORT, Findings(lms, angle));
    EntriesPerVerdict(Findings(lms, angle));
  }
}
