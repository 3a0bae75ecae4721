/** The detector's output as the posture checks read it: a sequence of body-part
    slots, each holding a landmark or nothing. */
module Landmarks {

  datatype Option<+T> = None | Some(value: T)

  /** A detected body keypoint in normalised image coordinates. The origin is the
      top-left corner and y grows downward, so a smaller y is higher on the body. */
  datatype Landmark = Landmark(x: real, y: real)

  /** One optional landmark per body-part slot (the detector fills 33 slots). */
  type LandmarkSet = seq<Option<Landmark>>

  /** The elbow angle in degrees at the middle point of three landmarks. */
  type AngleFn = (Landmark, Landmark, Landmark) -> real

  // Slot numbers of the body parts the analysis reads.
  const NOSE := 0
  const LEFT_EYE := 2
  const RIGHT_EYE := 5
  const LEFT_SHOULDER := 11
  const RIGHT_SHOULDER := 12
  const LEFT_ELBOW := 13
  const RIGHT_ELBOW := 14
  const LEFT_WRIST := 15
  const RIGHT_WRIST := 16
  const LEFT_HIP := 23
  const RIGHT_HIP := 24
  const LEFT_KNEE := 25
  const RIGHT_KNEE := 26
  const LEFT_ANKLE := 27
  const LEFT_FOOT_INDEX := 31
  const RIGHT_FOOT_INDEX := 32

  /** The landmark in a slot; a slot past the end of the set reads as missing,
      like an out-of-range index into a script array. */
  function At(lms: LandmarkSet, slot: nat): Option<Landmark>
  {
    if slot < |lms| then lms[slot] else None
  }

  /** True when the detector found no landmark at all. */
  predicate AllAbsent(lms: LandmarkSet)
  {
    forall i :: 0 <= i < |lms| ==> lms[i].None?
  }

  function Abs(r: real): (a: real)
    ensures 0.0 <= a
    ensures a == r || a == -r
  {
    if r < 0.0 then -r else r
  }
}
