/**
 * Shared constants of the robot face (the C configuration header and the
 * C++ `Config` struct carry the same values), the 2D point type and the
 * small option and min/max helpers the other modules use.
 *
 * Every float and double of the program is modelled as an exact `real`.
 */
module FaceConfig {

  /** A point of the drawing surface; y grows downwards. */
  datatype Vec2 = Vec2(x: real, y: real)

  datatype Option<T> = None | Some(value: T)

  function Min(a: real, b: real): (r: real)
    ensures r <= a && r <= b
    ensures r == a || r == b
  {
    if a < b then a else b
  }

  function Max(a: real, b: real): (r: real)
    ensures r >= a && r >= b
    ensures r == a || r == b
  {
    if a > b then a else b
  }

  // Eye parameters
  const EyeRadius: real := 60.0
  const PupilRadius: real := 40.0
  const PupilMinRadius: real := 5.0
  const HighlightRadius: real := 15.0
  /** The pupil must be strictly larger than this for the highlight to be drawn. */
  const HighlightMinPupil: real := 10.0
  /** Fraction of the pupil radius that a fully closed eye removes. */
  const PupilShrink: real := 0.875

  // Mouth parameters
  const MouthStart: Vec2 := Vec2(300.0, 400.0)
  const MouthEnd: Vec2 := Vec2(500.0, 400.0)
  const MouthCenter: Vec2 := Vec2(400.0, 400.0)
  const MouthCurveFactor: real := 60.0
  const MouthSegments: nat := 30

  // Animation parameters
  const InitialHappiness: real := 0.8
  const BlinkInterval: real := 3.0
  const BlinkSpeed: real := 5.0
  const BlinkCompleteThreshold: real := 2.0
  const HoverHappinessSpeed: real := 0.5
  /** Happiness added by one press inside the mouth area (Skia front end). */
  const ClickHappinessStep: real := 0.1

  // Hover area (mouth region), an open rectangle
  const HoverMinX: real := 300.0
  const HoverMaxX: real := 500.0
  const HoverMinY: real := 350.0
  const HoverMaxY: real := 450.0

  // Emotion thresholds
  const EmotionHappyThreshold: real := 0.7
  const EmotionSadThreshold: real := 0.3

  /** Strictly inside the hover rectangle: every comparison is strict. */
  predicate InHoverArea(p: Vec2) {
    HoverMinX < p.x < HoverMaxX && HoverMinY < p.y < HoverMaxY
  }

  /** The mouth endpoints lie on one horizontal line through the centre,
      and the centre is their x-midpoint. */
  lemma MouthCenterIsMidpoint()
    ensures MouthStart.y == MouthEnd.y == MouthCenter.y
    ensures MouthCenter.x == (MouthStart.x + MouthEnd.x) / 2.0
  {
  }

  /** The two label thresholds leave a non-empty neutral band between them. */
  lemma ThresholdsOrdered()
    ensures 0.0 < EmotionSadThreshold < EmotionHappyThreshold < 1.0
  {
  }

  /** A full blink needs this much accumulated frame time: 2 / 5 = 0.4 s. */
  lemma BlinkDurationConstant()
    ensures BlinkCompleteThreshold / BlinkSpeed == 0.4
  {
  }
}
