/**
 * What the C drawing functions compute before handing shapes to the
 * graphics library: the eye sizes from the blink progress, the mouth
 * chords from the happiness, and the emotion label.
 */
module RobotFaceDraw {
  import opened FaceConfig
  import opened FaceModel
  import opened Geometry
  import Emotions
  import RobotFaceC

  /** The sizes one eye is drawn with. `bf` stands for the sine of the
      folded progress, which the drawing code computes. */
  method DrawEye(blinkProgress: real, bf: real) returns (eye: EyeShape)
    requires SineProfile(blinkProgress, bf)
    ensures eye == Eye(bf)
    ensures PupilMinRadius <= eye.pupilRadius <= PupilRadius
    ensures blinkProgress == 0.0 ==> eye == EyeShape(PupilRadius, Some(HighlightRadius))
    ensures blinkProgress == 1.0 ==> eye == EyeShape(PupilMinRadius, None)
    ensures blinkProgress == 2.0 ==> eye == EyeShape(PupilRadius, Some(HighlightRadius))
  {
    var pupil := PupilRadius * (1.0 - bf * PupilShrink);
    var highlight: Option<real> := None;
    if pupil > HighlightMinPupil {
      highlight := Some(HighlightRadius * (pupil / PupilRadius));
    }
    eye := EyeShape(pupil, highlight);
    EyeAtBlinkKeyPoints(blinkProgress, bf);
  }

  /** Everything the face drawing derives from the record: both eyes share
      one shape, the mouth is a 30-chord polyline, and the label text. */
  method DrawRobotFace(face: RobotFaceC.RobotFace, bf: real)
    returns (eye: EyeShape, mouth: seq<Chord>, caption: string)
    requires SineProfile(face.blinkProgress, bf)
    ensures eye == Eye(bf)
    ensures Consistent(face.Model()) && !face.isBlinking ==>
              eye == EyeShape(PupilRadius, Some(HighlightRadius))
    ensures |mouth| == MouthSegments
    ensures mouth[0].from == MouthStart && mouth[|mouth| - 1].to == MouthEnd
    ensures forall i :: 0 <= i < |mouth| ==>
              mouth[i] == Chord(MouthPoint(face.happiness, SampleT(i)), MouthPoint(face.happiness, SampleT(i + 1)))
    ensures caption == Emotions.Label(face.happiness)
  {
    eye := DrawEye(face.blinkProgress, bf);
    mouth := MouthChords(face.happiness);
    caption := RobotFaceC.GetEmotionName(face);
  }
}
