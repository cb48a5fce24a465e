/**
 * The C API: a plain `RobotFace` record and free functions that update it
 * through a pointer. The record is a class whose fields the functions
 * assign; `Model()` reads it back as a `FaceState`.
 */
module RobotFaceC {
  import opened FaceConfig
  import opened FaceModel
  import Emotions

  class RobotFace {
    var happiness: real
    var blinkProgress: real
    var blinkTimer: real
    var isBlinking: bool
    var blinkSpeed: real

    function Model(): FaceState
      reads this
    {
      FaceState(happiness, blinkProgress, blinkTimer, isBlinking, blinkSpeed)
    }
  }

  /** Puts the record in its starting state: slightly happy, eyes open. */
  method InitRobotFace(face: RobotFace)
    modifies face
    ensures face.Model() == Initial()
    ensures Consistent(face.Model()) && Settled(face.Model())
  {
    face.happiness := InitialHappiness;
    face.blinkProgress := 0.0;
    face.blinkTimer := 0.0;
    face.isBlinking := false;
    face.blinkSpeed := BlinkSpeed;
  }

  /** Advances the blink timer and any running blink by `dt` seconds. */
  method UpdateRobotFace(face: RobotFace, dt: real)
    modifies face
    ensures face.Model() == Step(old(face.Model()), dt)
    ensures old(Consistent(face.Model())) ==> Consistent(face.Model())
  {
    face.blinkTimer := face.blinkTimer + dt;
    if face.blinkTimer >= BlinkInterval && !face.isBlinking {
      face.isBlinking := true;
      face.blinkTimer := 0.0;
    }
    if face.isBlinking {
      face.blinkProgress := face.blinkProgress + face.blinkSpeed * dt;
      if face.blinkProgress >= BlinkCompleteThreshold {
        face.blinkProgress := 0.0;
        face.isBlinking := false;
      }
    }
  }

  /** Stores `h` clamped to [0,1]. */
  method SetEmotion(face: RobotFace, h: real)
    modifies face
    ensures face.Model() == WithEmotion(old(face.Model()), h)
    ensures old(Consistent(face.Model())) ==> Consistent(face.Model())
  {
    var v := h;
    if v < 0.0 { v := 0.0; }
    if v > 1.0 { v := 1.0; }
    face.happiness := v;
  }

  /** Starts a blink unless one is running; the timer is left alone. */
  method TriggerBlink(face: RobotFace)
    modifies face
    ensures face.Model() == Trigger(old(face.Model()))
    ensures old(Consistent(face.Model())) ==> Consistent(face.Model())
  {
    if !face.isBlinking {
      face.isBlinking := true;
      face.blinkProgress := 0.0;
    }
  }

  /** The emotion label of the current happiness. */
  function GetEmotionName(face: RobotFace): (s: string)
    reads face
    ensures s == "Happy" <==> face.happiness > EmotionHappyThreshold
    ensures s == "Sad" <==> face.happiness < EmotionSadThreshold
    ensures s == "Neutral" <==> EmotionSadThreshold <= face.happiness <= EmotionHappyThreshold
  {
    if face.happiness > EmotionHappyThreshold then "Happy"
    else if face.happiness < EmotionSadThreshold then "Sad"
    else "Neutral"
  }

  /** The happiness value, in [0,1] for a record kept by these functions. */
  function GetHappiness(face: RobotFace): (h: real)
    reads face
    ensures h == face.Model().happiness
    ensures Consistent(face.Model()) ==> 0.0 <= h <= 1.0
  {
    face.happiness
  }

  /** Whether a blink is running; when none is, the eye is fully open. */
  function IsBlinking(face: RobotFace): (b: bool)
    reads face
    ensures b == face.Model().isBlinking
    ensures Consistent(face.Model()) && !b ==> face.blinkProgress == 0.0
  {
    face.isBlinking
  }

  /** The C label agrees with the shared labelling rule. */
  lemma EmotionNameIsLabel(face: RobotFace)
    ensures GetEmotionName(face) == Emotions.Label(face.happiness)
  {
  }
}
