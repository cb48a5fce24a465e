/**
 * The Skia front end: a `RobotFace` class that stores its blink speed,
 * clamps with std::max/std::min, prints the same label, and an application
 * class whose character and mouse handlers drive it.
 */
module SkiaApp {
  import opened FaceConfig
  import opened FaceModel
  import opened InputRules
  import Emotions

  class RobotFace {
    var happiness: real
    var blinkProgress: real
    var blinkTimer: real
    var isBlinking: bool
    var blinkSpeed: real

    function Model(): FaceState
      reads this
    {
      FaceState(happiness, blinkProgress, blinkTimer, isBlinking, blinkSpeed)
    }

    predicate Valid()
      reads this
    {
      Consistent(Model())
    }

    constructor ()
      ensures Valid() && Settled(Model())
      ensures Model() == Initial()
    {
      happiness := 0.8;
      blinkProgress := 0.0;
      blinkTimer := 0.0;
      isBlinking := false;
      blinkSpeed := 5.0;
    }

    /** The blink part of the update; frame counting is left out. */
    method Update(dt: real)
      requires Valid()
      modifies this
      ensures Valid()
      ensures Model() == Step(old(Model()), dt)
    {
      blinkTimer := blinkTimer + dt;
      if blinkTimer >= 3.0 && !isBlinking {
        isBlinking := true;
        blinkTimer := 0.0;
      }
      if isBlinking {
        blinkProgress := blinkProgress + blinkSpeed * dt;
        if blinkProgress >= 2.0 {
          blinkProgress := 0.0;
          isBlinking := false;
        }
      }
    }

    /** `std::max(0, std::min(1, h))`. */
    method SetEmotion(h: real)
      requires Valid()
      modifies this
      ensures Valid()
      ensures Model() == WithEmotion(old(Model()), h)
    {
      happiness := Max(0.0, Min(1.0, h));
    }

    method TriggerBlink()
      requires Valid()
      modifies this
      ensures Valid()
      ensures Model() == Trigger(old(Model()))
    {
      if !isBlinking {
        isBlinking := true;
        blinkProgress := 0.0;
      }
    }

    function GetHappiness(): (h: real)
      reads this
      requires Valid()
      ensures 0.0 <= h <= 1.0
      ensures h == Model().happiness
    {
      happiness
    }

    /** The emotion text `draw` prints. */
    function EmotionLabel(): (s: string)
      reads this
      ensures s == Emotions.Label(happiness)
    {
      if happiness > 0.7 then "Happy" else if happiness < 0.3 then "Sad" else "Neutral"
    }
  }

  /** The state after a mouse event: a press inside the mouth area raises
      happiness by 0.1, and every press then triggers a blink. */
  function MouseEffect(s: FaceState, x: int, y: int, pressed: bool): (s': FaceState)
    ensures !pressed ==> s' == s
    ensures pressed ==> s'.isBlinking
    ensures pressed && s.isBlinking ==> s'.blinkProgress == s.blinkProgress
    ensures s'.blinkTimer == s.blinkTimer
    ensures Consistent(s) ==> Consistent(s') && s.happiness <= s'.happiness
    ensures Consistent(s) && Settled(s) ==> Settled(s')
  {
    if !pressed then s
    else Trigger(s.(happiness := ClickHappiness(s.happiness, x, y)))
  }

  class RobotFaceApplication {
    const face: RobotFace

    predicate Valid()
      reads this, face
    {
      face.Valid()
    }

    constructor ()
      ensures Valid() && fresh(face)
      ensures face.Model() == Initial()
    {
      face := new RobotFace();
    }

    /** One idle callback with the measured frame time `dt`. */
    method OnIdle(dt: real)
      requires Valid()
      modifies face
      ensures Valid()
      ensures face.Model() == Step(old(face.Model()), dt)
    {
      face.Update(dt);
    }

    /** h/H, n/N and s/S select a preset; any other character is ignored. */
    method OnChar(c: char)
      requires Valid()
      modifies face
      ensures Valid()
      ensures face.Model() ==
                if CharPreset(c).Some? then WithEmotion(old(face.Model()), CharPreset(c).value)
                else old(face.Model())
    {
      match c {
        case 'h' => face.SetEmotion(1.0);
        case 'H' => face.SetEmotion(1.0);
        case 'n' => face.SetEmotion(0.5);
        case 'N' => face.SetEmotion(0.5);
        case 's' => face.SetEmotion(0.0);
        case 'S' => face.SetEmotion(0.0);
        case _ =>
      }
    }

    /** Handles a mouse event; every event is reported as handled. */
    method OnMouse(x: int, y: int, pressed: bool) returns (handled: bool)
      requires Valid()
      modifies face
      ensures Valid()
      ensures handled
      ensures face.Model() == MouseEffect(old(face.Model()), x, y, pressed)
    {
      if pressed {
        if HoverMinX < x as real < HoverMaxX && HoverMinY < y as real < HoverMaxY {
          var current := face.GetHappiness();
          face.SetEmotion(Min(current + ClickHappinessStep, 1.0));
        }
        face.TriggerBlink();
      }
      handled := true;
    }
  }
}
