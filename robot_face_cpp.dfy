/**
 * The C++ front end: a `RobotFace` class whose constructor and setters
 * clamp happiness, with the blink speed taken from the configuration
 * rather than stored, plus its keyboard and mouse handlers.
 */
module RobotFaceCpp {
  import opened FaceConfig
  import opened FaceModel
  import opened InputRules
  import opened Emotions

  /** `std::clamp(v, lo, hi)`. */
  function StdClamp(v: real, lo: real, hi: real): (r: real)
    requires lo <= hi
    ensures lo <= r <= hi
    ensures lo <= v <= hi ==> r == v
  {
    if v < lo then lo else if hi < v then hi else v
  }

  class RobotFace {
    var happiness: real
    var blinkProgress: real
    var blinkTimer: real
    var isBlinking: bool

    function Model(): FaceState
      reads this
    {
      FaceState(happiness, blinkProgress, blinkTimer, isBlinking, BlinkSpeed)
    }

    /** The class invariant every member keeps. */
    predicate Valid()
      reads this
    {
      Consistent(Model())
    }

    static function ClampHappiness(v: real): (r: real)
      ensures r == ClampUnit(v)
    {
      StdClamp(v, 0.0, 1.0)
    }

    constructor (initialHappiness: real)
      ensures Valid() && Settled(Model())
      ensures Model() == Initial().(happiness := ClampUnit(initialHappiness))
    {
      happiness := ClampHappiness(initialHappiness);
      blinkProgress := 0.0;
      blinkTimer := 0.0;
      isBlinking := false;
    }

    method Update(dt: real)
      requires Valid()
      modifies this
      ensures Valid()
      ensures Model() == Step(old(Model()), dt)
    {
      blinkTimer := blinkTimer + dt;
      if blinkTimer >= BlinkInterval && !isBlinking {
        isBlinking := true;
        blinkTimer := 0.0;
      }
      if isBlinking {
        blinkProgress := blinkProgress + BlinkSpeed * dt;
        if blinkProgress >= BlinkCompleteThreshold {
          blinkProgress := 0.0;
          isBlinking := false;
        }
      }
    }

    method SetEmotion(h: real)
      requires Valid()
      modifies this
      ensures Valid()
      ensures Model() == WithEmotion(old(Model()), h)
    {
      happiness := ClampHappiness(h);
    }

    /** The overload taking a preset; reading the emotion back gives it. */
    method SetEmotionPreset(e: Emotion)
      requires Valid()
      modifies this
      ensures Valid()
      ensures Model() == old(Model()).(happiness := EmotionToHappiness(e))
      ensures CurrentEmotion() == e
    {
      happiness := EmotionToHappiness(e);
    }

    method TriggerBlink()
      requires Valid()
      modifies this
      ensures Valid()
      ensures Model() == Trigger(old(Model()))
    {
      if !isBlinking {
        isBlinking := true;
        blinkProgress := 0.0;
      }
    }

    function Happiness(): (h: real)
      reads this
      requires Valid()
      ensures 0.0 <= h <= 1.0
      ensures h == Model().happiness
    {
      happiness
    }

    function IsBlinking(): (b: bool)
      reads this
      requires Valid()
      ensures b == Model().isBlinking
      ensures !b ==> blinkProgress == 0.0
    {
      isBlinking
    }

    function BlinkProgress(): (p: real)
      reads this
      requires Valid()
      ensures p == Model().blinkProgress
      ensures p < BlinkCompleteThreshold
      ensures p != 0.0 ==> isBlinking
    {
      blinkProgress
    }

    /** The emotion the current happiness shows. */
    function CurrentEmotion(): (e: Emotion)
      reads this
      ensures e == Emotions.CurrentEmotion(happiness)
    {
      if happiness > EmotionHappyThreshold then Happy
      else if happiness < EmotionSadThreshold then Sad
      else Neutral
    }

    /** The name of the current emotion; never "Unknown". */
    function EmotionName(): (s: string)
      reads this
      ensures s == Label(happiness)
      ensures s != "Unknown"
    {
      NameAgreesWithLabel(happiness);
      Emotions.EmotionName(CurrentEmotion())
    }

    /** The hotkeys H, N, S select their presets, in that order. */
    method HandleKeyboardInput(keys: KeyState)
      requires Valid()
      modifies this
      ensures Valid()
      ensures Model() == old(Model()).(happiness := KeyedHappiness(old(happiness), keys))
    {
      if keys.happy { SetEmotionPreset(Emotion.Happy); }
      if keys.neutral { SetEmotionPreset(Emotion.Neutral); }
      if keys.sad { SetEmotionPreset(Emotion.Sad); }
    }

    /** A left-button press triggers a blink. */
    method HandleMouseInput(pressed: bool)
      requires Valid()
      modifies this
      ensures Valid()
      ensures Model() == if pressed then Trigger(old(Model())) else old(Model())
    {
      if pressed { TriggerBlink(); }
    }
  }
}
