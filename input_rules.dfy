/**
 * How keyboard and pointer input changes the happiness value, as the
 * front ends' event handling does it.
 */
module InputRules {
  import opened FaceConfig
  import opened FaceModel
  import Emotions

  /** Which of the emotion hotkeys were pressed in one frame. */
  datatype KeyState = KeyState(happy: bool, neutral: bool, sad: bool)

  /** The hotkeys are handled in the order H, N, S, each overwriting the
      last, so Sad wins over Neutral, and Neutral over Happy. */
  function KeyedHappiness(h: real, keys: KeyState): (r: real)
    ensures keys.sad ==> r == Emotions.EmotionToHappiness(Emotions.Sad)
    ensures !keys.sad && keys.neutral ==> r == Emotions.EmotionToHappiness(Emotions.Neutral)
    ensures !keys.sad && !keys.neutral && keys.happy ==> r == Emotions.EmotionToHappiness(Emotions.Happy)
    ensures !keys.sad && !keys.neutral && !keys.happy ==> r == h
    ensures 0.0 <= h <= 1.0 ==> 0.0 <= r <= 1.0
  {
    var afterH := if keys.happy then 1.0 else h;
    var afterN := if keys.neutral then 0.5 else afterH;
    if keys.sad then 0.0 else afterN
  }

  /** Hovering inside the mouth area raises happiness at 0.5 per second,
      capped at 1; elsewhere nothing changes. */
  function HoverHappiness(h: real, dt: real, mouse: Vec2): (r: real)
    ensures !InHoverArea(mouse) ==> r == h
    ensures InHoverArea(mouse) ==> r <= 1.0 && (r == 1.0 || r == h + dt * HoverHappinessSpeed)
    ensures InHoverArea(mouse) ==> r <= h + dt * HoverHappinessSpeed
    ensures h <= 1.0 && dt >= 0.0 ==> h <= r
    ensures 0.0 <= h <= 1.0 && dt >= 0.0 ==> 0.0 <= r <= 1.0
  {
    if InHoverArea(mouse) then Min(h + dt * HoverHappinessSpeed, 1.0) else h
  }

  /** A press inside the mouth area raises happiness by 0.1, capped at 1,
      and stored through the clamping setter; elsewhere nothing changes. */
  function ClickHappiness(h: real, x: int, y: int): (r: real)
    ensures !InHoverArea(Vec2(x as real, y as real)) ==> r == h
    ensures InHoverArea(Vec2(x as real, y as real)) ==> 0.0 <= r <= 1.0
    ensures InHoverArea(Vec2(x as real, y as real)) && 0.0 <= h <= 1.0 ==>
              r == Min(h + ClickHappinessStep, 1.0)
    ensures h <= 1.0 ==> h <= r
  {
    if InHoverArea(Vec2(x as real, y as real))
    then ClampUnit(Min(h + ClickHappinessStep, 1.0))
    else h
  }

  /** The happiness a typed character selects, if any: h/H, n/N, s/S pick
      the Happy, Neutral and Sad presets. */
  function CharPreset(c: char): (r: Option<real>)
    ensures r.Some? <==> c in "hHnNsS"
    ensures c in "hH" ==> r == Some(Emotions.EmotionToHappiness(Emotions.Happy))
    ensures c in "nN" ==> r == Some(Emotions.EmotionToHappiness(Emotions.Neutral))
    ensures c in "sS" ==> r == Some(Emotions.EmotionToHappiness(Emotions.Sad))
  {
    match c
    case 'h' => Some(1.0)
    case 'H' => Some(1.0)
    case 'n' => Some(0.5)
    case 'N' => Some(0.5)
    case 's' => Some(0.0)
    case 'S' => Some(0.0)
    case _ => None
  }

  /** Pressing a hotkey makes the label read the emotion of that key. */
  lemma HotkeyLabels(h: real, keys: KeyState)
    ensures keys.sad ==> Emotions.Label(KeyedHappiness(h, keys)) == "Sad"
    ensures !keys.sad && keys.neutral ==> Emotions.Label(KeyedHappiness(h, keys)) == "Neutral"
    ensures !keys.sad && !keys.neutral && keys.happy ==> Emotions.Label(KeyedHappiness(h, keys)) == "Happy"
  {
  }
}
