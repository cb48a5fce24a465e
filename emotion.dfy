/**
 * The three emotion presets, the preset-to-happiness map, and the rule
 * that labels a happiness value (shared by every front end).
 */
module Emotions {
  import opened FaceConfig

  datatype Emotion = Sad | Neutral | Happy

  /** The happiness value each preset stands for. */
  function EmotionToHappiness(e: Emotion): (h: real)
    ensures 0.0 <= h <= 1.0
    ensures (h < EmotionSadThreshold) == (e == Sad)
    ensures (h > EmotionHappyThreshold) == (e == Happy)
  {
    match e
    case Sad => 0.0
    case Neutral => 0.5
    case Happy => 1.0
  }

  /** The emotion a happiness value shows: above the happy threshold it is
      Happy, below the sad threshold it is Sad, both thresholds included in
      Neutral. */
  function CurrentEmotion(h: real): (e: Emotion)
    ensures e == Happy <==> h > EmotionHappyThreshold
    ensures e == Sad <==> h < EmotionSadThreshold
    ensures e == Neutral <==> EmotionSadThreshold <= h <= EmotionHappyThreshold
  {
    if h > EmotionHappyThreshold then Happy
    else if h < EmotionSadThreshold then Sad
    else Neutral
  }

  /** The text shown for an emotion. */
  function EmotionName(e: Emotion): (s: string)
    ensures s in {"Happy", "Sad", "Neutral"}
    ensures s != "Unknown"
  {
    match e
    case Happy => "Happy"
    case Sad => "Sad"
    case Neutral => "Neutral"
  }

  /** The label text as the C front ends compute it, straight from the value. */
  function Label(h: real): (s: string)
    ensures s == "Happy" <==> h > EmotionHappyThreshold
    ensures s == "Sad" <==> h < EmotionSadThreshold
    ensures s == "Neutral" <==> EmotionSadThreshold <= h <= EmotionHappyThreshold
  {
    if h > EmotionHappyThreshold then "Happy"
    else if h < EmotionSadThreshold then "Sad"
    else "Neutral"
  }

  /** Setting a preset and reading the emotion back gives the same preset. */
  lemma PresetRoundTrip(e: Emotion)
    ensures CurrentEmotion(EmotionToHappiness(e)) == e
  {
  }

  /** Naming the classified emotion gives the same text as labelling the value
      directly; the boundary values 0.3 and 0.7 are both Neutral. */
  lemma NameAgreesWithLabel(h: real)
    ensures EmotionName(CurrentEmotion(h)) == Label(h)
    ensures Label(EmotionSadThreshold) == "Neutral" && Label(EmotionHappyThreshold) == "Neutral"
  {
  }
}
