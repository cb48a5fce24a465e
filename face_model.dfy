/**
 * The animation state of the face as a value, and the effect of each
 * mutator on it. Every front end (C functions, C++ class, Skia class) is
 * proved to change its fields exactly as these functions say.
 */
module FaceModel {
  import opened FaceConfig

  datatype FaceState = FaceState(
    happiness: real,
    blinkProgress: real,
    blinkTimer: real,
    isBlinking: bool,
    blinkSpeed: real)

  /** The state every front end starts from. */
  function Initial(): (s: FaceState)
    ensures Consistent(s) && Settled(s)
    ensures !s.isBlinking
  {
    FaceState(InitialHappiness, 0.0, 0.0, false, BlinkSpeed)
  }

  /** What every operation keeps, whatever frame time it is given: happiness
      in [0,1], the fixed blink speed, an open eye has progress 0, and
      progress stays below the completion threshold. */
  predicate Consistent(s: FaceState) {
    && 0.0 <= s.happiness <= 1.0
    && s.blinkSpeed == BlinkSpeed
    && (!s.isBlinking ==> s.blinkProgress == 0.0)
    && s.blinkProgress < BlinkCompleteThreshold
  }

  /** What non-negative frame times keep in addition. */
  predicate Settled(s: FaceState) {
    0.0 <= s.blinkProgress && 0.0 <= s.blinkTimer
  }

  /** Clamp to the unit interval. */
  function ClampUnit(h: real): (r: real)
    ensures 0.0 <= r <= 1.0
    ensures 0.0 <= h <= 1.0 ==> r == h
    ensures h < 0.0 ==> r == 0.0
    ensures h > 1.0 ==> r == 1.0
  {
    if h < 0.0 then 0.0 else if h > 1.0 then 1.0 else h
  }

  /** Whether `Step(s, dt)` starts an automatic blink. */
  predicate AutoBlinkStarts(s: FaceState, dt: real) {
    s.blinkTimer + dt >= BlinkInterval && !s.isBlinking
  }

  /** One animation update by frame time `dt`. */
  function Step(s: FaceState, dt: real): (s': FaceState)
    // happiness and blink speed are never touched
    ensures s'.happiness == s.happiness && s'.blinkSpeed == s.blinkSpeed
    // the timer accumulates dt, and is reset exactly when an automatic blink starts
    ensures AutoBlinkStarts(s, dt) ==> s'.blinkTimer == 0.0
    ensures !AutoBlinkStarts(s, dt) ==> s'.blinkTimer == s.blinkTimer + dt
    // an open eye with no blink due stays open with its progress unchanged
    ensures !s.isBlinking && !AutoBlinkStarts(s, dt) ==>
              !s'.isBlinking && s'.blinkProgress == s.blinkProgress
    // a running or just-started blink advances by speed * dt in this very call,
    // and ends (progress back to 0) once it reaches the threshold
    ensures s.isBlinking || AutoBlinkStarts(s, dt) ==>
              var p := s.blinkProgress + s.blinkSpeed * dt;
              if p >= BlinkCompleteThreshold then !s'.isBlinking && s'.blinkProgress == 0.0
              else s'.isBlinking && s'.blinkProgress == p
    ensures Consistent(s) ==> Consistent(s')
    ensures Consistent(s) && Settled(s) && dt >= 0.0 ==> Settled(s')
  {
    var timer := s.blinkTimer + dt;
    var started := timer >= BlinkInterval && !s.isBlinking;
    var s1 := if started then s.(isBlinking := true, blinkTimer := 0.0) else s.(blinkTimer := timer);
    if !s1.isBlinking then s1
    else
      var p := s1.blinkProgress + s1.blinkSpeed * dt;
      if p >= BlinkCompleteThreshold then s1.(blinkProgress := 0.0, isBlinking := false)
      else s1.(blinkProgress := p)
  }

  /** A manual blink: starts one from progress 0 unless one is running. */
  function Trigger(s: FaceState): (s': FaceState)
    ensures s'.isBlinking
    ensures s.isBlinking ==> s' == s
    ensures !s.isBlinking ==> s'.blinkProgress == 0.0
    ensures s'.happiness == s.happiness && s'.blinkTimer == s.blinkTimer
    ensures s'.blinkSpeed == s.blinkSpeed
    ensures Consistent(s) ==> Consistent(s')
    ensures Consistent(s) && Settled(s) ==> Settled(s')
  {
    if s.isBlinking then s else s.(isBlinking := true, blinkProgress := 0.0)
  }

  /** Setting the emotion value: clamps and touches nothing else. */
  function WithEmotion(s: FaceState, h: real): (s': FaceState)
    ensures s'.happiness == ClampUnit(h)
    ensures s'.(happiness := s.happiness) == s
    ensures Consistent(s) ==> Consistent(s')
    ensures Settled(s) ==> Settled(s')
  {
    s.(happiness := ClampUnit(h))
  }

  /** Setting the same value twice changes nothing the second time. */
  lemma SetEmotionIdempotent(s: FaceState, h: real)
    ensures WithEmotion(WithEmotion(s, h), h) == WithEmotion(s, h)
  {
  }

  /** The sum of a run of frame times. */
  function Total(dts: seq<real>): real
    decreases |dts|
  {
    if dts == [] then 0.0 else dts[0] + Total(dts[1..])
  }

  predicate AllNonNegative(dts: seq<real>) {
    forall i :: 0 <= i < |dts| ==> dts[i] >= 0.0
  }

  /** A run of updates, one per frame time. */
  function Run(s: FaceState, dts: seq<real>): FaceState
    decreases |dts|
  {
    if dts == [] then s else Run(Step(s, dts[0]), dts[1..])
  }

  lemma {:induction false} TotalNonNegative(dts: seq<real>)
    requires AllNonNegative(dts)
    ensures Total(dts) >= 0.0
  {
    if dts != [] {
      TotalNonNegative(dts[1..]);
    }
  }

  /** Any run of updates with non-negative frame times keeps the invariants. */
  lemma {:induction false} RunKeepsInvariant(s: FaceState, dts: seq<real>)
    requires Consistent(s) && Settled(s) && AllNonNegative(dts)
    ensures Consistent(Run(s, dts)) && Settled(Run(s, dts))
    decreases |dts|
  {
    if dts != [] {
      RunKeepsInvariant(Step(s, dts[0]), dts[1..]);
    }
  }

  /** While a running blink has not accumulated enough frame time to reach
      the threshold, it is still running, its progress is the speed times the
      elapsed time, and the timer keeps counting through it. */
  lemma {:induction false} BlinkInFlight(s: FaceState, dts: seq<real>)
    requires Consistent(s) && s.isBlinking && AllNonNegative(dts)
    requires s.blinkProgress + BlinkSpeed * Total(dts) < BlinkCompleteThreshold
    ensures Run(s, dts).isBlinking
    ensures Run(s, dts).blinkProgress == s.blinkProgress + BlinkSpeed * Total(dts)
    ensures Run(s, dts).blinkTimer == s.blinkTimer + Total(dts)
    ensures Run(s, dts).happiness == s.happiness && Run(s, dts).blinkSpeed == BlinkSpeed
    decreases |dts|
  {
    if dts != [] {
      var s1 := Step(s, dts[0]);
      TotalNonNegative(dts[1..]);
      assert s1.isBlinking && s1.blinkProgress == s.blinkProgress + BlinkSpeed * dts[0];
      BlinkInFlight(s1, dts[1..]);
    }
  }

  /** A blink started by `Trigger` runs until the accumulated frame time
      reaches BlinkCompleteThreshold / BlinkSpeed = 0.4 s, and the update that
      reaches it ends the blink with the eye open. */
  lemma BlinkLastsPointFourSeconds(s: FaceState, dts: seq<real>, dt: real)
    requires Consistent(s) && !s.isBlinking && AllNonNegative(dts)
    requires Total(dts) < 0.4
    ensures Run(Trigger(s), dts).isBlinking
    ensures Total(dts) + dt >= 0.4 ==>
              !Step(Run(Trigger(s), dts), dt).isBlinking &&
              Step(Run(Trigger(s), dts), dt).blinkProgress == 0.0
  {
    BlinkInFlight(Trigger(s), dts);
    var r := Run(Trigger(s), dts);
    assert r.blinkProgress + r.blinkSpeed * dt == BlinkSpeed * (Total(dts) + dt);
  }

  /** The automatic blink is advanced in the same update that starts it. */
  lemma AutoBlinkAdvancesAtOnce(s: FaceState, dt: real)
    requires Consistent(s) && AutoBlinkStarts(s, dt) && 0.0 <= dt < 0.4
    ensures Step(s, dt).isBlinking
    ensures Step(s, dt).blinkProgress == BlinkSpeed * dt
    ensures Step(s, dt).blinkTimer == 0.0
  {
  }

  /** From the initial state one update of 3 s both starts and ends the
      automatic blink: the face is back where it started. A further five
      updates of 0.1 s only advance the timer. */
  lemma FirstAutoBlinkScenario()
    ensures Step(Initial(), 3.0) == Initial()
    ensures Run(Initial(), [3.0, 0.1, 0.1, 0.1, 0.1, 0.1]) == Initial().(blinkTimer := 0.5)
  {
  }

  /** A zero frame time leaves a consistent, settled state unchanged unless
      an automatic blink was already due. */
  lemma ZeroStepIsIdle(s: FaceState)
    requires Consistent(s) && s.blinkTimer < BlinkInterval
    ensures Step(s, 0.0) == s
  {
  }
}
