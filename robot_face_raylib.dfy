/**
 * The single-file raylib program: its own copy of the record functions
 * (with literal constants, and clamping through fminf/fmaxf), its on-screen
 * label, and one iteration of its main loop: update, hotkeys, click, hover.
 *
 * Its record declaration is field for field the C API's, so the C API's
 * class stands for it.
 */
module RaylibApp {
  import opened FaceConfig
  import opened FaceModel
  import opened InputRules
  import Emotions
  import RobotFaceC

  method InitRobotFace(face: RobotFaceC.RobotFace)
    modifies face
    ensures face.Model() == Initial()
  {
    face.happiness := 0.8;
    face.blinkProgress := 0.0;
    face.blinkTimer := 0.0;
    face.isBlinking := false;
    face.blinkSpeed := 5.0;
  }

  /** The same update as the C API's, written with the literals 3.0 and 2.0. */
  method UpdateRobotFace(face: RobotFaceC.RobotFace, dt: real)
    modifies face
    ensures face.Model() == Step(old(face.Model()), dt)
  {
    face.blinkTimer := face.blinkTimer + dt;
    if face.blinkTimer >= 3.0 && !face.isBlinking {
      face.isBlinking := true;
      face.blinkTimer := 0.0;
    }
    if face.isBlinking {
      face.blinkProgress := face.blinkProgress + face.blinkSpeed * dt;
      if face.blinkProgress >= 2.0 {
        face.blinkProgress := 0.0;
        face.isBlinking := false;
      }
    }
  }

  /** `fmaxf(0, fminf(1, h))` is the clamp to [0,1]. */
  function MinMaxClamp(h: real): (r: real)
    ensures r == ClampUnit(h)
  {
    Max(0.0, Min(1.0, h))
  }

  method SetEmotion(face: RobotFaceC.RobotFace, h: real)
    modifies face
    ensures face.Model() == WithEmotion(old(face.Model()), h)
  {
    face.happiness := MinMaxClamp(h);
  }

  method TriggerBlink(face: RobotFaceC.RobotFace)
    modifies face
    ensures face.Model() == Trigger(old(face.Model()))
  {
    if !face.isBlinking {
      face.isBlinking := true;
      face.blinkProgress := 0.0;
    }
  }

  /** The label the drawing prints: "Neutral" unless overwritten. */
  function DrawnLabel(h: real): (s: string)
    ensures s == Emotions.Label(h)
  {
    if h > 0.7 then "Happy" else if h < 0.3 then "Sad" else "Neutral"
  }

  /** The input gathered for one frame. */
  datatype FrameInput = FrameInput(keys: KeyState, clicked: bool, mouse: Vec2)

  /** The state after one iteration of the main loop: update, then the
      hotkeys, then a click, then the hover rule writing happiness directly. */
  function Frame(s: FaceState, dt: real, input: FrameInput): (s': FaceState)
    // a click comes after the update, so it never restarts a running blink
    ensures Step(s, dt).isBlinking ==>
              s'.isBlinking && s'.blinkProgress == Step(s, dt).blinkProgress
    ensures input.clicked ==> s'.isBlinking
    ensures !input.clicked ==> s'.isBlinking == Step(s, dt).isBlinking
    // the blink timer is only ever driven by the update
    ensures s'.blinkTimer == Step(s, dt).blinkTimer
    // with S pressed and the pointer off the mouth, the face ends up sad
    ensures input.keys.sad && !InHoverArea(input.mouse) ==> s'.happiness == 0.0
    ensures Consistent(s) && Settled(s) && dt >= 0.0 ==> Consistent(s') && Settled(s')
  {
    var updated := Step(s, dt);
    var keyed := updated.(happiness := KeyedHappiness(updated.happiness, input.keys));
    var clicked := if input.clicked then Trigger(keyed) else keyed;
    clicked.(happiness := HoverHappiness(clicked.happiness, dt, input.mouse))
  }

  /** One iteration of the main loop, drawing left out. */
  method MainLoopIteration(face: RobotFaceC.RobotFace, dt: real, input: FrameInput)
    modifies face
    ensures face.Model() == Frame(old(face.Model()), dt, input)
  {
    UpdateRobotFace(face, dt);
    if input.keys.happy { SetEmotion(face, 1.0); }
    if input.keys.neutral { SetEmotion(face, 0.5); }
    if input.keys.sad { SetEmotion(face, 0.0); }
    if input.clicked { TriggerBlink(face); }
    if InHoverArea(input.mouse) {
      face.happiness := Min(face.happiness + dt * 0.5, 1.0);
    }
  }

  /** Several iterations of the main loop. */
  function Frames(s: FaceState, dts: seq<real>, inputs: seq<FrameInput>): FaceState
    requires |dts| == |inputs|
    decreases |dts|
  {
    if dts == [] then s else Frames(Frame(s, dts[0], inputs[0]), dts[1..], inputs[1..])
  }

  /** Running the loop from the initial record with non-negative frame
      times keeps every invariant of the record. */
  lemma {:induction false} LoopKeepsInvariant(s: FaceState, dts: seq<real>, inputs: seq<FrameInput>)
    requires |dts| == |inputs|
    requires Consistent(s) && Settled(s) && AllNonNegative(dts)
    ensures Consistent(Frames(s, dts, inputs)) && Settled(Frames(s, dts, inputs))
    decreases |dts|
  {
    if dts != [] {
      LoopKeepsInvariant(Frame(s, dts[0], inputs[0]), dts[1..], inputs[1..]);
    }
  }
}
