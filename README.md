# Robot face animation model

A Dafny model of the animated robot face: two eyes that blink on a timer and
a mouth whose curvature follows a happiness value in [0,1]. The program has
four front ends — a C API (`robot_face.c` with its drawing file), a
single-file raylib program, a C++ class, and a Skia application — each with
its own copy of the same small state machine and geometry. The model
states that state machine once, as pure functions over a `FaceState` value
(`FaceModel`), and proves every copy's mutators against it:

- `FaceModel` — the state record, `Step` (one `update(dt)`), `Trigger`
  (manual blink), `WithEmotion` (clamped set), their invariants, and runs of
  updates (`Run`) with the blink-duration and scenario lemmas.
- `Emotions` — the Sad/Neutral/Happy presets, the preset-to-happiness map,
  the > 0.7 / < 0.3 labelling rule and the C++ name switch.
- `Geometry` — the blink fold, pupil and highlight sizes, the mouth control
  point and the 30-chord quadratic Bezier polyline.
- `InputRules` — hotkeys, pointer hover, Skia's click bump and typed characters.
- `RobotFaceC`, `RobotFaceDraw` — the C API functions over a record class and
  the values its drawing code computes.
- `RaylibApp` — the single-file program's copies and one main-loop iteration.
- `RobotFaceCpp` — the C++ class and its input handlers.
- `SkiaApp` — the Skia class and its application's event handlers.
- `FaceConfig` — the shared constants, as exact reals.

Points where the code and its comments disagree (the model follows the code):

- Comments call the blink progress range 0 → 1; the code runs it 0 → 2 and
  folds it at 1 (`Geometry.BlinkFold`).
- Comments say a blink lasts 0.2 s; it lasts until 2 / 5 = 0.4 s of frame
  time has accumulated (`FaceModel.BlinkLastsPointFourSeconds`).
- An automatic blink is advanced in the same update that starts it, so
  `update(3.0)` from the initial state starts and finishes a blink and leaves
  the face exactly as it was (`FaceModel.FirstAutoBlinkScenario`); it does not
  leave a blink running at progress 0.
- `update(0.0)` is a no-op only while no automatic blink is due: a blink that
  ends in the same update as the timer passes 3 s leaves the timer at 3 s or
  more with the eye open, and the next update, even with dt = 0, starts a new
  blink (`FaceModel.ZeroStepIsIdle` states the condition).

The same eye and mouth expressions are repeated at
raylib/src/robot_face.cpp:120-163 (through the named `Config::` constants)
and, with literal constants equal to the configured ones, at
raylib/src/robot_face_raylib.c:65-122 and skia/src/robot_face_skia.cpp:136-196;
the `Geometry` members model all of them.

## Model

| member | source | states |
|---|---|---|
| `FaceConfig.MouthCenterIsMidpoint` | raylib/include/robot_face.hpp:43-45 | the mouth endpoints and centre share y = 400 and the centre is the endpoints' x-midpoint |
| `FaceConfig.ThresholdsOrdered` | raylib/include/robot_face.hpp:60-61 | 0 < sad threshold 0.3 < happy threshold 0.7 < 1, so the label regions are disjoint |
| `FaceConfig.BlinkDurationConstant` | raylib/include/robot_face_config.h:45-46 | threshold / speed = 0.4 s |
| `Emotions.EmotionToHappiness` | raylib/include/robot_face.hpp:122-129 | each preset maps into [0,1], below the sad threshold exactly for Sad and above the happy threshold exactly for Happy |
| `Emotions.CurrentEmotion` | raylib/src/robot_face.cpp:63-71 | Happy iff h > 0.7, Sad iff h < 0.3, Neutral iff 0.3 <= h <= 0.7 |
| `Emotions.EmotionName` | raylib/src/robot_face.cpp:74-81 | the name is one of Happy, Sad, Neutral and never Unknown |
| `Emotions.Label` | raylib/src/robot_face.c:60-66 | "Happy" iff h > 0.7, "Sad" iff h < 0.3, "Neutral" iff 0.3 <= h <= 0.7 |
| `Emotions.PresetRoundTrip` | raylib/src/robot_face.cpp:50-71 | classifying a preset's happiness gives the preset back |
| `Emotions.NameAgreesWithLabel` | raylib/src/robot_face.cpp:74-81 | the C++ name of the classified emotion equals the C label; 0.3 and 0.7 are Neutral |
| `FaceModel.Initial` | raylib/src/robot_face.c:12-18 | the start state is consistent, settled and not blinking |
| `FaceModel.ClampUnit` | raylib/src/robot_face.c:44-46 | result in [0,1], identity on [0,1], 0 below, 1 above |
| `FaceModel.Step` | raylib/src/robot_face.c:21-40 | happiness and speed unchanged; timer += dt, reset to 0 exactly when an automatic blink starts; an idle open eye stays open; a running or just-started blink advances by speed*dt in the same call and ends at progress 0 once it reaches 2; keeps the invariants (settledness for dt >= 0) |
| `FaceModel.Trigger` | raylib/src/robot_face.c:51-56 | afterwards blinking; a running blink is left unchanged; otherwise progress 0; happiness, timer and speed untouched; keeps the invariants |
| `FaceModel.WithEmotion` | raylib/src/robot_face.c:43-48 | happiness becomes the clamp of h and nothing else changes; keeps the invariants |
| `FaceModel.SetEmotionIdempotent` | raylib/src/robot_face.c:43-48 | a second identical set changes nothing |
| `FaceModel.RunKeepsInvariant` | raylib/src/robot_face.c:21-56 | any run of updates with dt >= 0 keeps happiness in [0,1], progress in [0,2), progress 0 when not blinking |
| `FaceModel.BlinkInFlight` | raylib/src/robot_face.c:30-39 | while the accumulated time keeps progress below 2, a blink keeps running with progress = start + 5 * elapsed, and the timer keeps counting |
| `FaceModel.BlinkLastsPointFourSeconds` | raylib/include/robot_face.hpp:51-53 | a triggered blink runs while less than 0.4 s has accumulated and the update reaching 0.4 s ends it |
| `FaceModel.AutoBlinkAdvancesAtOnce` | raylib/src/robot_face.c:25-39 | an automatic blink started with dt < 0.4 is already at progress 5*dt, with the timer at 0 |
| `FaceModel.FirstAutoBlinkScenario` | raylib/src/robot_face.c:12-39 | update(3.0) from the start state returns to the start state; five more updates of 0.1 only move the timer to 0.5 |
| `FaceModel.ZeroStepIsIdle` | raylib/src/robot_face.c:21-40 | dt = 0 changes nothing when no automatic blink is due |
| `Geometry.BlinkFold` | raylib/src/robot_face_draw.c:17-24 | the fold is min(p, 2 - p), in [0,1] for p in [0,2], and equals 1 only at p = 1 |
| `Geometry.BlinkFoldSymmetric` | raylib/src/robot_face.cpp:104-112 | the fold is symmetric about p = 1; it is 0, 1, 0 at p = 0, 1, 2 (both branches meet at 1) |
| `Geometry.PupilRadiusAt` | raylib/src/robot_face_draw.c:31 | pupil in [5,40] for bf in [0,1]; 40 at bf = 0, 5 at bf = 1 |
| `Geometry.PupilShrinksAsEyeCloses` | raylib/src/robot_face_draw.c:31 | the pupil strictly shrinks as the blink factor grows |
| `Geometry.Highlight` | raylib/src/robot_face_draw.c:37-40 | a highlight exists iff the pupil is larger than 10; it is proportional (15 per 40), strictly smaller than the pupil, and at most 15 |
| `Geometry.Eye` | skia/src/robot_face_skia.cpp:163-173 | the eye has a highlight iff bf < 6/7, and the highlight is smaller than the pupil |
| `Geometry.EyeAtBlinkKeyPoints` | raylib/src/robot_face_draw.c:17-40 | open eye (p = 0 or 2): pupil 40 with highlight 15; closed eye (p = 1): pupil 5, no highlight |
| `Geometry.ControlY` | raylib/src/robot_face_draw.c:50-53 | control y is 370 at h = 0, 400 at 0.5, 430 at 1 and within [370,430] for h in [0,1] |
| `Geometry.ControlYIncreasing` | raylib/src/robot_face.cpp:146 | control y strictly increases with happiness |
| `Geometry.MouthEndpoints` | raylib/src/robot_face.cpp:150-159 | the sample at t = 0 is MOUTH_START and at t = 30/30 is MOUTH_END |
| `Geometry.MouthXIsLinear` | raylib/src/robot_face_draw.c:62 | the sampled x is 300 + 200 t |
| `Geometry.MouthYForm` | raylib/src/robot_face_draw.c:63 | the sampled y is 400 + 2(1 - t)t(controlY - 400) |
| `Geometry.MouthYBetween` | raylib/src/robot_face_draw.c:62-66 | for t in [0,1] every sample lies between y = 400 and controlY; h = 0.5 gives a straight mouth |
| `Geometry.SampleXIncreasing` | raylib/src/robot_face_draw.c:57-66 | the 31 sample x values strictly increase |
| `Geometry.MouthChords` | raylib/src/robot_face_draw.c:57-69 | 30 chords, chord i joins the curve points at i/30 and (i+1)/30, the first starts at MOUTH_START, the last ends at MOUTH_END, and each ends where the next starts |
| `InputRules.KeyedHappiness` | raylib/src/robot_face_raylib.c:185-187 | S wins over N, N over H; each key gives its preset's value; no key leaves h |
| `InputRules.HoverHappiness` | raylib/src/robot_face_raylib.c:195-199 | inside the open mouth rectangle h' = min(h + 0.5 dt, 1); outside h is unchanged; for dt >= 0 it never decreases and stays in [0,1] |
| `InputRules.ClickHappiness` | skia/src/robot_face_skia.cpp:272-275 | inside the rectangle h' = min(h + 0.1, 1) for h in [0,1]; outside unchanged; never decreases |
| `InputRules.CharPreset` | skia/src/robot_face_skia.cpp:252-267 | h/H, n/N, s/S select the Happy, Neutral, Sad values; other characters select nothing |
| `InputRules.HotkeyLabels` | raylib/src/robot_face.cpp:84-88 | after the hotkeys the label reads the emotion of the winning key |
| `RobotFaceC.InitRobotFace` | raylib/src/robot_face.c:12-18 | the record becomes the start state, consistent and settled |
| `RobotFaceC.UpdateRobotFace` | raylib/src/robot_face.c:21-40 | the record changes exactly as `Step` says and stays consistent |
| `RobotFaceC.SetEmotion` | raylib/src/robot_face.c:43-48 | the two ifs store clamp(h) and change nothing else |
| `RobotFaceC.TriggerBlink` | raylib/src/robot_face.c:51-56 | the record changes exactly as `Trigger` says |
| `RobotFaceC.GetEmotionName` | raylib/src/robot_face.c:59-67 | "Happy" iff h > 0.7, "Sad" iff h < 0.3, else "Neutral" |
| `RobotFaceC.EmotionNameIsLabel` | raylib/src/robot_face.c:59-67 | the C label is the shared labelling rule |
| `RobotFaceC.GetHappiness` | raylib/src/robot_face.c:70-72 | returns the field, within [0,1] for a consistent record |
| `RobotFaceC.IsBlinking` | raylib/src/robot_face.c:75-77 | returns the flag; when false the progress is 0 |
| `RobotFaceDraw.DrawEye` | raylib/src/robot_face_draw.c:14-40 | the eye's sizes are `Eye(bf)`, pupil in [5,40], fully open at progress 0 and 2, closed without highlight at progress 1 |
| `RobotFaceDraw.DrawRobotFace` | raylib/src/robot_face_draw.c:73-94 | a record not blinking draws full pupils with highlights; the mouth is the 30-chord polyline from MOUTH_START to MOUTH_END; the caption is the label |
| `RaylibApp.InitRobotFace` | raylib/src/robot_face_raylib.c:34-40 | the copy with literals gives the same start state |
| `RaylibApp.UpdateRobotFace` | raylib/src/robot_face_raylib.c:43-62 | the copy with literals 3.0 and 2.0 changes the record exactly as `Step` |
| `RaylibApp.MinMaxClamp` | raylib/src/robot_face_raylib.c:153 | fmaxf(0, fminf(1, h)) equals clamp(h) |
| `RaylibApp.SetEmotion` | raylib/src/robot_face_raylib.c:152-154 | same effect as the C API's SetEmotion |
| `RaylibApp.TriggerBlink` | raylib/src/robot_face_raylib.c:157-162 | same effect as the C API's TriggerBlink |
| `RaylibApp.DrawnLabel` | raylib/src/robot_face_raylib.c:140-142 | the on-screen label is the shared labelling rule |
| `RaylibApp.Frame` | raylib/src/robot_face_raylib.c:181-199 | a click after the update never restarts a running blink; a click leaves a blink running; the timer is driven by the update alone; S with the pointer off the mouth gives 0; keeps the invariants for dt >= 0 |
| `RaylibApp.MainLoopIteration` | raylib/src/robot_face_raylib.c:181-199 | one loop iteration changes the record exactly as `Frame` |
| `RaylibApp.LoopKeepsInvariant` | raylib/src/robot_face_raylib.c:175-200 | any number of loop iterations with dt >= 0 keep the record's invariants |
| `RobotFaceCpp.StdClamp` | raylib/src/robot_face.cpp:116 | the result lies in [lo,hi] and is v when v already does |
| `RobotFaceCpp.RobotFace.ClampHappiness` | raylib/src/robot_face.cpp:115-117 | std::clamp to [0,1] is clamp(h) |
| `RobotFaceCpp.RobotFace.constructor` | raylib/src/robot_face.cpp:14-21 | the object starts valid with the clamped initial happiness and an open eye |
| `RobotFaceCpp.RobotFace.Update` | raylib/src/robot_face.cpp:24-42 | keeps the class invariant and changes the state exactly as `Step` |
| `RobotFaceCpp.RobotFace.SetEmotion` | raylib/src/robot_face.cpp:45-47 | keeps the invariant; happiness becomes clamp(h) |
| `RobotFaceCpp.RobotFace.SetEmotionPreset` | raylib/src/robot_face.cpp:50-52 | happiness becomes the preset's value and `CurrentEmotion()` then returns that preset |
| `RobotFaceCpp.RobotFace.TriggerBlink` | raylib/src/robot_face.cpp:55-60 | keeps the invariant and changes the state exactly as `Trigger` |
| `RobotFaceCpp.RobotFace.Happiness` | raylib/include/robot_face.hpp:91 | returns the field, in [0,1] |
| `RobotFaceCpp.RobotFace.IsBlinking` | raylib/include/robot_face.hpp:92 | returns the flag; when false the progress is 0 |
| `RobotFaceCpp.RobotFace.BlinkProgress` | raylib/include/robot_face.hpp:93 | returns the field, below 2, and non-zero only while blinking |
| `RobotFaceCpp.RobotFace.CurrentEmotion` | raylib/src/robot_face.cpp:63-71 | the class's classification is the shared rule |
| `RobotFaceCpp.RobotFace.EmotionName` | raylib/src/robot_face.cpp:74-81 | the name equals the label and is never "Unknown" |
| `RobotFaceCpp.RobotFace.HandleKeyboardInput` | raylib/src/robot_face.cpp:84-88 | the presets for H, N, S are applied in that order, so S wins |
| `RobotFaceCpp.RobotFace.HandleMouseInput` | raylib/src/robot_face.cpp:91-95 | a press has the effect of `Trigger`, no press changes nothing |
| `SkiaApp.RobotFace.constructor` | skia/src/robot_face_skia.cpp:41-49 | the object starts in the start state |
| `SkiaApp.RobotFace.Update` | skia/src/robot_face_skia.cpp:63-78 | the blink part changes the state exactly as `Step` and keeps the invariant |
| `SkiaApp.RobotFace.SetEmotion` | skia/src/robot_face_skia.cpp:122-124 | std::max(0, std::min(1, h)) stores clamp(h) |
| `SkiaApp.RobotFace.TriggerBlink` | skia/src/robot_face_skia.cpp:126-131 | same effect as `Trigger`; a no-op while blinking |
| `SkiaApp.RobotFace.GetHappiness` | skia/src/robot_face_skia.cpp:133 | returns the field, in [0,1] |
| `SkiaApp.RobotFace.EmotionLabel` | skia/src/robot_face_skia.cpp:101-103 | the drawn label is the shared labelling rule |
| `SkiaApp.MouseEffect` | skia/src/robot_face_skia.cpp:269-281 | a non-press changes nothing; a press leaves the face blinking, never restarts a running blink, never lowers happiness and keeps the invariants |
| `SkiaApp.RobotFaceApplication.constructor` | skia/src/robot_face_skia.cpp:224-228 | the application owns a fresh face in the start state |
| `SkiaApp.RobotFaceApplication.OnIdle` | skia/src/robot_face_skia.cpp:232-245 | an idle callback updates the face as `Step` |
| `SkiaApp.RobotFaceApplication.OnChar` | skia/src/robot_face_skia.cpp:252-267 | a preset character sets its value, any other character leaves the face unchanged |
| `SkiaApp.RobotFaceApplication.OnMouse` | skia/src/robot_face_skia.cpp:269-281 | the event changes the face as `MouseEffect` and is always reported handled |

## Left out

- Drawing, windows and text: every raylib and Skia drawing, window, font and text-formatting call, and the C++ `draw`/`drawUI`; only the numbers handed to them are modelled.
- Sine: Dafny has no trigonometry, so the blink factor `sin(fold * pi / 2)` is a parameter constrained by `Geometry.SineProfile` (in [0,1], 0 when the fold is 0, 1 when it is 1).
- RobotFaceDraw.DrawEye: takes the blink factor as a parameter instead of computing the sine, so its contract covers only the key points 0, 1 and 2 of the progress.
- RobotFaceDraw.DrawRobotFace: likewise takes the blink factor as a parameter.
- Floating point: every float and double is an exact real, so rounding, NaN handling in fmaxf/fminf/std::clamp, and the float/double mix of the timer are not modelled; the thresholds 0.3 and 0.7 are exact.
- Time and input sources: frame times, the mouse position, key and button states are parameters; `GetFrameTime`, `GetMousePosition`, `IsKeyPressed`, `IsMouseButtonPressed` and `std::chrono` are not modelled.
- The Skia FPS counter (`m_frameCount`, `m_fps`, `m_lastTime`) in `update`: it depends on the wall clock.
- `RobotFace::isMouseOverMouth` in the C++ class: it calls raylib's `CheckCollisionPointRec`, whose edge behaviour is not visible.
- raylib/src/main.c and raylib/src/main.cpp are not part of this model; main.c's hover rule is the single-file program's `InputRules.HoverHappiness`.
- The `default` branches of `emotionToHappiness` and `emotionName`: a Dafny `Emotion` can only be one of the three presets, so an out-of-range enumerator value cast into the C++ enum is not modelled.
- Move construction and assignment of the C++ class.
- The Skia mouth is drawn with the library's own quadratic curve (`quadTo`), not chords; only its control point (`Geometry.ControlY`) is modelled for it.
- The single-file raylib program declares its own copy of the record; the model uses the C API's `RobotFaceC.RobotFace` class, whose fields are the same.
