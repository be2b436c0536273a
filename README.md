# AirDrawing: the gesture painter's per-hand step

AirDrawing is a finger painter driven by a camera. For every frame, a hand
tracker reports the detected hands. For each hand, the program reads the
index, thumb and middle fingertips and does exactly one of three things:

- **Select pinch** (index and thumb less than 40 px apart): lift the pen. If
  the index tip is strictly inside one of the four toolbar buttons, take that
  button's colour: red, green, blue, or black as the eraser.
- **Draw pinch** (index and middle less than 40 px apart, thumb apart): put the
  pen down at the index tip if it was lifted. Then draw a line from the pen to
  the index tip, 100 px wide for the black eraser and 15 px otherwise, and move
  the pen there.
- **Neither**: lift the pen.

A frame without hands lifts the pen. The hands of one frame are processed in
order, and they share the pen and the colour. The pen is stored as the last
drawn point, and `(0, 0)` stands for "lifted".

This project models that step in Dafny:

- `Geometry` holds points, the pinch test and button rectangles. The pinch test
  compares the integer squared distance with `40 * 40`.
  `Geometry.HypotThreshold` shows this agrees with comparing the Euclidean
  distance with 40.
- `Palette` holds the colours (blue, green, red triples), the toolbar table,
  colour selection and stroke thickness.
- `Gestures` holds the step as functions on a `PaintState` value: the pen, the
  colour, and the canvas as the ordered log of drawn line segments. It also
  holds the step over the hands of a frame (`Hands`), the frame (`Frame`) and
  a session of frames (`Run`).
- `GestureProperties` holds the properties of the step, for one hand and over
  whole sessions.
- `VirtualPainter.Painter` is a class with the program's mutable state
  (`prevX`, `prevY`, `drawColor`, `canvas`). Its methods update the state in
  place, as the program does, and each is proved to follow the corresponding
  function of `Gestures`.

Notes on the code's behaviour that the model keeps:

- Colour selection tests the index tip, not the midpoint of the pinch. The
  midpoint is computed only to draw a marker.
- The `(0, 0)` marker collides with a real fingertip at the origin. A drawing
  hand at the origin leaves the pen looking lifted, so the next drawing hand
  starts a new stroke (`GestureProperties.OriginBreaksStroke`).
- Two drawing hands in one frame share the pen. When the first hand's tip is
  off the origin, the second hand's line starts at the first hand's tip
  (`GestureProperties.TwoHandsShareThePen`).
- The eraser button is painted white on screen but selects black.
- The program has no undo history, shapes, hold-to-confirm timers, saving,
  handedness roles or brush size that follows the hand. The brush is always
  15 px and the eraser 100 px. The model follows the code.

## Model

| member | source | states |
|---|---|---|
| `Geometry.Close` | VirtualDrawing.py:40-44 | Definition of the pinch test: squared distance below `40 * 40`. `Geometry.HypotThreshold` ties it to the hypotenuse comparison |
| `Geometry.StrictlyInside` | VirtualDrawing.py:50-56 | Definition of the open-rectangle test used by the buttons, borders excluded. Its properties are `Palette.SelectInside` and `Palette.SelectOutside` |
| `Palette.Thickness` | VirtualDrawing.py:60 | Definition of the stroke width: `EraserThickness` (100, line 18) for black, `BrushThickness` (15, line 17) otherwise. Its properties are `GestureProperties.DrawThickness` and `GestureProperties.StepConsistent` |
| `Gestures.Lift` | VirtualDrawing.py:67-70 | Definition of the pen reset to `(0, 0)`. Its properties are `GestureProperties.HoverLifts` and `GestureProperties.NoHandsLifts` |
| `Gestures.Step` | VirtualDrawing.py:44-68 | Definition of one hand's step on a state value. Its properties are the one-hand lemmas of `GestureProperties`, and `VirtualPainter.Painter.Step` is proved to follow it |
| `Gestures.Hands` | VirtualDrawing.py:31-68 | Definition of the loop over a frame's hands, in order, carrying the state. Its properties are `GestureProperties.HandsAppend`, `HandsCanvas`, `HandsConsistent` and `DrawRunIsPolyline` |
| `Gestures.Frame` | VirtualDrawing.py:30-70 | Definition of one frame: the hands in order, or the pen reset when there are none. Its properties are `GestureProperties.NoHandsLifts` and `TwoHandsShareThePen`, and `VirtualPainter.Painter.ProcessFrame` is proved to follow it |
| `Gestures.Run` | VirtualDrawing.py:20-70 | Definition of a session of frames. Its properties are `GestureProperties.RunConsistent`, `RunCanvas`, `RunIsHands` and `EmptyFrameRestarts`, and `VirtualPainter.Painter.ProcessFrames` is proved to follow it |
| `Geometry.SqDist` | VirtualDrawing.py:40-41 | The squared distance between two fingertips is never negative, and it is zero exactly when they coincide |
| `Geometry.HypotThreshold` | VirtualDrawing.py:40-44 | For the Euclidean distance `h` of two fingertips, `h < 40` holds exactly when the integer squared distance is below 1600, so the pinch tests agree with the hypotenuse comparison |
| `Palette.Pick` | VirtualDrawing.py:50-57 | The colour chosen is that of the first button, in test order, that strictly contains the point; with no such button it is the current colour; it is always the current colour or a button's colour |
| `Palette.SelectColor` | VirtualDrawing.py:50-57 | Selection from a palette colour always yields a palette colour |
| `Palette.ToolbarDisjoint` | VirtualDrawing.py:50-57 | No point is strictly inside two buttons, so the order of the tests never matters |
| `Palette.SelectInside` | VirtualDrawing.py:50-57 | An index tip strictly inside button k of the constant `Palette.Toolbar` selects exactly that button's colour: (0,200)x(0,100) red, (220,420) green, (440,640) blue, (1080,1280) black |
| `Palette.SelectOutside` | VirtualDrawing.py:50-57 | An index tip outside every button, including on a border or in a gap, keeps the current colour |
| `Gestures.Classify` | VirtualDrawing.py:44-68 | A hand selects exactly when index and thumb are pinched; it draws exactly when they are not and index and middle are; otherwise it does neither |
| `GestureProperties.SelectHasPriority` | VirtualDrawing.py:44-59 | A select pinch draws nothing, whatever the middle finger does; it lifts the pen and sets the colour by button selection |
| `GestureProperties.SelectOnButton` | VirtualDrawing.py:44-57 | A select pinch on a button switches the brush to that button's colour |
| `GestureProperties.SelectOffButtons` | VirtualDrawing.py:44-57 | A select pinch off every button keeps the brush colour |
| `GestureProperties.DrawStartsWithDot` | VirtualDrawing.py:63-66 | A draw step with the pen lifted appends only a zero-length line at the index tip, in the brush colour and its thickness, and puts the pen there |
| `GestureProperties.DrawContinues` | VirtualDrawing.py:63-66 | A draw step with the pen down appends the line from the pen to the index tip and moves the pen to the tip |
| `GestureProperties.DrawThickness` | VirtualDrawing.py:60 | A draw step appends exactly one line; it is 100 px wide exactly when the brush is black and 15 px wide exactly when it is not |
| `GestureProperties.HoverLifts` | VirtualDrawing.py:67-68 | A hand that neither selects nor draws lifts the pen and changes neither colour nor canvas |
| `GestureProperties.NoHandsLifts` | VirtualDrawing.py:69-70 | A frame without hands lifts the pen and changes neither colour nor canvas |
| `GestureProperties.InitialConsistent` | VirtualDrawing.py:14-18 | The constant `Gestures.Initial` is the state a session starts in: the pen lifted, a green brush and a blank canvas. It satisfies the session invariant |
| `GestureProperties.StepConsistent` | VirtualDrawing.py:44-68 | One hand's step keeps the invariant: the brush is one of the four palette colours, and every line has a palette colour and the thickness that goes with it |
| `GestureProperties.HandsConsistent` | VirtualDrawing.py:31-68 | The hands of a frame, in order, keep the invariant |
| `GestureProperties.RunConsistent` | VirtualDrawing.py:20-70 | Any session of frames keeps the invariant, so the brush colour is always one of the four palette colours |
| `GestureProperties.HandsCanvas` | VirtualDrawing.py:31-68 | The hands of a frame keep every earlier line and add exactly one line per drawing hand |
| `GestureProperties.HandsAppend` | VirtualDrawing.py:31-68 | Processing hands `a` then `b` equals processing `a + b`, so the state carries from one hand to the next |
| `GestureProperties.RunIsHands` | VirtualDrawing.py:20-70 | When no frame is empty, a session equals the steps of all its hands in order, so the state carries across frames |
| `GestureProperties.RunCanvas` | VirtualDrawing.py:20-70 | Over a session the canvas keeps every earlier line and gains exactly one line per drawing hand |
| `GestureProperties.DrawRunIsPolyline` | VirtualDrawing.py:63-66 | Consecutive drawing hands (every tip but the last off the origin) draw a connected polyline: line k ends at hand k's tip, line k+1 starts there, the first line starts at the pen or is a dot, every line has the brush colour and its thickness, the pen ends on the last tip and the colour is unchanged |
| `GestureProperties.InterruptedStrokeRestarts` | VirtualDrawing.py:44-68 | After a hand that does not draw, the next drawing hand draws a dot at its own tip and never a line back to the old stroke |
| `GestureProperties.EmptyFrameRestarts` | VirtualDrawing.py:63-70 | After a frame without hands, the next drawing hand draws a dot at its own tip |
| `GestureProperties.TwoHandsShareThePen` | VirtualDrawing.py:31-66 | With two drawing hands in one frame and the first hand's tip off the origin, the second hand's line runs from the first hand's tip to its own |
| `GestureProperties.OriginBreaksStroke` | VirtualDrawing.py:63-66 | A drawing hand at the origin leaves the pen looking lifted, so the next drawing hand draws a dot rather than a line from the origin |
| `VirtualPainter.Painter.constructor` | VirtualDrawing.py:14-18 | The new painter holds the initial state and the invariant |
| `VirtualPainter.Painter.Step` | VirtualDrawing.py:36-68 | The in-place update for one hand leaves exactly the state `Gestures.Step` gives from the old state, and keeps the invariant |
| `VirtualPainter.Painter.NoHands` | VirtualDrawing.py:69-70 | The in-place update for a frame without hands leaves the state `Gestures.Frame` gives for no hands |
| `VirtualPainter.Painter.ProcessFrame` | VirtualDrawing.py:30-70 | The loop over the detected hands, or the no-hand reset, leaves the state `Gestures.Frame` gives, and keeps the invariant |
| `VirtualPainter.Painter.ProcessFrames` | VirtualDrawing.py:20-70 | The frame loop over a session leaves the state `Gestures.Run` gives, and keeps the invariant |

## Left out

- Camera capture, frame flipping, colour conversion and the hand tracker (VirtualDrawing.py:6-12, 21-28). These are I/O and a foreign library. The frames of detected hands are parameters of `ProcessFrames`.
- The loop's exit on a failed camera read or on the `s` key (lines 22-23, 86-87). These are I/O. A session is a finite sequence of frames.
- Conversion of the tracker's normalised floating-point landmarks to integer pixels (lines 35-38). This is floating point before the core. The integer fingertips are the step's inputs.
- Rasterising lines into the 720x1280 pixel buffer (line 65). This is a foreign call. The canvas is modelled as the ordered log of the lines drawn on it, so pixel overlap and clipping are not modelled.
- Compositing the canvas over the frame (lines 71-76) and the on-screen markers, buttons, label and window (lines 33, 47-48, 61, 78-84, 89-90). These are presentation only.
- `Geometry.HypotThreshold` does not model floating-point rounding in the hypotenuse routine. It relates the integer test to the exact real distance.
