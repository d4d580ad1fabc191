# Virtual painter — verified model of the gesture and stroke state machine

The virtual painter lets a user draw on a live camera image with a bare hand.
Each frame, a hand detector reports 21 landmarks for the first hand it finds.
From them the painter derives five finger flags (thumb, index, middle, ring,
little). Raising the index finger while the middle finger is down puts the
pen down. The index fingertip is then smoothed over a trailing window of its
last five positions, and a line of width 5 is drawn from the previous pen
position to the smoothed point. Any other hand shape lifts the pen. Hovering
the fingertip over one of eight colour swatches along the top of the frame
(each 80 x 50 pixels) makes that colour active and plays a click sound.

This project models that core in Dafny:

- `Hand` (hand.dfy): landmark lists, the finger-up heuristic
  (`handDetector.fingersUp`, written as a loop and proved against the
  function `FingerFlags`) and the draw-mode gesture.
- `Palette` (palette.dfy): the eight swatch colours and `create_color_palette`,
  which paints a 50 x 640 image of filled rectangles. It is proved to give
  every pixel the colour of the swatch whose column range holds it. The
  module also has the fingertip hit test `x // 80`.
- `Smoothing` (smoothing.dfy): the five-entry window (append, then drop the
  oldest entry on overflow) and the mean `int(sum / len)`, with truncation
  toward zero written out for negative coordinates.
- `Painter` (painter.dfy): the persistent session, which holds the pen
  cursor, the window, the active colour, the canvas as an append-only list of
  segments, and the colours announced by clicks. `Frame` gives one pass of
  `main`'s loop as a function and `Run` gives a sequence of passes. Lemmas
  state what a frame does and the invariant every reachable session keeps.
  The class `VirtualPainter` holds the same state in mutable fields. Its
  `Step` method updates them the way the loop body does and is proved equal
  to `Frame`. `Play` is the loop over frames, proved equal to `Run`.

Three behaviours of the code worth noting:

- A frame without a hand leaves the cursor, window, canvas and colour
  untouched (VirtualPainter.py:95 and :127 have no `else`). Losing the hand
  does not lift the pen.
- The first draw frame of a stroke does draw a segment: a zero-length one
  from the raw tip to itself. So a stroke over tips A then B draws two
  segments (`TwoFrameStroke`).
- The smoothed point truncates the mean toward zero (`int(sum / len)`). It
  does not round to the nearest pixel.

## Model

| member | source | states |
|---|---|---|
| `Hand.FingerFlags` | VirtualPainter.py:42-54 | no landmarks give no flags; otherwise exactly five 0/1 flags: thumb up iff x of landmark 4 > x of landmark 3, and index, middle, ring, little up iff y of tip 8, 12, 16, 20 < y of landmark 6, 10, 14, 18 |
| `Hand.FingersUp` | VirtualPainter.py:42-54 | the flag-building loop returns exactly `FingerFlags` of the landmark list |
| `Hand.IsDrawMode` | VirtualPainter.py:97 | the draw-mode test itself; its meaning is stated by `Hand.DrawModeIgnoresOtherFingers` and `Hand.DrawModeOfHand` |
| `Hand.DrawModeIgnoresOtherFingers` | VirtualPainter.py:97 | two flag vectors that agree on index and middle agree on draw mode, so thumb, ring and little never matter |
| `Hand.DrawModeOfHand` | VirtualPainter.py:96-97 | draw mode holds iff the index tip is above landmark 6 and the middle tip is not above landmark 10 |
| `Palette.CreateColorPalette` | VirtualPainter.py:56-63 | returns a fresh 50 x 640 image where pixel (r, c) has colour `colors[c // 80]`, including the columns where two inclusive rectangles overlap |
| `Palette.SwatchAt` | VirtualPainter.py:128-130 | a swatch is hit iff y < 50 and 0 <= x < 640; its index i < 8 satisfies 80i <= x < 80i + 80 |
| `Palette.ColorAt` | VirtualPainter.py:129-131 | a colour is found exactly when a swatch is hit, and it is then `colors[x // 80]`, one of the eight palette colours |
| `Palette.SwatchExamples` | VirtualPainter.py:128-130 | (45,10) hits swatch 0, (85,10) swatch 1, (170,20) swatch 2; (45,60), (640,10) and (-1,10) hit none |
| `Smoothing.Push` | VirtualPainter.py:102-105 | from a window of at most five, the result is the last five of window + [p]: 1 to 5 entries, ending in p, oldest evicted first |
| `Smoothing.FeedKeepsLatest` | VirtualPainter.py:102-105 | feeding any run of points into an empty window leaves exactly the five most recent, in order |
| `Smoothing.TruncDiv` | VirtualPainter.py:106-107 | `int(a / n)`: the magnitude is floor(abs(a) / n) and the sign is that of a |
| `Smoothing.MeanInBox` | VirtualPainter.py:106-107 | the smoothed point lies in every box that holds all window entries |
| `Smoothing.Mean` | VirtualPainter.py:106-107 | the per-coordinate truncated mean; a window holding one point smooths to that point (bounds in `Smoothing.MeanInBox`, `Smoothing.MeanOfConstant`) |
| `Smoothing.MeanOfConstant` | VirtualPainter.py:106-107 | a window of identical points smooths to that point |
| `Painter.InitialInv` | VirtualPainter.py:78-82 | the start state (no cursor, empty window, colour (255,0,0), blank canvas) satisfies the session invariant |
| `Painter.Stroke` | VirtualPainter.py:98-112 | appends exactly one segment, in the current colour and width 5, from the old cursor (the raw tip when the pen was up) to the new cursor; the window stays within 1..5 entries and ends in the raw tip; colour and clicks are unchanged |
| `Painter.PenUp` | VirtualPainter.py:113-116 | clears cursor and window and changes nothing else |
| `Painter.SelectColor` | VirtualPainter.py:127-135 | cursor, window and segments are unchanged; over a swatch the colour becomes that swatch's colour, elsewhere it stays; a changed colour appends exactly one click of it, an unchanged one appends none |
| `Painter.Frame` | VirtualPainter.py:95-135 | one loop pass; the canvas keeps every existing segment and gains at most one (cases in `Painter.NoHandFrame`, `Painter.DrawFrame`, `Painter.PenUpFrame`, `Painter.ColorFrame`) |
| `Painter.Run` | VirtualPainter.py:84-135 | any run of passes; earlier segments are never changed or removed and each frame adds at most one |
| `Painter.NoHandFrame` | VirtualPainter.py:95-135 | a frame without a hand changes nothing: cursor, window, segments, colour, clicks |
| `Painter.DrawFrame` | VirtualPainter.py:97-112 | a draw-mode frame appends exactly one segment from the old cursor (or the raw tip) to the truncated mean of the window, in the pre-selection colour and width 5; the cursor becomes that mean; the window has 1..5 entries ending in the raw tip and, while the pen stays down, is the last five of old window + tip |
| `Painter.FirstDrawFrame` | VirtualPainter.py:99-112 | with the pen up, a draw-mode frame resets the window to the raw tip alone, sets the cursor to the raw tip and appends a zero-length segment there |
| `Painter.PenUpFrame` | VirtualPainter.py:113-116 | a hand not in draw mode clears cursor and window and draws nothing; the same frame again changes nothing further |
| `Painter.ColorFrame` | VirtualPainter.py:127-135 | the colour changes iff y < 50, 0 <= x < 640 and `colors[x // 80]` differs from the active colour; it then becomes that colour and exactly one click is logged, otherwise the clicks are unchanged |
| `Painter.OutsidePaletteFrame` | VirtualPainter.py:127-130 | a tip at y >= 50, x >= 640 or x < 0 changes neither the colour nor the clicks |
| `Painter.StrokeInv` | VirtualPainter.py:98-112 | extending or starting a stroke keeps the session invariant |
| `Painter.SelectColorInv` | VirtualPainter.py:127-135 | colour selection keeps the session invariant |
| `Painter.FramePreservesInv` | VirtualPainter.py:95-135 | every frame keeps the invariant: window of at most 5, cursor present iff window non-empty and then equal to the window's mean and to the last segment's end, each segment starts where the previous one ended unless it has zero length (every stroke opens with one), width 5, palette colours, last click = active colour, no click repeats the previous one |
| `Painter.RunPreservesInv` | VirtualPainter.py:84-135 | the invariant holds after any run of frames |
| `Painter.RunWithoutHand` | VirtualPainter.py:95-127 | any run of frames without a hand leaves the session unchanged |
| `Painter.BelowBandFrame` | VirtualPainter.py:95-128 | with the tip below the palette band, a frame is exactly `Stroke` in draw mode and `PenUp` otherwise |
| `Painter.TwoFrameStroke` | VirtualPainter.py:97-116 | pen up, draw at a, draw at b, then lift (all below the band): exactly the segments (a, a) and (a, mean of [a, b]) are added in the active colour, and the pen ends up with no cursor and an empty window |
| `Painter.VirtualPainter.constructor` | VirtualPainter.py:76-83 | builds the palette image and starts in the initial session state |
| `Painter.VirtualPainter.Step` | VirtualPainter.py:92-135 | one loop pass updates the fields exactly as `Frame` does and keeps the invariant |
| `Painter.VirtualPainter.Draw` | VirtualPainter.py:96-116 | the drawing half of a frame with a hand, equal to `Stroke` in draw mode and to `PenUp` otherwise |
| `Painter.VirtualPainter.ChooseColor` | VirtualPainter.py:127-135 | the palette half of a frame: reads pixel (0, 80i) of the palette image and updates colour and clicks as `SelectColor` |
| `Painter.VirtualPainter.Play` | VirtualPainter.py:84-135 | the frame loop over a run of frames ends in `Run` of the start state |

## Left out

- Camera capture, resolution and FPS settings, `cv2.flip`, `imshow`, `waitKey` and the quit key: these are I/O. The model's frame loop runs over a given sequence of frames.
- MediaPipe hand detection and `findHands`, and the conversion `int(lm.x * w)` of normalised landmarks to pixels (VirtualPainter.py:20-36). Detection is a foreign library and the conversion is float arithmetic. The model takes the first hand's integer pixel landmark list as input, empty when no hand was found. The list's index is the landmark id.
- Rasterising segments with `cv2.line`: the canvas is the ordered list of segments drawn on it, not a bitmap.
- The palette overlay onto the camera image, and the `cv2.addWeighted` blend of camera and canvas: these are image output with float weights and saturating pixel arithmetic.
- FPS timing with `time.time()`: it uses wall-clock floats and its result is unused.
- Loading and playing the click sound, and the `print` calls. Each click is logged as the newly active colour in `clicks`.
- The conversion `tuple(map(int, current_color))` and the `numpy.uint8` channel type of colours read from the palette image. All palette channels are in 0..255, so their values and equality are unchanged, and colours are plain integer triples.
- Smoothing.TruncDiv: models `int(sum / len)` as exact truncating division. Python computes a float quotient first; this agrees whenever the sum is below 2^53 in magnitude, which covers every pixel coordinate.
- Two detected hands: the model handles the first hand only, as `findPosition(handNo=0)` does.
