/**
 * The per-frame state machine of the painter: pen cursor, smoothing window,
 * active colour, the canvas as the list of segments drawn on it, and the
 * colour-change events that trigger the click sound.
 */
module Painter {
  import opened Wrappers
  import opened Hand
  import opened Palette
  import opened Smoothing

  /** Every stroke is drawn 5 pixels thick. */
  const StrokeWidth: nat := 5

  /** One line drawn onto the canvas. */
  datatype Segment = Segment(start: Point, end: Point, color: Color, width: int)

  /**
   * Everything that persists from one frame to the next. `cursor` is the pen
   * position (`prevX, prevY`), `positions` the smoothing window, `segments`
   * the canvas in drawing order and `clicks` the colours announced by a click.
   */
  datatype Session = Session(
    cursor: Option<Point>,
    positions: seq<Point>,
    color: Color,
    segments: seq<Segment>,
    clicks: seq<Color>)

  /** The state before the first frame. */
  const Initial: Session := Session(None, [], InitialColor, [], [])

  /**
   * A draw-mode frame. A pen that was up is put down at the raw tip with a
   * fresh window; the tip then enters the window, and a segment is drawn from
   * the cursor to the smoothed point, which becomes the new cursor.
   */
  function Stroke(s: Session, tip: Point): (r: Session)
    ensures |r.segments| == |s.segments| + 1 && r.segments[..|s.segments|] == s.segments
    ensures r.cursor.Some? && r.segments[|s.segments|].end == r.cursor.value
    ensures r.segments[|s.segments|].start == if s.cursor.Some? then s.cursor.value else tip
    ensures r.segments[|s.segments|].color == s.color && r.segments[|s.segments|].width == StrokeWidth
    ensures |s.positions| <= Capacity ==> 1 <= |r.positions| <= Capacity
    ensures r.positions != [] && r.positions[|r.positions| - 1] == tip
    ensures r.color == s.color && r.clicks == s.clicks
  {
    var start := if s.cursor.None? then tip else s.cursor.value;
    var window := Push(if s.cursor.None? then [] else s.positions, tip);
    var avg := Mean(window);
    s.(cursor := Some(avg),
       positions := window,
       segments := s.segments + [Segment(start, avg, s.color, StrokeWidth)])
  }

  /** A frame with a hand that is not in draw mode lifts the pen. */
  function PenUp(s: Session): (r: Session)
    ensures r.cursor.None? && r.positions == []
    ensures r.segments == s.segments && r.color == s.color && r.clicks == s.clicks
  {
    s.(cursor := None, positions := [])
  }

  /** Hovering a swatch of another colour makes it active and clicks once. */
  function SelectColor(s: Session, tip: Point): (r: Session)
    ensures r.cursor == s.cursor && r.positions == s.positions && r.segments == s.segments
    ensures r.color == s.color ==> r.clicks == s.clicks
    ensures r.color != s.color ==> ColorAt(tip) == Some(r.color) && r.clicks == s.clicks + [r.color]
    ensures ColorAt(tip).Some? ==> r.color == ColorAt(tip).value
    ensures ColorAt(tip).None? ==> r.color == s.color
  {
    match ColorAt(tip)
    case Some(c) => if c != s.color then s.(color := c, clicks := s.clicks + [c]) else s
    case None => s
  }

  /**
   * One frame, given the landmark list of the first detected hand (empty when
   * no hand was found): drawing first, then colour selection.
   */
  function Frame(s: Session, lm: seq<Point>): (r: Session)
    requires HasLandmarks(lm)
    ensures |s.segments| <= |r.segments| <= |s.segments| + 1
    ensures r.segments[..|s.segments|] == s.segments
  {
    if lm == [] then
      s
    else
      var tip := lm[IndexTip];
      var drawn := if IsDrawMode(FingerFlags(lm)) then Stroke(s, tip) else PenUp(s);
      SelectColor(drawn, tip)
  }

  predicate AllHaveLandmarks(frames: seq<seq<Point>>) {
    forall i :: 0 <= i < |frames| ==> HasLandmarks(frames[i])
  }

  /**
   * A run of frames, processed in arrival order. The canvas only grows:
   * earlier segments are never changed or removed, and no frame adds more
   * than one.
   */
  function Run(s: Session, frames: seq<seq<Point>>): (r: Session)
    requires AllHaveLandmarks(frames)
    ensures |s.segments| <= |r.segments| <= |s.segments| + |frames|
    ensures r.segments[..|s.segments|] == s.segments
  {
    if frames == [] then
      s
    else
      var mid := Run(s, frames[..|frames| - 1]);
      var r := Frame(mid, frames[|frames| - 1]);
      assert r.segments[..|s.segments|] == r.segments[..|mid.segments|][..|s.segments|];
      r
  }

  /**
   * The canvas never shows a jump: each segment starts where the previous one
   * ended, or has zero length (every stroke opens with such a segment).
   */
  predicate Chained(segments: seq<Segment>) {
    forall k :: 0 < k < |segments| ==>
      segments[k].start == segments[k - 1].end || segments[k].start == segments[k].end
  }

  /** No two consecutive clicks announce the same colour. */
  predicate NoRepeatedClick(clicks: seq<Color>) {
    forall k :: 0 < k < |clicks| ==> clicks[k] != clicks[k - 1]
  }

  /** The invariant every reachable session keeps. */
  predicate Inv(s: Session) {
    && |s.positions| <= Capacity
    && (s.cursor.None? <==> s.positions == [])
    && (s.cursor.Some? ==>
          s.cursor.value == Mean(s.positions)
          && s.segments != []
          && s.segments[|s.segments| - 1].end == s.cursor.value)
    && Chained(s.segments)
    && (forall k :: 0 <= k < |s.segments| ==>
          s.segments[k].width == StrokeWidth && s.segments[k].color in Colors)
    && s.color in Colors
    && (s.clicks != [] ==> s.clicks[|s.clicks| - 1] == s.color)
    && NoRepeatedClick(s.clicks)
  }

  lemma InitialInv()
    ensures Inv(Initial)
  {
  }

  /** A frame without a hand leaves cursor, window, canvas, colour and clicks alone. */
  lemma NoHandFrame(s: Session)
    ensures Frame(s, []) == s
  {
  }

  /**
   * Every draw-mode frame appends exactly one segment, in the colour held
   * before this frame's selection, from the old cursor (the raw tip when the
   * pen was up) to the truncated mean of the window, and moves the cursor
   * there. The window then holds 1 to 5 entries ending in the raw tip; while
   * the pen stays down the oldest entry is the one evicted.
   */
  lemma DrawFrame(s: Session, lm: seq<Point>)
    requires Inv(s) && |lm| >= NumLandmarks && IsDrawMode(FingerFlags(lm))
    ensures var t := Frame(s, lm); var tip := lm[IndexTip];
      && 1 <= |t.positions| <= Capacity
      && t.positions[|t.positions| - 1] == tip
      && (s.cursor.Some? ==> t.positions == Latest(s.positions + [tip], Capacity))
      && t.cursor == Some(Mean(t.positions))
      && t.segments == s.segments + [Segment(
           if s.cursor.Some? then s.cursor.value else tip, Mean(t.positions), s.color, StrokeWidth)]
  {
  }

  /**
   * The first draw-mode frame of a stroke restarts the window with the raw tip
   * alone, so the smoothed point is the raw tip and the segment drawn has zero
   * length.
   */
  lemma FirstDrawFrame(s: Session, lm: seq<Point>)
    requires Inv(s) && s.cursor.None? && |lm| >= NumLandmarks && IsDrawMode(FingerFlags(lm))
    ensures var t := Frame(s, lm); var tip := lm[IndexTip];
      && t.positions == [tip]
      && t.cursor == Some(tip)
      && t.segments == s.segments + [Segment(tip, tip, s.color, StrokeWidth)]
  {
  }

  /**
   * A hand that is not in draw mode lifts the pen, empties the window and
   * draws nothing; seeing the same hand again changes nothing further.
   */
  lemma PenUpFrame(s: Session, lm: seq<Point>)
    requires |lm| >= NumLandmarks && !IsDrawMode(FingerFlags(lm))
    ensures var t := Frame(s, lm);
      && t.cursor.None? && t.positions == [] && t.segments == s.segments
      && Frame(t, lm) == t
  {
  }

  /**
   * Colour selection: the colour changes only to the swatch under the tip,
   * and exactly when that swatch's colour differs from the active one; each
   * change appends one click and nothing else appends one.
   */
  lemma ColorFrame(s: Session, lm: seq<Point>)
    requires |lm| >= NumLandmarks
    ensures var t := Frame(s, lm); var tip := lm[IndexTip];
      && (t.color != s.color <==>
            tip.y < BandHeight && 0 <= tip.x < PaletteWidth && Colors[tip.x / SwatchWidth] != s.color)
      && (t.color != s.color ==> t.color == Colors[tip.x / SwatchWidth] && t.clicks == s.clicks + [t.color])
      && (t.color == s.color ==> t.clicks == s.clicks)
  {
  }

  /** Hovering outside the band, or right of the last swatch, neither changes the colour nor clicks. */
  lemma OutsidePaletteFrame(s: Session, lm: seq<Point>)
    requires |lm| >= NumLandmarks
    requires lm[IndexTip].y >= BandHeight || lm[IndexTip].x >= PaletteWidth || lm[IndexTip].x < 0
    ensures Frame(s, lm).color == s.color && Frame(s, lm).clicks == s.clicks
  {
  }

  lemma StrokeInv(s: Session, tip: Point)
    requires Inv(s)
    ensures Inv(Stroke(s, tip))
  {
    var d := Stroke(s, tip);
    assert Chained(d.segments) by {
      forall k | 0 < k < |d.segments|
        ensures d.segments[k].start == d.segments[k - 1].end || d.segments[k].start == d.segments[k].end
      {
        if k < |s.segments| {
          assert d.segments[k] == s.segments[k] && d.segments[k - 1] == s.segments[k - 1];
        }
      }
    }
  }

  lemma SelectColorInv(s: Session, tip: Point)
    requires Inv(s)
    ensures Inv(SelectColor(s, tip))
  {
  }

  /** Every frame keeps the session invariant. */
  lemma FramePreservesInv(s: Session, lm: seq<Point>)
    requires Inv(s) && HasLandmarks(lm)
    ensures Inv(Frame(s, lm))
  {
    if lm != [] {
      var tip := lm[IndexTip];
      var drawn := if IsDrawMode(FingerFlags(lm)) then Stroke(s, tip) else PenUp(s);
      if IsDrawMode(FingerFlags(lm)) {
        StrokeInv(s, tip);
      }
      assert Inv(drawn);
      SelectColorInv(drawn, tip);
    }
  }

  /** Every session reached from the initial one by any run of frames keeps the invariant. */
  lemma {:induction false} RunPreservesInv(s: Session, frames: seq<seq<Point>>)
    requires Inv(s) && AllHaveLandmarks(frames)
    ensures Inv(Run(s, frames))
  {
    if frames != [] {
      RunPreservesInv(s, frames[..|frames| - 1]);
      FramePreservesInv(Run(s, frames[..|frames| - 1]), frames[|frames| - 1]);
    }
  }

  /** A run of frames without a hand changes nothing. */
  lemma {:induction false} RunWithoutHand(s: Session, frames: seq<seq<Point>>)
    requires forall i :: 0 <= i < |frames| ==> frames[i] == []
    ensures Run(s, frames) == s
  {
    if frames != [] {
      RunWithoutHand(s, frames[..|frames| - 1]);
    }
  }

  /**
   * A stroke of two draw-mode frames at tips `a` then `b`, followed by a frame
   * with the index finger down, all below the palette band: two segments are
   * drawn, the zero-length one at `a` and one from `a` to the mean of `a` and
   * `b`, both in the active colour; afterwards the pen is up and the window empty.
   */
  /** Below the palette band a frame only draws or lifts the pen. */
  lemma BelowBandFrame(s: Session, lm: seq<Point>)
    requires |lm| >= NumLandmarks && lm[IndexTip].y >= BandHeight
    ensures Frame(s, lm) == if IsDrawMode(FingerFlags(lm)) then Stroke(s, lm[IndexTip]) else PenUp(s)
  {
  }

  lemma TwoFrameStroke(s: Session, f1: seq<Point>, f2: seq<Point>, f3: seq<Point>)
    requires Inv(s) && s.cursor.None?
    requires |f1| >= NumLandmarks && |f2| >= NumLandmarks && |f3| >= NumLandmarks
    requires IsDrawMode(FingerFlags(f1)) && IsDrawMode(FingerFlags(f2)) && !IsDrawMode(FingerFlags(f3))
    requires f1[IndexTip].y >= BandHeight && f2[IndexTip].y >= BandHeight && f3[IndexTip].y >= BandHeight
    ensures var a, b := f1[IndexTip], f2[IndexTip];
      var t := Frame(Frame(Frame(s, f1), f2), f3);
      && t.segments == s.segments + [Segment(a, a, s.color, StrokeWidth), Segment(a, Mean([a, b]), s.color, StrokeWidth)]
      && t.cursor.None? && t.positions == [] && t.color == s.color && t.clicks == s.clicks
  {
    var a, b := f1[IndexTip], f2[IndexTip];
    var s1 := Frame(s, f1);
    BelowBandFrame(s, f1);
    FirstDrawFrame(s, f1);
    var s2 := Frame(s1, f2);
    BelowBandFrame(s1, f2);
    assert s1.positions == [a] && s1.cursor == Some(a);
    assert s2.positions == [a, b];
    assert s2.segments == s.segments + [Segment(a, a, s.color, StrokeWidth), Segment(a, Mean([a, b]), s.color, StrokeWidth)];
    BelowBandFrame(s2, f3);
  }

  /**
   * The painter as the frame loop holds it: the fixed palette image and the
   * variables that `main` updates from frame to frame.
   */
  class VirtualPainter {
    const palette: array2<Color>
    var cursor: Option<Point>
    var positions: seq<Point>
    var currentColor: Color
    var segments: seq<Segment>
    var clicks: seq<Color>

    function State(): Session
      reads this
    {
      Session(cursor, positions, currentColor, segments, clicks)
    }

    ghost predicate Valid()
      reads this, palette
    {
      && palette.Length0 == BandHeight && palette.Length1 == PaletteWidth
      && (forall r, c :: 0 <= r < BandHeight && 0 <= c < PaletteWidth ==>
            palette[r, c] == Colors[c / SwatchWidth])
      && Inv(State())
    }

    constructor ()
      ensures Valid() && State() == Initial
    {
      var p := CreateColorPalette();
      palette := p;
      cursor := None;
      positions := [];
      currentColor := InitialColor;
      segments := [];
      clicks := [];
    }

    /** One pass of the frame loop, given the first hand's landmark list. */
    method Step(lm: seq<Point>)
      requires Valid() && HasLandmarks(lm)
      modifies this
      ensures Valid()
      ensures State() == Frame(old(State()), lm)
    {
      if |lm| > 0 {
        Draw(lm);
      }
      if |lm| > 0 {
        ChooseColor(lm[IndexTip]);
      }
    }

    /** The drawing half of a frame with a hand: extend the stroke, or lift the pen. */
    method Draw(lm: seq<Point>)
      requires Valid() && |lm| >= NumLandmarks
      modifies this
      ensures Valid()
      ensures State() == if IsDrawMode(FingerFlags(lm)) then Stroke(old(State()), lm[IndexTip])
                         else PenUp(old(State()))
    {
      ghost var before := State();
      var tip := lm[IndexTip];
      var fingers := FingersUp(lm);
      if fingers[1] == 1 && fingers[2] == 0 {
        if cursor.None? {
          cursor := Some(tip);
          positions := [];
        }
        positions := positions + [tip];
        if |positions| > Capacity {
          positions := positions[1..];
        }
        var avg := Mean(positions);
        if cursor.Some? {
          segments := segments + [Segment(cursor.value, avg, currentColor, StrokeWidth)];
        }
        cursor := Some(avg);
        assert IsDrawMode(FingerFlags(lm));
        assert State() == Stroke(before, tip);
        StrokeInv(before, tip);
      } else {
        cursor := None;
        positions := [];
        assert !IsDrawMode(FingerFlags(lm));
      }
    }

    /** The selection half of a frame with a hand: hit-test the raw tip against the palette. */
    method ChooseColor(tip: Point)
      requires Valid()
      modifies this
      ensures Valid()
      ensures State() == SelectColor(old(State()), tip)
    {
      ghost var before := State();
      if tip.y < BandHeight {
        var colorIndex := tip.x / SwatchWidth;
        if 0 <= colorIndex < |Colors| {
          var newColor := palette[0, colorIndex * SwatchWidth];
          assert ColorAt(tip) == Some(newColor);
          if newColor != currentColor {
            currentColor := newColor;
            clicks := clicks + [newColor];
          }
        }
      }
      SelectColorInv(before, tip);
    }

    /** The frame loop over a run of frames, one `Step` per frame. */
    method Play(frames: seq<seq<Point>>)
      requires Valid() && AllHaveLandmarks(frames)
      modifies this
      ensures Valid()
      ensures State() == Run(old(State()), frames)
    {
      ghost var start := State();
      for i := 0 to |frames|
        invariant Valid()
        invariant State() == Run(start, frames[..i])
      {
        assert frames[..i + 1][..i] == frames[..i];
        Step(frames[i]);
      }
      assert frames[..|frames|] == frames;
    }
  }
}
