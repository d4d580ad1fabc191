/**
 * The landmark interpreter: the per-hand landmark list produced by the
 * detector (`handDetector.lmList`), the finger-up heuristic and the
 * draw-mode gesture.
 */
module Hand {

  /** A pixel coordinate; `y` grows downwards, as in the camera image. */
  datatype Point = Point(x: int, y: int)

  /** The detector reports 21 landmarks per hand; ids 0..20 are read. */
  const NumLandmarks: nat := 21

  /** Landmark id of the index fingertip, which is the drawing cursor. */
  const IndexTip: nat := 8

  /** Landmark ids of the five fingertips: thumb, index, middle, ring, little. */
  const TipIds: seq<nat> := [4, 8, 12, 16, 20]

  /**
   * A landmark list as the detector leaves it: empty when no hand was found,
   * otherwise one point per landmark id (the position in the list is the id).
   */
  predicate HasLandmarks(lm: seq<Point>) {
    lm == [] || |lm| >= NumLandmarks
  }

  /** A finger flag as the source stores it: 1 for up, 0 for down. */
  function Flag(b: bool): (f: int)
    ensures f == 0 || f == 1
    ensures f == 1 <==> b
  {
    if b then 1 else 0
  }

  /**
   * The five finger flags of a hand. The thumb compares x against the joint
   * just before its tip (a lateral test, meaningful only on a mirrored
   * image); every other finger compares y against the joint two ids before
   * its tip (smaller y is higher on screen).
   */
  function FingerFlags(lm: seq<Point>): (fingers: seq<int>)
    requires HasLandmarks(lm)
    ensures lm == [] ==> fingers == []
    ensures lm != [] ==> |fingers| == 5
    ensures forall i :: 0 <= i < |fingers| ==> fingers[i] == 0 || fingers[i] == 1
    ensures lm != [] ==> (fingers[0] == 1 <==> lm[4].x > lm[3].x)
    ensures lm != [] ==> (fingers[1] == 1 <==> lm[8].y < lm[6].y)
    ensures lm != [] ==> (fingers[2] == 1 <==> lm[12].y < lm[10].y)
    ensures lm != [] ==> (fingers[3] == 1 <==> lm[16].y < lm[14].y)
    ensures lm != [] ==> (fingers[4] == 1 <==> lm[20].y < lm[18].y)
  {
    if lm == [] then
      []
    else
      seq(5, i requires 0 <= i < 5 =>
            if i == 0 then Flag(lm[TipIds[0]].x > lm[TipIds[0] - 1].x)
            else Flag(lm[TipIds[i]].y < lm[TipIds[i] - 2].y))
  }

  /** `handDetector.fingersUp`: builds the flag list one finger at a time. */
  method FingersUp(lm: seq<Point>) returns (fingers: seq<int>)
    requires HasLandmarks(lm)
    ensures fingers == FingerFlags(lm)
  {
    fingers := [];
    if |lm| > 0 {
      if lm[TipIds[0]].x > lm[TipIds[0] - 1].x {
        fingers := fingers + [1];
      } else {
        fingers := fingers + [0];
      }
      for id := 1 to 5
        invariant fingers == FingerFlags(lm)[..id]
      {
        if lm[TipIds[id]].y < lm[TipIds[id] - 2].y {
          fingers := fingers + [1];
        } else {
          fingers := fingers + [0];
        }
      }
    }
  }

  /** Draw mode: the index finger is up and the middle finger is down. */
  predicate IsDrawMode(fingers: seq<int>)
    requires |fingers| >= 3
  {
    fingers[1] == 1 && fingers[2] == 0
  }

  /** The thumb, ring and little flags never decide the mode. */
  lemma DrawModeIgnoresOtherFingers(f: seq<int>, g: seq<int>)
    requires |f| == 5 && |g| == 5
    requires f[1] == g[1] && f[2] == g[2]
    ensures IsDrawMode(f) <==> IsDrawMode(g)
  {
  }

  /** Draw mode in terms of landmarks: index tip above its joint, middle tip not above its joint. */
  lemma DrawModeOfHand(lm: seq<Point>)
    requires |lm| >= NumLandmarks
    ensures IsDrawMode(FingerFlags(lm)) <==> lm[8].y < lm[6].y && lm[12].y >= lm[10].y
  {
  }
}
