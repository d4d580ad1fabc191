/**
 * The stroke smoother: a trailing window of at most five raw fingertip
 * positions, and the per-coordinate mean of that window.
 */
module Smoothing {
  import opened Hand

  /** Capacity of the smoothing window. */
  const Capacity: nat := 5

  /** The last `k` entries of `s` (all of `s` when it is shorter). */
  function Latest<T>(s: seq<T>, k: nat): (r: seq<T>)
    ensures |r| == if |s| < k then |s| else k
    ensures s == s[..|s| - |r|] + r
  {
    if |s| <= k then s else s[|s| - k..]
  }

  /**
   * One observation: the raw point is appended, and when the window then
   * holds more than five entries its oldest entry is dropped.
   */
  function Push(window: seq<Point>, p: Point): (w: seq<Point>)
    ensures |window| <= Capacity ==> w == Latest(window + [p], Capacity)
    ensures |window| <= Capacity ==> 1 <= |w| <= Capacity
    ensures w != [] && w[|w| - 1] == p
  {
    var appended := window + [p];
    if |appended| > Capacity then appended[1..] else appended
  }

  /** Euclidean division by a positive divisor brackets the dividend. */
  lemma DivBrackets(a: int, n: int)
    requires n > 0
    ensures n * (a / n) <= a < n * (a / n) + n
  {
    assert a == n * (a / n) + a % n;
  }

  function Abs(a: int): nat {
    if a < 0 then -a else a
  }

  /**
   * Python's `int(a / n)`: the quotient truncated toward zero, so its
   * magnitude is the floor of `|a| / n` and its sign is that of `a`.
   */
  function TruncDiv(a: int, n: int): (q: int)
    requires n > 0
    ensures a >= 0 ==> q >= 0
    ensures a < 0 ==> q <= 0
    ensures n * Abs(q) <= Abs(a) < n * Abs(q) + n
  {
    DivBrackets(Abs(a), n);
    if a >= 0 then a / n else -((-a) / n)
  }

  function SumX(ps: seq<Point>): int {
    if ps == [] then 0 else SumX(ps[..|ps| - 1]) + ps[|ps| - 1].x
  }

  function SumY(ps: seq<Point>): int {
    if ps == [] then 0 else SumY(ps[..|ps| - 1]) + ps[|ps| - 1].y
  }

  /**
   * The smoothed point: each coordinate is the truncated mean over the
   * window, so a window holding one point smooths to that point.
   */
  function Mean(window: seq<Point>): (r: Point)
    requires window != []
    ensures |window| == 1 ==> r == window[0]
  {
    var r := Point(TruncDiv(SumX(window), |window|), TruncDiv(SumY(window), |window|));
    if |window| == 1 then
      SumOfOne(window[0]);
      assert window == [window[0]];
      r
    else
      r
  }

  lemma SumOfOne(p: Point)
    ensures SumX([p]) == p.x && SumY([p]) == p.y
    ensures TruncDiv(p.x, 1) == p.x && TruncDiv(p.y, 1) == p.y
  {
    assert [p][..0] == [];
  }

  /** A point inside the closed box spanned by `lo` and `hi`. */
  predicate InBox(p: Point, lo: Point, hi: Point) {
    lo.x <= p.x <= hi.x && lo.y <= p.y <= hi.y
  }

  lemma MulStep(n: int, v: int)
    ensures n * v == (n - 1) * v + v
  {
  }

  lemma {:induction false} SumBounds(ps: seq<Point>, lo: Point, hi: Point)
    requires forall i :: 0 <= i < |ps| ==> InBox(ps[i], lo, hi)
    ensures |ps| * lo.x <= SumX(ps) <= |ps| * hi.x
    ensures |ps| * lo.y <= SumY(ps) <= |ps| * hi.y
  {
    if ps != [] {
      var n := |ps|;
      SumBounds(ps[..n - 1], lo, hi);
      assert InBox(ps[n - 1], lo, hi);
      MulStep(n, lo.x);
      MulStep(n, hi.x);
      MulStep(n, lo.y);
      MulStep(n, hi.y);
    }
  }

  lemma MulCancel(n: int, x: int, y: int)
    requires n > 0 && n * x < n * y
    ensures x < y
  {
  }

  /** A floor quotient `d` of `m` lies in every range `[lo, hi]` whose multiples bracket `m`. */
  lemma FloorBounds(m: int, n: int, d: int, lo: int, hi: int)
    requires n > 0 && n * d <= m < n * d + n && n * lo <= m <= n * hi
    ensures lo <= d <= hi
  {
    assert n * (d + 1) == n * d + n;
    MulCancel(n, lo, d + 1);
    MulCancel(n, d, hi + 1);
    assert n * (hi + 1) == n * hi + n;
  }

  lemma TruncDivBounds(a: int, n: int, lo: int, hi: int)
    requires n > 0 && n * lo <= a <= n * hi
    ensures lo <= TruncDiv(a, n) <= hi
  {
    var q := TruncDiv(a, n);
    if a >= 0 {
      FloorBounds(a, n, q, lo, hi);
    } else {
      assert n * -hi == -(n * hi) && n * -lo == -(n * lo) && n * -q == -(n * q);
      FloorBounds(-a, n, -q, -hi, -lo);
    }
  }

  /**
   * The smoothed point never leaves the bounding box of the window: smoothing
   * cannot move the pen beyond where the fingertip has recently been.
   */
  lemma MeanInBox(window: seq<Point>, lo: Point, hi: Point)
    requires window != []
    requires forall i :: 0 <= i < |window| ==> InBox(window[i], lo, hi)
    ensures InBox(Mean(window), lo, hi)
  {
    SumBounds(window, lo, hi);
    TruncDivBounds(SumX(window), |window|, lo.x, hi.x);
    TruncDivBounds(SumY(window), |window|, lo.y, hi.y);
  }

  /** A fingertip held still is drawn where it is held. */
  lemma MeanOfConstant(window: seq<Point>, p: Point)
    requires window != []
    requires forall i :: 0 <= i < |window| ==> window[i] == p
    ensures Mean(window) == p
  {
    MeanInBox(window, p, p);
  }

  /** Feeding a run of points into a window, one `Push` per point. */
  function Feed(window: seq<Point>, ps: seq<Point>): seq<Point> {
    if ps == [] then window else Push(Feed(window, ps[..|ps| - 1]), ps[|ps| - 1])
  }

  /**
   * From an empty window, a run of raw points leaves exactly the five most
   * recent ones (all of them while fewer than five were fed), oldest first.
   */
  lemma LatestSnoc<T>(s: seq<T>, x: T, k: nat)
    requires k > 0
    ensures Latest(Latest(s, k) + [x], k) == Latest(s + [x], k)
  {
    if |s| >= k {
      assert Latest(s, k) == s[|s| - k..];
      assert (s[|s| - k..] + [x])[1..] == s[|s| - k + 1..] + [x];
      assert (s + [x])[|s| + 1 - k..] == s[|s| - k + 1..] + [x];
    }
  }

  lemma {:induction false} FeedKeepsLatest(ps: seq<Point>)
    ensures Feed([], ps) == Latest(ps, Capacity)
  {
    if ps != [] {
      var init, last := ps[..|ps| - 1], ps[|ps| - 1];
      assert ps == init + [last];
      calc {
        Feed([], ps);
        Push(Feed([], init), last);
        { FeedKeepsLatest(init); }
        Push(Latest(init, Capacity), last);
        Latest(Latest(init, Capacity) + [last], Capacity);
        { LatestSnoc(init, last, Capacity); }
        Latest(ps, Capacity);
      }
    }
  }
}
