/**
 * The pinch-to-ink logic of app/hand-pose-detection-copy/helper.js. Each animation
 * frame the detected hands' keypoints are rescaled in place from video pixels to
 * canvas pixels; then every right hand is checked for an open pinch (thumb tip and
 * index tip more than 160 canvas pixels apart), which drives the module-level state
 * `drawing` / `erasing` / `prev_coords` and appends line segments to the signature
 * canvas.
 */
module HandPose {
  import opened Wrappers
  import opened RealArith

  /** A keypoint or canvas position (`class Point` in the source). */
  datatype Point = Point(x: real, y: real)

  /** Pixel dimensions of the video frame or of the landmark canvas. */
  datatype Size = Size(width: real, height: real)

  /** One stroke drawn by `drawLine` on the signature canvas. */
  datatype Segment = Segment(from: Point, to: Point, color: string, lineWidth: real)

  /** A detected hand as the per-hand update sees it. */
  datatype HandSample = HandSample(handedness: string, keypoints: seq<Point>)

  /** The module-level drawing state together with the strokes on the signature canvas. */
  datatype InkState = InkState(drawing: bool, erasing: bool, prevCoords: Option<Point>, segments: seq<Segment>)

  const KeypointCount := 21
  const ThumbTip := 4
  const IndexFingerTip := 8
  const RightHand := "Right"
  /** The pinch distance, in canvas pixels, above which the hand is "ready to draw". */
  const ReadyDistance: real := 160.0
  /** `drawLine`'s default `lineWidth`, the one every stroke uses. */
  const DefaultLineWidth: real := 5.0

  /** The state the module starts in. */
  const InitialInk := InkState(false, false, None, [])

  /**
   * `calculateDistance` squared: `Math.hypot` is replaced by the sum of squares,
   * which is compared with the square of the threshold (see HypotComparison).
   */
  function SquaredDistance(p1: Point, p2: Point): (d: real)
    ensures d >= 0.0
    ensures d == 0.0 <==> p1 == p2
  {
    SquarePositive(p2.x - p1.x);
    SquarePositive(p2.y - p1.y);
    Square(p2.x - p1.x) + Square(p2.y - p1.y)
  }

  /** For a non-negative `d` whose square is the squared distance, `d > 160` iff the squares compare. */
  lemma HypotComparison(p1: Point, p2: Point, d: real)
    requires d >= 0.0 && Square(d) == SquaredDistance(p1, p2)
    ensures d > ReadyDistance <==> SquaredDistance(p1, p2) > Square(ReadyDistance)
  {
    if d > ReadyDistance {
      SquareStrictMono(ReadyDistance, d);
    } else if d < ReadyDistance {
      SquareStrictMono(d, ReadyDistance);
    }
  }

  /** The detector reports 21 keypoints per hand. */
  predicate WellFormed(h: HandSample)
  {
    |h.keypoints| == KeypointCount
  }

  predicate AllWellFormed(hs: seq<HandSample>)
  {
    forall i :: 0 <= i < |hs| ==> WellFormed(hs[i])
  }

  function IndexTip(h: HandSample): Point
    requires WellFormed(h)
  {
    h.keypoints[IndexFingerTip]
  }

  /** The strict test `calculateDistance(indexTip, thumbTip) > 160`. */
  predicate ReadyToDraw(h: HandSample)
    requires WellFormed(h)
  {
    SquaredDistance(h.keypoints[IndexFingerTip], h.keypoints[ThumbTip]) > Square(ReadyDistance)
  }

  /** The anchor is set exactly while drawing. */
  predicate Inv(s: InkState)
  {
    s.drawing == s.prevCoords.Some?
  }

  /** The effect of one hand of the `hands.forEach` on the shared state. */
  function StepHand(s: InkState, h: HandSample, color: string): (r: InkState)
    requires Inv(s) && WellFormed(h)
    ensures Inv(r)
    ensures s.segments <= r.segments && |r.segments| <= |s.segments| + 1
  {
    if h.handedness != RightHand then s
    else if ReadyToDraw(h) then
      if !s.drawing then s.(drawing := true, prevCoords := Some(IndexTip(h)), erasing := false)
      else
        s.(segments := s.segments + [Segment(s.prevCoords.value, IndexTip(h), color, DefaultLineWidth)],
           prevCoords := Some(IndexTip(h)), erasing := false)
    else s.(drawing := false, prevCoords := None)
  }

  /** The hands of one frame processed in list order, all against the one shared state. */
  function RunHands(s: InkState, hs: seq<HandSample>, color: string): (r: InkState)
    requires Inv(s) && AllWellFormed(hs)
    ensures Inv(r)
    ensures s.segments <= r.segments && |r.segments| <= |s.segments| + |hs|
    decreases |hs|
  {
    if hs == [] then s
    else StepHand(RunHands(s, hs[..|hs| - 1], color), hs[|hs| - 1], color)
  }

  predicate AllFramesWellFormed(frames: seq<seq<HandSample>>)
  {
    forall i :: 0 <= i < |frames| ==> AllWellFormed(frames[i])
  }

  /**
   * A run of animation frames, frame `i` drawn in `colors[i]` (the `color` state read
   * by that frame's callback); a frame with no hands skips the update (`hands.length > 0`).
   */
  function RunFrames(s: InkState, frames: seq<seq<HandSample>>, colors: seq<string>): (r: InkState)
    requires Inv(s) && AllFramesWellFormed(frames) && |colors| == |frames|
    ensures Inv(r)
    ensures s.segments <= r.segments
    decreases |frames|
  {
    if frames == [] then s
    else
      var n := |frames| - 1;
      var before := RunFrames(s, frames[..n], colors[..n]);
      if |frames[n]| > 0 then RunHands(before, frames[n], colors[n]) else before
  }

  /** The hands of a run of frames, in the order the callbacks see them. */
  function Flatten(frames: seq<seq<HandSample>>): (hs: seq<HandSample>)
    ensures AllFramesWellFormed(frames) ==> AllWellFormed(hs)
    decreases |frames|
  {
    if frames == [] then [] else Flatten(frames[..|frames| - 1]) + frames[|frames| - 1]
  }

  /** The colour each hand of `Flatten(frames)` is drawn in: the colour of its frame. */
  function HandColors(frames: seq<seq<HandSample>>, colors: seq<string>): (cs: seq<string>)
    requires |colors| == |frames|
    ensures |cs| == |Flatten(frames)|
    decreases |frames|
  {
    if frames == [] then []
    else
      var n := |frames| - 1;
      HandColors(frames[..n], colors[..n]) + seq(|frames[n]|, _ => colors[n])
  }

  /** Pen-down edge: an open pinch while not drawing anchors at the index tip and draws nothing. */
  lemma PenDown(s: InkState, h: HandSample, color: string)
    requires Inv(s) && WellFormed(h) && h.handedness == RightHand && ReadyToDraw(h) && !s.drawing
    ensures var r := StepHand(s, h, color);
      r.drawing && r.prevCoords == Some(IndexTip(h)) && r.segments == s.segments && !r.erasing
  {
  }

  /** Continuation: an open pinch while drawing adds one segment from the anchor and moves the anchor. */
  lemma StrokeContinues(s: InkState, h: HandSample, color: string)
    requires Inv(s) && WellFormed(h) && h.handedness == RightHand && ReadyToDraw(h) && s.drawing
    ensures var r := StepHand(s, h, color);
      && r.drawing && r.prevCoords == Some(IndexTip(h)) && !r.erasing
      && r.segments == s.segments + [Segment(s.prevCoords.value, IndexTip(h), color, DefaultLineWidth)]
  {
  }

  /** Pen up: a closed pinch resets the state and draws nothing. */
  lemma PenUp(s: InkState, h: HandSample, color: string)
    requires Inv(s) && WellFormed(h) && h.handedness == RightHand && !ReadyToDraw(h)
    ensures var r := StepHand(s, h, color);
      !r.drawing && r.prevCoords == None && r.segments == s.segments && r.erasing == s.erasing
  {
  }

  /** The threshold is strict: a pinch distance of exactly 160 lifts the pen. */
  lemma ExactlyThresholdLiftsPen(s: InkState, h: HandSample, color: string)
    requires Inv(s) && WellFormed(h) && h.handedness == RightHand
    requires SquaredDistance(h.keypoints[IndexFingerTip], h.keypoints[ThumbTip]) == Square(ReadyDistance)
    ensures !ReadyToDraw(h)
    ensures var r := StepHand(s, h, color); !r.drawing && r.prevCoords == None && r.segments == s.segments
  {
  }

  /** Hands that are not right hands change nothing, however many there are. */
  lemma {:induction false} OtherHandsIgnored(s: InkState, hs: seq<HandSample>, color: string)
    requires Inv(s) && AllWellFormed(hs)
    requires forall i :: 0 <= i < |hs| ==> hs[i].handedness != RightHand
    ensures RunHands(s, hs, color) == s
    decreases |hs|
  {
    if hs != [] {
      OtherHandsIgnored(s, hs[..|hs| - 1], color);
    }
  }

  /** Frames without hands, or with only other hands, leave the state as it was. */
  lemma {:induction false} IdleFramesChangeNothing(s: InkState, frames: seq<seq<HandSample>>, colors: seq<string>)
    requires Inv(s) && AllFramesWellFormed(frames) && |colors| == |frames|
    requires forall i, j :: 0 <= i < |frames| && 0 <= j < |frames[i]| ==> frames[i][j].handedness != RightHand
    ensures RunFrames(s, frames, colors) == s
    decreases |frames|
  {
    if frames != [] {
      var n := |frames| - 1;
      IdleFramesChangeNothing(s, frames[..n], colors[..n]);
      OtherHandsIgnored(s, frames[n], colors[n]);
    }
  }

  /** `erasing` is only ever assigned `false`: once false it stays false. */
  lemma {:induction false} ErasingStaysFalse(s: InkState, hs: seq<HandSample>, color: string)
    requires Inv(s) && AllWellFormed(hs) && !s.erasing
    ensures !RunHands(s, hs, color).erasing
    decreases |hs|
  {
    if hs != [] {
      ErasingStaysFalse(s, hs[..|hs| - 1], color);
    }
  }

  /** Consecutive segments join: each starts where the previous one ends. */
  predicate Chained(segs: seq<Segment>)
  {
    forall i :: 0 < i < |segs| ==> segs[i].from == segs[i - 1].to
  }

  /**
   * Within one uninterrupted stroke (right hands with an open pinch, while drawing),
   * each hand adds one segment to its index tip, the first starts at the anchor,
   * and the segments chain.
   */
  lemma {:induction false} StrokeChains(s: InkState, hs: seq<HandSample>, color: string)
    requires Inv(s) && s.drawing && AllWellFormed(hs)
    requires forall i :: 0 <= i < |hs| ==> hs[i].handedness == RightHand && ReadyToDraw(hs[i])
    ensures var r := RunHands(s, hs, color);
      var added := r.segments[|s.segments|..];
      && r.drawing && |added| == |hs| && Chained(added)
      && (forall i :: 0 <= i < |hs| ==>
            added[i].to == IndexTip(hs[i]) && added[i].color == color && added[i].lineWidth == DefaultLineWidth)
      && (|hs| > 0 ==> added[0].from == s.prevCoords.value && r.prevCoords == Some(IndexTip(hs[|hs| - 1])))
    decreases |hs|
  {
    if hs != [] {
      var prefix := hs[..|hs| - 1];
      var h := hs[|hs| - 1];
      StrokeChains(s, prefix, color);
      var mid := RunHands(s, prefix, color);
      var r := StepHand(mid, h, color);
      assert r == RunHands(s, hs, color);
      assert r.segments == mid.segments + [Segment(mid.prevCoords.value, IndexTip(h), color, DefaultLineWidth)];
      var addedMid := mid.segments[|s.segments|..];
      var added := r.segments[|s.segments|..];
      assert added == addedMid + [Segment(mid.prevCoords.value, IndexTip(h), color, DefaultLineWidth)];
      if |prefix| == 0 {
        assert mid == s;
      } else {
        assert mid.prevCoords == Some(IndexTip(prefix[|prefix| - 1]));
        assert added[|hs| - 1].from == added[|hs| - 2].to;
      }
    }
  }

  /** Processing `a` and then `b` against the shared state is processing `a + b`. */
  lemma {:induction false} RunHandsAppend(s: InkState, a: seq<HandSample>, b: seq<HandSample>, color: string)
    requires Inv(s) && AllWellFormed(a) && AllWellFormed(b)
    ensures AllWellFormed(a + b)
    ensures RunHands(s, a + b, color) == RunHands(RunHands(s, a, color), b, color)
    decreases |b|
  {
    if b == [] {
      assert a + b == a;
    } else {
      var n := |b| - 1;
      assert (a + b)[..|a + b| - 1] == a + b[..n];
      RunHandsAppend(s, a, b[..n], color);
    }
  }

  /**
   * Frame boundaries do not matter while the colour stays the same: a run of frames
   * is one `RunHands` over all their hands, since `prev_coords` carries over.
   */
  lemma {:induction false} RunFramesIsRunHandsOfFlatten(s: InkState, frames: seq<seq<HandSample>>,
                                                        colors: seq<string>, color: string)
    requires Inv(s) && AllFramesWellFormed(frames) && |colors| == |frames|
    requires forall i :: 0 <= i < |colors| ==> colors[i] == color
    ensures RunFrames(s, frames, colors) == RunHands(s, Flatten(frames), color)
    decreases |frames|
  {
    if frames != [] {
      var n := |frames| - 1;
      var prefix := frames[..n];
      RunFramesIsRunHandsOfFlatten(s, prefix, colors[..n], color);
      assert Flatten(frames) == Flatten(prefix) + frames[n];
      RunHandsAppend(s, Flatten(prefix), frames[n], color);
      if frames[n] == [] {
        assert Flatten(frames) == Flatten(prefix);
      }
    }
  }

  /** Two chained runs of segments chain when the second starts where the first ends. */
  lemma ChainedAppend(a: seq<Segment>, b: seq<Segment>)
    requires Chained(a) && Chained(b)
    requires |a| > 0 && |b| > 0 ==> b[0].from == a[|a| - 1].to
    ensures Chained(a + b)
  {
    forall i | 0 < i < |a + b|
      ensures (a + b)[i].from == (a + b)[i - 1].to
    {
      if i > |a| {
        assert (a + b)[i] == b[i - |a|] && (a + b)[i - 1] == b[i - 1 - |a|];
      }
    }
  }

  /**
   * `r` continues the stroke of `s` over the hands `hs` drawn in the colours `cs`:
   * still drawing, one segment per hand ending at its index tip in its colour, the
   * first from the anchor, the segments chained, and the anchor at the last tip.
   */
  predicate StrokeFrom(s: InkState, r: InkState, hs: seq<HandSample>, cs: seq<string>)
    requires AllWellFormed(hs) && |cs| == |hs|
  {
    && r.drawing && s.segments <= r.segments
    && var added := r.segments[|s.segments|..];
    && |added| == |hs| && Chained(added)
    && (forall i :: 0 <= i < |hs| ==>
          added[i].to == IndexTip(hs[i]) && added[i].color == cs[i] && added[i].lineWidth == DefaultLineWidth)
    && (|hs| > 0 ==> s.prevCoords == Some(added[0].from))
    && r.prevCoords == (if |hs| > 0 then Some(IndexTip(hs[|hs| - 1])) else s.prevCoords)
  }

  /** A stroke from `s` to `mid` followed by one from `mid` to `r` is one stroke from `s` to `r`. */
  lemma StrokeExtend(s: InkState, mid: InkState, r: InkState,
                     hs1: seq<HandSample>, cs1: seq<string>, hs2: seq<HandSample>, cs2: seq<string>)
    requires AllWellFormed(hs1) && |cs1| == |hs1| && AllWellFormed(hs2) && |cs2| == |hs2|
    requires StrokeFrom(s, mid, hs1, cs1) && StrokeFrom(mid, r, hs2, cs2)
    ensures AllWellFormed(hs1 + hs2) && StrokeFrom(s, r, hs1 + hs2, cs1 + cs2)
  {
    var hs, cs := hs1 + hs2, cs1 + cs2;
    assert AllWellFormed(hs) by {
      forall i | 0 <= i < |hs| ensures WellFormed(hs[i]) {
        if i >= |hs1| { assert hs[i] == hs2[i - |hs1|]; }
      }
    }
    var added1 := mid.segments[|s.segments|..];
    var added2 := r.segments[|mid.segments|..];
    var added := r.segments[|s.segments|..];
    assert s.segments <= r.segments;
    assert added == added1 + added2;
    ChainedAppend(added1, added2);
    forall i | 0 <= i < |hs|
      ensures added[i].to == IndexTip(hs[i]) && added[i].color == cs[i] && added[i].lineWidth == DefaultLineWidth
    {
      if i >= |hs1| {
        assert added[i] == added2[i - |hs1|] && hs[i] == hs2[i - |hs1|] && cs[i] == cs2[i - |hs1|];
      } else {
        assert added[i] == added1[i] && hs[i] == hs1[i] && cs[i] == cs1[i];
      }
    }
    if |hs1| > 0 {
      assert added[0] == added1[0];
    }
    if |hs2| > 0 {
      assert hs[|hs| - 1] == hs2[|hs2| - 1];
    }
  }

  /**
   * A stroke across frames (every hand seen is a right hand with an open pinch,
   * while drawing): each hand adds one segment ending at its index tip in its
   * frame's colour, the first starts at the anchor, and the segments chain,
   * whatever frames in between saw no hand.
   */
  lemma {:induction false} StrokeChainsAcrossFrames(s: InkState, frames: seq<seq<HandSample>>, colors: seq<string>)
    requires Inv(s) && s.drawing && AllFramesWellFormed(frames) && |colors| == |frames|
    requires forall i, j :: 0 <= i < |frames| && 0 <= j < |frames[i]| ==>
      frames[i][j].handedness == RightHand && ReadyToDraw(frames[i][j])
    ensures StrokeFrom(s, RunFrames(s, frames, colors), Flatten(frames), HandColors(frames, colors))
    decreases |frames|
  {
    if frames == [] {
      assert RunFrames(s, frames, colors).segments[|s.segments|..] == [];
    } else {
      var n := |frames| - 1;
      var prefix, last, c := frames[..n], frames[n], colors[n];
      StrokeChainsAcrossFrames(s, prefix, colors[..n]);
      var mid := RunFrames(s, prefix, colors[..n]);
      var r := RunFrames(s, frames, colors);
      var cl := seq(|last|, _ => c);
      assert Flatten(frames) == Flatten(prefix) + last;
      assert HandColors(frames, colors) == HandColors(prefix, colors[..n]) + cl;
      if last == [] {
        assert r == mid;
        assert Flatten(frames) == Flatten(prefix) && HandColors(frames, colors) == HandColors(prefix, colors[..n]);
      } else {
        assert r == RunHands(mid, last, c);
        StrokeChains(mid, last, c);
        assert StrokeFrom(mid, r, last, cl);
        StrokeExtend(s, mid, r, Flatten(prefix), HandColors(prefix, colors[..n]), last, cl);
      }
    }
  }

  /** A hand whose thumb and index tips sit at the given points; the other keypoints do not matter. */
  function Pose(handedness: string, thumb: Point, indexTip: Point): (h: HandSample)
    ensures WellFormed(h) && h.handedness == handedness
    ensures h.keypoints[ThumbTip] == thumb && IndexTip(h) == indexTip
  {
    HandSample(handedness,
      seq(KeypointCount, i => if i == ThumbTip then thumb else if i == IndexFingerTip then indexTip else Point(0.0, 0.0)))
  }

  /** An open pinch (200 pixels between the tips) with the index tip at (x, y). */
  function OpenRight(x: real, y: real): HandSample
  {
    Pose(RightHand, Point(x, y + 200.0), Point(x, y))
  }

  /**
   * Three frames of one right hand with an open pinch, index tip at (100,100),
   * (120,100), (140,100), with the colour changed between frames: the canvas ends
   * with exactly two segments, each in the colour of the frame that drew it.
   */
  lemma ThreeFrameStroke(c1: string, c2: string, c3: string)
    ensures RunFrames(InitialInk, [[OpenRight(100.0, 100.0)], [OpenRight(120.0, 100.0)], [OpenRight(140.0, 100.0)]],
                      [c1, c2, c3]).segments
      == [Segment(Point(100.0, 100.0), Point(120.0, 100.0), c2, DefaultLineWidth),
          Segment(Point(120.0, 100.0), Point(140.0, 100.0), c3, DefaultLineWidth)]
  {
    var a, b, c := OpenRight(100.0, 100.0), OpenRight(120.0, 100.0), OpenRight(140.0, 100.0);
    var frames, colors := [[a], [b], [c]], [c1, c2, c3];
    assert frames[..2] == [[a], [b]] && frames[..2][..1] == [[a]] && frames[..2][..1][..0] == [];
    assert colors[..2] == [c1, c2] && colors[..2][..1] == [c1] && colors[..2][..1][..0] == [];
    assert [a][..0] == [] && [b][..0] == [] && [c][..0] == [];
    assert ReadyToDraw(a) && ReadyToDraw(b) && ReadyToDraw(c);
    assert RunFrames(InitialInk, [], []) == InitialInk;
    assert RunHands(InitialInk, [], c1) == InitialInk;
    var s1 := RunFrames(InitialInk, [[a]], [c1]);
    assert s1 == RunHands(InitialInk, [a], c1) == StepHand(InitialInk, a, c1);
    assert s1 == InkState(true, false, Some(Point(100.0, 100.0)), []);
    var s2 := RunFrames(InitialInk, [[a], [b]], [c1, c2]);
    assert s2 == RunHands(s1, [b], c2) == StepHand(s1, b, c2);
    assert s2.prevCoords == Some(Point(120.0, 100.0));
    assert s2.segments == [Segment(Point(100.0, 100.0), Point(120.0, 100.0), c2, DefaultLineWidth)];
    assert RunHands(s2, [], c3) == s2;
    assert RunHands(s2, [c], c3) == StepHand(s2, c, c3);
    assert RunFrames(InitialInk, frames, colors) == RunHands(s2, [c], c3);
  }

  /**
   * A frame in which the hand is not seen does not reset the anchor: the stroke
   * resumes with a segment across the gap.
   */
  lemma MissingFrameKeepsAnchor(color: string)
    ensures RunFrames(InitialInk, [[OpenRight(10.0, 10.0)], [], [OpenRight(300.0, 40.0)]], [color, color, color]).segments
      == [Segment(Point(10.0, 10.0), Point(300.0, 40.0), color, DefaultLineWidth)]
  {
    var a, b := OpenRight(10.0, 10.0), OpenRight(300.0, 40.0);
    var frames: seq<seq<HandSample>>, colors := [[a], [], [b]], [color, color, color];
    assert frames[..2] == [[a], []] && frames[..2][..1] == [[a]] && frames[..2][..1][..0] == [];
    assert colors[..2] == [color, color] && colors[..2][..1] == [color] && colors[..2][..1][..0] == [];
    assert [a][..0] == [] && [b][..0] == [];
    assert ReadyToDraw(a) && ReadyToDraw(b);
    assert RunFrames(InitialInk, [], []) == InitialInk;
    assert RunHands(InitialInk, [], color) == InitialInk;
    var s1 := RunFrames(InitialInk, [[a]], [color]);
    assert s1 == RunHands(InitialInk, [a], color) == StepHand(InitialInk, a, color);
    assert s1.prevCoords == Some(Point(10.0, 10.0)) && s1.segments == [];
    assert RunFrames(InitialInk, [[a], []], [color, color]) == s1;
    assert RunHands(s1, [], color) == s1;
    assert RunHands(s1, [b], color) == StepHand(s1, b, color);
    assert RunFrames(InitialInk, frames, colors) == RunHands(s1, [b], color);
  }

  /**
   * Two right hands in one frame share the single state: from rest the first
   * anchors and the second draws a segment from the first hand's index tip.
   */
  lemma TwoRightHandsShareState(color: string)
    ensures RunHands(InitialInk, [OpenRight(0.0, 0.0), OpenRight(50.0, 60.0)], color).segments
      == [Segment(Point(0.0, 0.0), Point(50.0, 60.0), color, DefaultLineWidth)]
  {
  }

  /** The in-place rescale of one keypoint from video to canvas pixels. */
  function Rescale(p: Point, video: Size, canvas: Size): Point
    requires video.width != 0.0 && video.height != 0.0
  {
    Point(p.x / video.width * canvas.width, p.y / video.height * canvas.height)
  }

  function RescaleAll(ps: seq<Point>, video: Size, canvas: Size): (qs: seq<Point>)
    requires video.width != 0.0 && video.height != 0.0
  {
    seq(|ps|, i requires 0 <= i < |ps| => Rescale(ps[i], video, canvas))
  }

  /** Each axis is scaled on its own, so rescaling back from canvas to video gives the keypoint back. */
  lemma RescaleRoundTrip(p: Point, video: Size, canvas: Size)
    requires video.width != 0.0 && video.height != 0.0
    requires canvas.width != 0.0 && canvas.height != 0.0
    ensures Rescale(Rescale(p, video, canvas), canvas, video) == p
    ensures forall q: Point :: q.x == p.x ==> Rescale(q, video, canvas).x == Rescale(p, video, canvas).x
    ensures forall q: Point :: q.y == p.y ==> Rescale(q, video, canvas).y == Rescale(p, video, canvas).y
  {
  }

  /** A hand object from the detector; its keypoints array is rewritten in place. */
  class Hand {
    const handedness: string
    const keypoints: array<Point>

    constructor (handedness: string, keypoints: array<Point>)
      ensures this.handedness == handedness && this.keypoints == keypoints
    {
      this.handedness := handedness;
      this.keypoints := keypoints;
    }
  }

  function Sample(hand: Hand): HandSample
    reads hand.keypoints
  {
    HandSample(hand.handedness, hand.keypoints[..])
  }

  function Samples(hands: seq<Hand>): seq<HandSample>
    reads set h | h in hands :: h.keypoints
  {
    seq(|hands|, i requires 0 <= i < |hands| reads set h | h in hands :: h.keypoints => Sample(hands[i]))
  }

  /** `hand.keypoints.forEach(point => ...)`: every keypoint is rescaled in place. */
  method RescaleKeypoints(keypoints: array<Point>, video: Size, canvas: Size)
    requires video.width != 0.0 && video.height != 0.0
    modifies keypoints
    ensures keypoints[..] == RescaleAll(old(keypoints[..]), video, canvas)
  {
    for j := 0 to keypoints.Length
      invariant forall k :: 0 <= k < j ==> keypoints[k] == Rescale(old(keypoints[k]), video, canvas)
      invariant forall k :: j <= k < keypoints.Length ==> keypoints[k] == old(keypoints[k])
    {
      keypoints[j] := Rescale(keypoints[j], video, canvas);
    }
  }

  /** The nested rescale loop over all hands; each hand has its own keypoints array. */
  method RescaleHands(hands: seq<Hand>, video: Size, canvas: Size)
    requires video.width != 0.0 && video.height != 0.0
    requires forall i, j :: 0 <= i < j < |hands| ==> hands[i].keypoints != hands[j].keypoints
    modifies set h | h in hands :: h.keypoints
    ensures forall i :: 0 <= i < |hands| ==>
              hands[i].keypoints[..] == RescaleAll(old(hands[i].keypoints[..]), video, canvas)
  {
    for i := 0 to |hands|
      invariant forall k :: 0 <= k < i ==>
                  hands[k].keypoints[..] == RescaleAll(old(hands[k].keypoints[..]), video, canvas)
      invariant forall k :: i <= k < |hands| ==> hands[k].keypoints[..] == old(hands[k].keypoints[..])
    {
      RescaleKeypoints(hands[i].keypoints, video, canvas);
    }
  }

  /**
   * The module-level variables `drawing`, `erasing`, `prev_coords` of helper.js,
   * together with the segments drawn on the signature canvas.
   */
  class SignatureInk {
    var drawing: bool
    var erasing: bool
    var prevCoords: Option<Point>
    var segments: seq<Segment>

    function State(): InkState
      reads this
    {
      InkState(drawing, erasing, prevCoords, segments)
    }

    ghost predicate Valid()
      reads this
    {
      Inv(State()) && !erasing
    }

    constructor ()
      ensures Valid() && State() == InitialInk
    {
      drawing, erasing, prevCoords, segments := false, false, None, [];
    }

    /** `drawLine`: one more segment on the signature canvas. */
    method DrawLine(moveTo: Point, lineTo: Point, color: string, lineWidth: real)
      modifies this`segments
      ensures segments == old(segments) + [Segment(moveTo, lineTo, color, lineWidth)]
    {
      segments := segments + [Segment(moveTo, lineTo, color, lineWidth)];
    }

    /** `resetSigCanvas`: the canvas is cleared; the drawing state is left as it is. */
    method ResetSigCanvas()
      modifies this`segments
      ensures segments == []
    {
      segments := [];
    }

    /** The body of `hands.forEach(hand => ...)` for one hand. */
    method UpdateForHand(hand: Hand, color: string)
      requires Valid() && hand.keypoints.Length == KeypointCount
      modifies this
      ensures Valid()
      ensures State() == StepHand(old(State()), Sample(hand), color)
    {
      if hand.handedness == RightHand {
        var indexFingerCoords := hand.keypoints[IndexFingerTip];
        var thumbCoords := hand.keypoints[ThumbTip];
        var distance := SquaredDistance(indexFingerCoords, thumbCoords);
        if distance > Square(ReadyDistance) {
          if !drawing {
            drawing := true;
            prevCoords := Some(indexFingerCoords);
          } else {
            DrawLine(prevCoords.value, indexFingerCoords, color, DefaultLineWidth);
            prevCoords := Some(indexFingerCoords);
          }
          erasing := false;
        } else {
          drawing := false;
          prevCoords := None;
        }
      }
    }

    /** All hands of a frame, in list order, against the one shared state. */
    method ProcessHands(hands: seq<Hand>, color: string)
      requires Valid()
      requires forall i :: 0 <= i < |hands| ==> hands[i].keypoints.Length == KeypointCount
      modifies this
      ensures Valid()
      ensures State() == RunHands(old(State()), Samples(hands), color)
    {
      for i := 0 to |hands|
        invariant Valid()
        invariant State() == RunHands(old(State()), Samples(hands[..i]), color)
      {
        assert Samples(hands[..i + 1]) == Samples(hands[..i]) + [Sample(hands[i])];
        assert Samples(hands[..i + 1])[..i] == Samples(hands[..i]);
        UpdateForHand(hands[i], color);
      }
      assert hands[..|hands|] == hands;
    }

    /**
     * One animation frame: when hands are detected, rescale their keypoints to the
     * canvas and then run the per-hand update on the rescaled keypoints.
     */
    method OnAnimationFrame(hands: seq<Hand>, video: Size, canvas: Size, color: string)
      requires Valid()
      requires video.width != 0.0 && video.height != 0.0
      requires forall i :: 0 <= i < |hands| ==> hands[i].keypoints.Length == KeypointCount
      requires forall i, j :: 0 <= i < j < |hands| ==> hands[i].keypoints != hands[j].keypoints
      modifies this, set h | h in hands :: h.keypoints
      ensures Valid()
      ensures forall i :: 0 <= i < |hands| ==>
                hands[i].keypoints[..] == RescaleAll(old(hands[i].keypoints[..]), video, canvas)
      ensures State() == RunHands(old(State()), Samples(hands), color)
    {
      if |hands| > 0 {
        RescaleHands(hands, video, canvas);
        ProcessHands(hands, color);
      }
    }
  }
}
