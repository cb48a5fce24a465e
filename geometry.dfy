/**
 * The pure geometry of the face: how far the eye is folded shut at a given
 * blink progress, the pupil and highlight sizes, the mouth's control point
 * and the quadratic Bezier curve sampled into chords.
 *
 * The blink factor itself is `sin(fold * pi / 2)`; Dafny has no sine, so the
 * factor enters as a parameter `bf`, constrained by `SineProfile` to the
 * three facts the drawing relies on.
 */
module Geometry {
  import opened FaceConfig

  /** The argument (in quarter turns) the blink factor's sine is taken of:
      the progress while closing (p < 1), and `2 - p` while opening. It is the
      smaller of the two ramps, so the two branches meet at p = 1. */
  function BlinkFold(p: real): (a: real)
    ensures a == Min(p, 2.0 - p)
    ensures 0.0 <= p <= 2.0 ==> 0.0 <= a <= 1.0
    ensures a == 1.0 <==> p == 1.0
  {
    if p < 1.0 then p else 2.0 - p
  }

  /** Folding is symmetric about full closure, and the closing formula `p`
      and the opening formula `2 - p` agree at p = 1. */
  lemma BlinkFoldSymmetric(p: real)
    ensures BlinkFold(2.0 - p) == BlinkFold(p)
    ensures BlinkFold(0.0) == 0.0 && BlinkFold(1.0) == 1.0 && BlinkFold(2.0) == 0.0
  {
  }

  /** What `sin(BlinkFold(p) * pi / 2)` is known to satisfy for p in [0,2]:
      a value in [0,1] that is 0 with the eye open and 1 at full closure. */
  predicate SineProfile(p: real, bf: real) {
    && 0.0 <= bf <= 1.0
    && (BlinkFold(p) == 0.0 ==> bf == 0.0)
    && (BlinkFold(p) == 1.0 ==> bf == 1.0)
  }

  /** The pupil radius at blink factor `bf`: 40 when open, 5 when closed. */
  function PupilRadiusAt(bf: real): (r: real)
    ensures 0.0 <= bf <= 1.0 ==> PupilMinRadius <= r <= PupilRadius
    ensures bf == 0.0 ==> r == PupilRadius
    ensures bf == 1.0 ==> r == PupilMinRadius
  {
    PupilRadius * (1.0 - bf * PupilShrink)
  }

  /** The pupil shrinks as the eye closes. */
  lemma PupilShrinksAsEyeCloses(bf1: real, bf2: real)
    requires bf1 < bf2
    ensures PupilRadiusAt(bf2) < PupilRadiusAt(bf1)
  {
  }

  /** The highlight circle, drawn only over a pupil larger than 10, with a
      radius proportional to the pupil's (15 for the full pupil of 40). */
  function Highlight(pupil: real): (o: Option<real>)
    ensures o.Some? <==> pupil > HighlightMinPupil
    ensures o.Some? ==> 0.0 < o.value < pupil
    ensures o.Some? ==> o.value * PupilRadius == HighlightRadius * pupil
    ensures o.Some? && pupil <= PupilRadius ==> o.value <= HighlightRadius
  {
    if pupil > HighlightMinPupil then Some(HighlightRadius * (pupil / PupilRadius)) else None
  }

  datatype EyeShape = EyeShape(pupilRadius: real, highlight: Option<real>)

  /** The sizes an eye is drawn with at blink factor `bf`. */
  function Eye(bf: real): (e: EyeShape)
    ensures 0.0 <= bf <= 1.0 ==> PupilMinRadius <= e.pupilRadius <= PupilRadius
    ensures e.highlight.Some? <==> bf < 6.0 / 7.0
    ensures e.highlight.Some? ==> e.highlight.value < e.pupilRadius
  {
    var r := PupilRadiusAt(bf);
    EyeShape(r, Highlight(r))
  }

  /** An open eye (progress 0 or 2) has the full pupil and a highlight of 15;
      at full closure (progress 1) the pupil is 5 and has no highlight. */
  lemma EyeAtBlinkKeyPoints(p: real, bf: real)
    requires SineProfile(p, bf)
    ensures p == 0.0 || p == 2.0 ==> Eye(bf) == EyeShape(PupilRadius, Some(HighlightRadius))
    ensures p == 1.0 ==> Eye(bf) == EyeShape(PupilMinRadius, None)
  {
  }

  /** The y coordinate of the mouth's control point. */
  function ControlY(h: real): (y: real)
    ensures 0.0 <= h <= 1.0 ==> 370.0 <= y <= 430.0
    ensures h == 0.0 ==> y == 370.0
    ensures h == 0.5 ==> y == MouthCenter.y
    ensures h == 1.0 ==> y == 430.0
  {
    MouthCenter.y + (h - 0.5) * MouthCurveFactor
  }

  /** Happier means a lower control point on screen (a larger y). */
  lemma ControlYIncreasing(h1: real, h2: real)
    requires h1 < h2
    ensures ControlY(h1) < ControlY(h2)
  {
  }

  function Control(h: real): Vec2 {
    Vec2(MouthCenter.x, ControlY(h))
  }

  /** The quadratic Bezier curve through p0, p1, p2 at parameter t. */
  function Bezier(p0: Vec2, p1: Vec2, p2: Vec2, t: real): Vec2 {
    Vec2((1.0 - t) * (1.0 - t) * p0.x + 2.0 * (1.0 - t) * t * p1.x + t * t * p2.x,
         (1.0 - t) * (1.0 - t) * p0.y + 2.0 * (1.0 - t) * t * p1.y + t * t * p2.y)
  }

  /** The point of the mouth curve at parameter t for happiness h. */
  function MouthPoint(h: real, t: real): Vec2 {
    Bezier(MouthStart, Control(h), MouthEnd, t)
  }

  /** The parameter of the i-th sample. */
  function SampleT(i: int): real {
    i as real / MouthSegments as real
  }

  /** The curve starts at MouthStart and ends at MouthEnd. */
  lemma MouthEndpoints(h: real)
    ensures MouthPoint(h, SampleT(0)) == MouthStart
    ensures MouthPoint(h, SampleT(MouthSegments)) == MouthEnd
  {
  }

  /** Because the control point sits at the x-midpoint of the endpoints, the
      x coordinate is linear in t. */
  lemma MouthXIsLinear(h: real, t: real)
    ensures MouthPoint(h, t).x == 300.0 + 200.0 * t
  {
  }

  /** Because both endpoints sit at y = 400, y departs from 400 by the
      Bernstein weight 2(1-t)t times the control point's offset. */
  lemma MouthYForm(h: real, t: real)
    ensures MouthPoint(h, t).y == 400.0 + 2.0 * (1.0 - t) * t * (ControlY(h) - 400.0)
  {
  }

  /** Every point of the curve lies between the endpoints' line y = 400 and
      the control point's y (halfway there at most); for h = 0.5 the mouth is
      a straight line. */
  lemma MouthYBetween(h: real, t: real)
    requires 0.0 <= t <= 1.0
    ensures Min(400.0, ControlY(h)) <= MouthPoint(h, t).y <= Max(400.0, ControlY(h))
    ensures h == 0.5 ==> MouthPoint(h, t).y == 400.0
  {
    MouthYForm(h, t);
    var w := 2.0 * (1.0 - t) * t;
    BernsteinWeightBounded(t);
    var d := ControlY(h) - 400.0;
    assert MouthPoint(h, t).y == 400.0 + w * d;
    ScaledOffsetBetween(w, d);
  }

  /** 2(1-t)t lies in [0,1] for t in [0,1]. */
  lemma BernsteinWeightBounded(t: real)
    requires 0.0 <= t <= 1.0
    ensures 0.0 <= 2.0 * (1.0 - t) * t <= 1.0
  {
    NonNegativeProduct(1.0 - t, t);
    assert 0.25 - (1.0 - t) * t == (t - 0.5) * (t - 0.5);
    NonNegativeProduct(if t >= 0.5 then t - 0.5 else 0.5 - t, if t >= 0.5 then t - 0.5 else 0.5 - t);
  }

  /** A fraction w of an offset d lies between 0 and d. */
  lemma ScaledOffsetBetween(w: real, d: real)
    requires 0.0 <= w <= 1.0
    ensures Min(0.0, d) <= w * d <= Max(0.0, d)
  {
    if d >= 0.0 {
      NonNegativeProduct(w, d);
      NonNegativeProduct(1.0 - w, d);
    } else {
      NonNegativeProduct(w, -d);
      NonNegativeProduct(1.0 - w, -d);
    }
  }

  lemma NonNegativeProduct(a: real, b: real)
    requires 0.0 <= a && 0.0 <= b
    ensures 0.0 <= a * b
  {
  }

  /** The 31 sample points move strictly left to right. */
  lemma SampleXIncreasing(h: real, i: int, j: int)
    requires 0 <= i < j <= MouthSegments
    ensures MouthPoint(h, SampleT(i)).x < MouthPoint(h, SampleT(j)).x
  {
    MouthXIsLinear(h, SampleT(i));
    MouthXIsLinear(h, SampleT(j));
  }

  datatype Chord = Chord(from: Vec2, to: Vec2)

  /** The straight chords the mouth is drawn with: segment i joins the curve
      points at t = i/30 and t = (i+1)/30. Together they form one connected
      polyline from MouthStart to MouthEnd. */
  method MouthChords(h: real) returns (chords: seq<Chord>)
    ensures |chords| == MouthSegments
    ensures forall i :: 0 <= i < |chords| ==>
              chords[i] == Chord(MouthPoint(h, SampleT(i)), MouthPoint(h, SampleT(i + 1)))
    ensures chords[0].from == MouthStart && chords[|chords| - 1].to == MouthEnd
    ensures forall i :: 0 <= i < |chords| - 1 ==> chords[i].to == chords[i + 1].from
  {
    var start, end, control := MouthStart, MouthEnd, Control(h);
    chords := [];
    var i := 0;
    while i < MouthSegments
      invariant 0 <= i <= MouthSegments
      invariant |chords| == i
      invariant forall k :: 0 <= k < i ==>
                  chords[k] == Chord(MouthPoint(h, SampleT(k)), MouthPoint(h, SampleT(k + 1)))
    {
      var t1 := i as real / MouthSegments as real;
      var t2 := (i + 1) as real / MouthSegments as real;
      var p1 := Bezier(start, control, end, t1);
      var p2 := Bezier(start, control, end, t2);
      chords := chords + [Chord(p1, p2)];
      i := i + 1;
    }
    MouthEndpoints(h);
    assert chords[0] == Chord(MouthPoint(h, SampleT(0)), MouthPoint(h, SampleT(1)));
    assert chords[MouthSegments - 1].to == MouthPoint(h, SampleT(MouthSegments));
    forall i | 0 <= i < |chords| - 1
      ensures chords[i].to == chords[i + 1].from
    {
      assert chords[i].to == MouthPoint(h, SampleT(i + 1));
      assert chords[i + 1] == Chord(MouthPoint(h, SampleT(i + 1)), MouthPoint(h, SampleT(i + 2)));
    }
  }
}
