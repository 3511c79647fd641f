/**
  The erase rules. An erase is a circle (centre and radius, in logical coordinates), and the
  same four survival tests are applied by the relay, by a client replaying a peer's erase,
  and by the local eraser:
    - a pen stroke survives when its segment stays farther than the radius from the centre;
    - a shape survives when the centre lies outside its bounding box grown by the radius;
    - a text element or a voice note survives when its anchor is farther than the radius.
 */
module Erase {
  import opened Records
  import opened Seqs
  import opened CanvasUtils

  function Center(area: EraseArea): Point
  {
    Point(area.x, area.y)
  }

  function StrokeStart(s: Stroke): Point { Point(s.x0, s.y0) }
  function StrokeEnd(s: Stroke): Point { Point(s.x1, s.y1) }

  /** `distanceToLineSegment(centre, start, end) > radius`. */
  predicate StrokeSurvives(area: EraseArea, s: Stroke)
  {
    FartherThan(DistanceToSegmentSq(Center(area), StrokeStart(s), StrokeEnd(s)), area.radius)
  }

  /**
    The hit test on a shape: its box is normalised with Math.min and Math.abs (a shape drawn
    up or to the left has negative width or height), then grown by the radius on every side.
   */
  predicate ShapeHit(area: EraseArea, sh: Shape)
  {
    var shapeX := Min(sh.x, sh.x + sh.width);
    var shapeY := Min(sh.y, sh.y + sh.height);
    var shapeWidth := Abs(sh.width);
    var shapeHeight := Abs(sh.height);
    area.x >= shapeX - area.radius && area.x <= shapeX + shapeWidth + area.radius
    && area.y >= shapeY - area.radius && area.y <= shapeY + shapeHeight + area.radius
  }

  predicate ShapeSurvives(area: EraseArea, sh: Shape)
  {
    !ShapeHit(area, sh)
  }

  /** `sqrt((x - text.x)^2 + (y - text.y)^2) > radius`. */
  predicate TextSurvives(area: EraseArea, t: TextElement)
  {
    FartherThan(DistSq(Center(area), Point(t.x, t.y)), area.radius)
  }

  /** The same test on a voice note's anchor. */
  predicate NoteSurvives(area: EraseArea, n: VoiceNote)
  {
    FartherThan(DistSq(Center(area), Point(n.x, n.y)), area.radius)
  }

  function EraseStrokes(strokes: seq<Stroke>, area: EraseArea): seq<Stroke>
  {
    Filter(strokes, s => StrokeSurvives(area, s))
  }

  function EraseShapes(shapes: seq<Shape>, area: EraseArea): seq<Shape>
  {
    Filter(shapes, sh => ShapeSurvives(area, sh))
  }

  function EraseTexts(texts: seq<TextElement>, area: EraseArea): seq<TextElement>
  {
    Filter(texts, t => TextSurvives(area, t))
  }

  function EraseNotes(notes: seq<VoiceNote>, area: EraseArea): seq<VoiceNote>
  {
    Filter(notes, n => NoteSurvives(area, n))
  }

  /**
    A stroke survives exactly when every point of its segment is farther than the radius
    from the centre; when it is erased, the nearest point of the segment is a witness.
   */
  lemma {:induction false} StrokeSurvivesIffSegmentClear(area: EraseArea, s: Stroke)
    ensures StrokeSurvives(area, s) ==>
      forall t :: 0.0 <= t <= 1.0 ==>
        FartherThan(DistSq(Center(area), Along(StrokeStart(s), StrokeEnd(s), t)), area.radius)
    ensures !StrokeSurvives(area, s) ==>
      var t := NearestParam(Center(area), StrokeStart(s), StrokeEnd(s));
      0.0 <= t <= 1.0
      && !FartherThan(DistSq(Center(area), Along(StrokeStart(s), StrokeEnd(s), t)), area.radius)
  {
    var c, a, b := Center(area), StrokeStart(s), StrokeEnd(s);
    var d := DistanceToSegmentSq(c, a, b);
    if StrokeSurvives(area, s) {
      forall t | 0.0 <= t <= 1.0
        ensures FartherThan(DistSq(c, Along(a, b, t)), area.radius)
      {
        DistanceIsMinimumOverSegment(c, a, b, t);
        FartherThanMonotone(d, DistSq(c, Along(a, b, t)), area.radius);
      }
    }
  }

  /** The hit test is the grown bounding box of the shape's two corners, however drawn. */
  lemma ShapeHitIsGrownBox(area: EraseArea, sh: Shape)
    ensures ShapeHit(area, sh) <==>
      Min(sh.x, sh.x + sh.width) - area.radius <= area.x <= Max(sh.x, sh.x + sh.width) + area.radius
      && Min(sh.y, sh.y + sh.height) - area.radius <= area.y <= Max(sh.y, sh.y + sh.height) + area.radius
  {}

  /** Dragging a shape out in the opposite direction gives the same hit test. */
  lemma ShapeHitIgnoresDragDirection(area: EraseArea, sh: Shape)
    ensures ShapeHit(area, sh)
      <==> ShapeHit(area, sh.(x := sh.x + sh.width, width := -sh.width))
    ensures ShapeHit(area, sh)
      <==> ShapeHit(area, sh.(y := sh.y + sh.height, height := -sh.height))
  {
    ShapeHitIsGrownBox(area, sh);
    ShapeHitIsGrownBox(area, sh.(x := sh.x + sh.width, width := -sh.width));
    ShapeHitIsGrownBox(area, sh.(y := sh.y + sh.height, height := -sh.height));
  }

  /** A text element survives exactly when its anchor is farther than the radius. */
  lemma TextSurvivesIffFar(area: EraseArea, t: TextElement, dist: real)
    requires dist >= 0.0 && Sq(dist) == DistSq(Center(area), Point(t.x, t.y))
    ensures TextSurvives(area, t) <==> dist > area.radius
  {
    FartherThanIsRootComparison(dist, area.radius);
  }

  /** Erasing twice at the same place removes nothing more. */
  lemma EraseStrokesIdempotent(strokes: seq<Stroke>, area: EraseArea)
    ensures EraseStrokes(EraseStrokes(strokes, area), area) == EraseStrokes(strokes, area)
  {
    FilterIdempotent(strokes, s => StrokeSurvives(area, s));
  }

  /** Two erases, at any two places, commute: peers applying them in either order agree. */
  lemma EraseStrokesCommute(strokes: seq<Stroke>, a1: EraseArea, a2: EraseArea)
    ensures EraseStrokes(EraseStrokes(strokes, a1), a2) == EraseStrokes(EraseStrokes(strokes, a2), a1)
  {
    FilterCommutes(strokes, s => StrokeSurvives(a1, s), s => StrokeSurvives(a2, s));
  }

  lemma EraseShapesCommute(shapes: seq<Shape>, a1: EraseArea, a2: EraseArea)
    ensures EraseShapes(EraseShapes(shapes, a1), a2) == EraseShapes(EraseShapes(shapes, a2), a1)
  {
    FilterCommutes(shapes, sh => ShapeSurvives(a1, sh), sh => ShapeSurvives(a2, sh));
  }

  lemma EraseTextsCommute(texts: seq<TextElement>, a1: EraseArea, a2: EraseArea)
    ensures EraseTexts(EraseTexts(texts, a1), a2) == EraseTexts(EraseTexts(texts, a2), a1)
  {
    FilterCommutes(texts, t => TextSurvives(a1, t), t => TextSurvives(a2, t));
  }

  /**
    An erase with a negative radius removes no stroke, text element or voice note: every
    distance exceeds it.
   */
  lemma NegativeRadiusErasesNothing(strokes: seq<Stroke>, texts: seq<TextElement>, notes: seq<VoiceNote>,
                                    area: EraseArea)
    requires area.radius < 0.0
    ensures EraseStrokes(strokes, area) == strokes
    ensures EraseTexts(texts, area) == texts
    ensures EraseNotes(notes, area) == notes
  {
    FilterKeepsLength(strokes, s => StrokeSurvives(area, s));
    FilterKeepsLength(texts, t => TextSurvives(area, t));
    FilterKeepsLength(notes, n => NoteSurvives(area, n));
  }

  /**
    Shapes differ: a negative radius shrinks the box instead of growing it, so a shape whose
    shrunk box still holds the centre is erased all the same.
   */
  lemma NegativeRadiusCanStillEraseShape(sh: Shape, area: EraseArea)
    requires sh.x == 0.0 && sh.y == 0.0 && sh.width == 100.0 && sh.height == 100.0
    requires area == EraseArea(50.0, 50.0, -8.0)
    ensures ShapeHit(area, sh)
    ensures EraseShapes([sh], area) == []
  {
    assert ShapeHit(area, sh);
    assert Filter([sh], (x: Shape) => ShapeSurvives(area, x)) == [] by {
      FilterHead([sh], (x: Shape) => ShapeSurvives(area, x));
      assert [sh][1..] == [];
    }
  }

  /**
    An erase that removes nothing returns the collection itself, so comparing lengths (as the
    local eraser does) tells exactly whether anything was erased.
   */
  lemma SameLengthMeansNothingErased(c: Collections, area: EraseArea)
    ensures |EraseStrokes(c.drawing, area)| == |c.drawing| <==> EraseStrokes(c.drawing, area) == c.drawing
    ensures |EraseShapes(c.shapes, area)| == |c.shapes| <==> EraseShapes(c.shapes, area) == c.shapes
    ensures |EraseTexts(c.texts, area)| == |c.texts| <==> EraseTexts(c.texts, area) == c.texts
    ensures |EraseNotes(c.voiceNotes, area)| == |c.voiceNotes| <==> EraseNotes(c.voiceNotes, area) == c.voiceNotes
  {
    FilterKeepsLength(c.drawing, s => StrokeSurvives(area, s));
    FilterKeepsLength(c.shapes, sh => ShapeSurvives(area, sh));
    FilterKeepsLength(c.texts, t => TextSurvives(area, t));
    FilterKeepsLength(c.voiceNotes, n => NoteSurvives(area, n));
  }
}
