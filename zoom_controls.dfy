/**
  The zoom buttons of frontend/src/components/ZoomControls.jsx: each computes a new scale
  (and, for the reset button, a new pan) from the current one. The canvas keeps its scale
  within [MinScale, MaxScale].
 */
module ZoomControls {
  import opened CanvasUtils

  const MinScale: real := 0.25
  const MaxScale: real := 3.0

  predicate InRange(scale: real)
  {
    MinScale <= scale <= MaxScale
  }

  datatype ZoomButton = ZoomOutButton | ZoomInButton | ResetButton | MagnifyButton

  /** The "−" button: a quarter step down, floored at the minimum. */
  function ZoomOut(scale: real): (r: real)
    ensures r >= MinScale
    ensures InRange(scale) ==> InRange(r) && (r < scale <==> scale > MinScale)
    ensures scale - 0.25 >= MinScale ==> r == scale - 0.25
    ensures scale - 0.25 < MinScale ==> r == MinScale
  {
    Max(MinScale, scale - 0.25)
  }

  /** The "+" button: a quarter step up, capped at the maximum. */
  function ZoomIn(scale: real): (r: real)
    ensures r <= MaxScale
    ensures InRange(scale) ==> InRange(r) && (r > scale <==> scale < MaxScale)
    ensures scale + 0.25 <= MaxScale ==> r == scale + 0.25
    ensures scale + 0.25 > MaxScale ==> r == MaxScale
  {
    Min(MaxScale, scale + 0.25)
  }

  /** The magnifier button: a 20% step up, capped at the maximum. */
  function Magnify(scale: real): (r: real)
    ensures r <= MaxScale
    ensures InRange(scale) ==> InRange(r) && (r > scale <==> scale < MaxScale)
    ensures scale * 1.2 <= MaxScale ==> r == scale * 1.2
    ensures scale * 1.2 > MaxScale ==> r == MaxScale
  {
    Min(MaxScale, scale * 1.2)
  }

  /** Scale, panX and panY after a click on `button`. */
  function Click(button: ZoomButton, scale: real, panX: real, panY: real): (r: (real, real, real))
    ensures InRange(scale) ==> InRange(r.0)
    ensures button.ResetButton? ==> r == (1.0, 0.0, 0.0)
    ensures !button.ResetButton? ==> r.1 == panX && r.2 == panY
    ensures button.ZoomOutButton? ==> r.0 == ZoomOut(scale)
    ensures button.ZoomInButton? ==> r.0 == ZoomIn(scale)
    ensures button.MagnifyButton? ==> r.0 == Magnify(scale)
  {
    match button
    case ZoomOutButton => (ZoomOut(scale), panX, panY)
    case ZoomInButton => (ZoomIn(scale), panX, panY)
    case ResetButton => (1.0, 0.0, 0.0)
    case MagnifyButton => (Magnify(scale), panX, panY)
  }
}
