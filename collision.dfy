/** Arrow-versus-face collision (main.js:387-413). Only the face of the target
    scores: a sub-rectangle inset 25% horizontally and 15% vertically, half as
    wide and four tenths as tall as the sprite. */
module Collision {
  import opened Entities

  datatype Rect = Rect(x: real, y: real, w: real, h: real)

  function FaceRect(g: Target): (f: Rect)
    ensures g.w > 0.0 && g.h > 0.0 ==>
              g.x < f.x && f.x + f.w < g.x + g.w && g.y < f.y && f.y + f.h < g.y + g.h
  {
    Rect(g.x + g.w * 0.25, g.y + g.h * 0.15, g.w * 0.5, g.h * 0.4)
  }

  function ArrowRect(a: Arrow): Rect
  {
    Rect(a.x, a.y, a.w, a.h)
  }

  /** faceHit(arrow, girl): strict overlap on both axes, all four sides.
      Since the face lies inside the sprite, a face hit is also an overlap
      with the whole sprite. */
  predicate FaceHit(a: Arrow, g: Target)
    ensures FaceHit(a, g) && g.w > 0.0 && g.h > 0.0 ==>
              a.x < g.x + g.w && g.x < a.x + a.w && a.y < g.y + g.h && g.y < a.y + a.h
  {
    var face := FaceRect(g);
    a.x < face.x + face.w && a.x + a.w > face.x &&
    a.y < face.y + face.h && a.y + a.h > face.y
  }

  /** The open rectangle r contains the point (px, py). */
  predicate Inside(px: real, py: real, r: Rect)
  {
    r.x < px < r.x + r.w && r.y < py < r.y + r.h
  }

  /** For rectangles of positive size, the strict-inequality test is exactly
      "some point lies inside both the arrow and the face". */
  lemma FaceHitIsCommonPoint(a: Arrow, g: Target)
    requires a.w > 0.0 && a.h > 0.0 && g.w > 0.0 && g.h > 0.0
    ensures FaceHit(a, g) <==>
              exists px, py :: Inside(px, py, ArrowRect(a)) && Inside(px, py, FaceRect(g))
  {
    var face := FaceRect(g);
    if FaceHit(a, g) {
      var left := if a.x >= face.x then a.x else face.x;
      var right := if a.x + a.w <= face.x + face.w then a.x + a.w else face.x + face.w;
      var top := if a.y >= face.y then a.y else face.y;
      var bottom := if a.y + a.h <= face.y + face.h then a.y + a.h else face.y + face.h;
      var px, py := (left + right) / 2.0, (top + bottom) / 2.0;
      assert Inside(px, py, ArrowRect(a)) && Inside(px, py, face);
    }
  }

  /** Touching edges do not count: an arrow whose right edge is exactly on the
      face's left edge does not hit. */
  lemma TouchingIsNoHit(a: Arrow, g: Target)
    requires a.x + a.w == FaceRect(g).x
    ensures !FaceHit(a, g)
  {
  }
}
