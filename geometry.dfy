/**
 * Integer rectangles with the parts of pygame's `Rect` that the game relies on:
 * strict overlap (`colliderect`), the first overlapping rectangle of a list
 * (`collidelist`) and the `midbottom` anchor used to place an entity's feet.
 */
module Geometry {

  datatype Rect = Rect(x: int, y: int, w: int, h: int)

  /** `a.colliderect(b)`: the two rectangles overlap on an area, edges touching is not enough. */
  predicate Collides(a: Rect, b: Rect)
  {
    a.x < b.x + b.w && b.x < a.x + a.w && a.y < b.y + b.h && b.y < a.y + a.h
  }

  /** `r.collidelist(rects)`: index of the first rectangle `r` overlaps, or -1 when there is none. */
  function CollideList(r: Rect, rects: seq<Rect>): (i: int)
    ensures -1 <= i < |rects|
    ensures i >= 0 ==> Collides(r, rects[i]) && forall j :: 0 <= j < i ==> !Collides(r, rects[j])
    ensures i == -1 <==> forall j :: 0 <= j < |rects| ==> !Collides(r, rects[j])
  {
    if |rects| == 0 then -1
    else if Collides(r, rects[0]) then 0
    else
      var k := CollideList(r, rects[1..]);
      if k == -1 then -1 else k + 1
  }

  /** "Some rectangle of the list overlaps `r`", as the test `collidelist(...) > -1` reads it. */
  predicate HitsAny(r: Rect, rects: seq<Rect>)
  {
    exists j :: 0 <= j < |rects| && Collides(r, rects[j])
  }

  lemma CollideListHit(r: Rect, rects: seq<Rect>)
    ensures CollideList(r, rects) > -1 <==> HitsAny(r, rects)
  {
  }

  /** The `midbottom` point of a rectangle with non-negative width (pygame halves the width in C, rounding down). */
  function MidBottom(r: Rect): (int, int)
  {
    (r.x + r.w / 2, r.y + r.h)
  }

  /** Assigning `f.midbottom = p`: the rectangle keeps its size and moves so that its midbottom is `p`. */
  function WithMidBottom(f: Rect, p: (int, int)): (g: Rect)
    ensures g.w == f.w && g.h == f.h
    ensures MidBottom(g) == p
  {
    Rect(p.0 - f.w / 2, p.1 - f.h, f.w, f.h)
  }

  /** Assigning `r.topleft = (x, y)`. */
  function WithTopLeft(r: Rect, x: int, y: int): (g: Rect)
    ensures g.x == x && g.y == y && g.w == r.w && g.h == r.h
  {
    Rect(x, y, r.w, r.h)
  }

  function Abs(n: int): (a: int)
    ensures a >= 0 && (a == n || a == -n)
  {
    if n < 0 then -n else n
  }
}
