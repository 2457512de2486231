/** Read-only queries over the static scenery and the enemy list: bounds, clearance
    from trees and enemies, and line of sight. Every `math.hypot(..) < r` of the source
    is written as a comparison of squared distances (all radii here are non-negative). */
module Geometry {
  import opened Entities

  function DistSq(a: Vec, b: Vec): real
  {
    (a.x - b.x) * (a.x - b.x) + (a.y - b.y) * (a.y - b.y)
  }

  /** Strictly inside the arena shrunk by `margin`. */
  predicate Inside(p: Vec, margin: real)
  {
    -GridLength + margin < p.x < GridLength - margin &&
    -GridLength + margin < p.y < GridLength - margin
  }

  /** The centre of tree `t` is closer than `clearance` to `p`. */
  predicate TreeTooClose(t: Tree, p: Vec, clearance: real)
  {
    DistSq(p, t.pos) < clearance * clearance
  }

  /** The scan over the trees that stops at the first one too close to `p`. */
  function ClearOfTrees(trees: seq<Tree>, p: Vec, clearance: real): (r: bool)
    ensures r <==> forall k :: 0 <= k < |trees| ==> !TreeTooClose(trees[k], p, clearance)
  {
    if trees == [] then true
    else if TreeTooClose(trees[0], p, clearance) then false
    else ClearOfTrees(trees[1..], p, clearance)
  }

  /** `p` lies inside the body of enemy `e`. */
  predicate InsideEnemy(e: Enemy, p: Vec)
  {
    DistSq(p, e.pos) < Stats(e.kind).radius * Stats(e.kind).radius
  }

  function ClearOfEnemies(enemies: seq<Enemy>, p: Vec): (r: bool)
    ensures r <==> forall k :: 0 <= k < |enemies| ==> !InsideEnemy(enemies[k], p)
  {
    if enemies == [] then true
    else if InsideEnemy(enemies[0], p) then false
    else ClearOfEnemies(enemies[1..], p)
  }

  /** A player centre must keep PlayerRadius + TreeRadius from every tree and
      PlayerRadius from the walls. The pond is not an obstacle. */
  function PositionValidForPlayer(trees: seq<Tree>, p: Vec): (r: bool)
    ensures r <==> Inside(p, PlayerRadius) &&
                   forall k :: 0 <= k < |trees| ==> DistSq(p, trees[k].pos) >= 40.0 * 40.0
  {
    ClearOfTrees(trees, p, PlayerRadius + TreeRadius) && Inside(p, PlayerRadius)
  }

  /** The same test for an enemy body of the given radius. */
  function PositionValidForEnemy(trees: seq<Tree>, p: Vec, radius: real): (r: bool)
    ensures r <==> Inside(p, radius) &&
                   forall k :: 0 <= k < |trees| ==> !TreeTooClose(trees[k], p, radius + TreeRadius)
  {
    ClearOfTrees(trees, p, radius + TreeRadius) && Inside(p, radius)
  }

  /** The gun tip must be 5 inside the walls, outside every tree trunk and outside
      every enemy body. */
  function GunTipValid(trees: seq<Tree>, enemies: seq<Enemy>, p: Vec): (r: bool)
    ensures r <==> Inside(p, 5.0) &&
                   (forall k :: 0 <= k < |trees| ==> DistSq(p, trees[k].pos) >= TreeRadius * TreeRadius) &&
                   (forall k :: 0 <= k < |enemies| ==> !InsideEnemy(enemies[k], p))
  {
    Inside(p, 5.0) && ClearOfTrees(trees, p, TreeRadius) && ClearOfEnemies(enemies, p)
  }

  // ---------------------------------------------------------------- line of sight

  datatype Segment = Segment(a: Vec, b: Vec)

  function LenSq(s: Segment): real
  {
    DistSq(s.b, s.a)
  }

  /** The point a + u * (b - a). */
  function PointAt(s: Segment, u: real): Vec
  {
    Vec(s.a.x + u * (s.b.x - s.a.x), s.a.y + u * (s.b.y - s.a.y))
  }

  /** max(0, min(1, v)). */
  function Clamp01(v: real): real
  {
    if v > 1.0 then 1.0 else if v < 0.0 then 0.0 else v
  }

  /** The parameter of the point of `s` closest to `c`, clamped to the segment. */
  function ClosestParam(s: Segment, c: Vec): real
    requires LenSq(s) > 0.0
  {
    Clamp01(Proj(s, c) / LenSq(s))
  }

  /** (c - a) . (b - a) */
  function Proj(s: Segment, c: Vec): real
  {
    (c.x - s.a.x) * (s.b.x - s.a.x) + (c.y - s.a.y) * (s.b.y - s.a.y)
  }

  /** Sight is blocked within TreeRadius + 5 of a tree centre. */
  const SightClearance: real := TreeRadius + 5.0

  /** Tree `t` is closer than SightClearance to the clamped closest point of `s`. */
  predicate Occludes(t: Tree, s: Segment)
    requires LenSq(s) > 0.0
  {
    DistSq(t.pos, PointAt(s, ClosestParam(s, t.pos))) < SightClearance * SightClearance
  }

  /** The scan over the trees that stops at the first occluding one. */
  function SegmentClear(trees: seq<Tree>, s: Segment): (r: bool)
    requires LenSq(s) > 0.0
    ensures r <==> forall k :: 0 <= k < |trees| ==> !Occludes(trees[k], s)
  {
    if trees == [] then true
    else if Occludes(trees[0], s) then false
    else SegmentClear(trees[1..], s)
  }

  /** A zero-length segment is always clear; otherwise sight is blocked exactly when
      some tree occludes the segment. */
  function LineOfSight(trees: seq<Tree>, s: Segment): (r: bool)
    ensures LenSq(s) == 0.0 ==> r
    ensures trees == [] ==> r
    ensures LenSq(s) > 0.0 ==> (!r <==> exists k :: 0 <= k < |trees| && Occludes(trees[k], s))
  {
    if LenSq(s) == 0.0 then true else SegmentClear(trees, s)
  }

  // ------------------------------------------- what the clamped projection means

  /** The segment point at parameter `u` comes closer than SightClearance to `t`. */
  predicate TouchesAt(t: Tree, s: Segment, u: real)
  {
    0.0 <= u <= 1.0 && DistSq(t.pos, PointAt(s, u)) < SightClearance * SightClearance
  }

  lemma SquareOfDifference(w: real, d: real, u: real)
    ensures (w - u * d) * (w - u * d) == w * w - 2.0 * u * (w * d) + u * u * (d * d)
  {
  }

  /** Squared distance from `c` to the line point at parameter u, as a quadratic in u. */
  lemma DistSqQuadratic(s: Segment, c: Vec, u: real)
    ensures DistSq(c, PointAt(s, u)) ==
      DistSq(c, s.a) - 2.0 * u * Proj(s, c) + u * u * LenSq(s)
  {
    var wx, wy := c.x - s.a.x, c.y - s.a.y;
    var dx, dy := s.b.x - s.a.x, s.b.y - s.a.y;
    var p := PointAt(s, u);
    assert c.x - p.x == wx - u * dx;
    assert c.y - p.y == wy - u * dy;
    assert DistSq(c, p) == (wx - u * dx) * (wx - u * dx) + (wy - u * dy) * (wy - u * dy);
    SquareOfDifference(wx, dx, u);
    SquareOfDifference(wy, dy, u);
    assert DistSq(c, s.a) == wx * wx + wy * wy;
    assert Proj(s, c) == wx * dx + wy * dy;
    assert LenSq(s) == dx * dx + dy * dy;
  }

  /** On [0, 1] the quadratic u*u*L - 2*u*m (L > 0) is smallest at Clamp01(m / L). */
  lemma {:induction false} ClampedMinimisesQuadratic(L: real, m: real, u: real)
    requires L > 0.0 && 0.0 <= u <= 1.0
    ensures var t := Clamp01(m / L); t * t * L - 2.0 * t * m <= u * u * L - 2.0 * u * m
  {
    var q := m / L;
    var t := Clamp01(q);
    assert m == q * L;
    var g := (u - t) * (u + t - 2.0 * q);
    assert u * u * L - 2.0 * u * m - (t * t * L - 2.0 * t * m) == L * g;
    if q > 1.0 {
      NonNegProduct(t - u, 2.0 * q - u - t);
      assert g == (t - u) * (2.0 * q - u - t);
    } else if q < 0.0 {
      NonNegProduct(u, u - 2.0 * q);
      assert g == u * (u - 2.0 * q);
    } else {
      NonNegProduct(u - t, u - t);
    }
    NonNegProduct(L, g);
  }

  /** The clamped projection is the point of the segment nearest to `c`. */
  lemma ClosestParamIsNearest(s: Segment, c: Vec, u: real)
    requires LenSq(s) > 0.0 && 0.0 <= u <= 1.0
    ensures DistSq(c, PointAt(s, ClosestParam(s, c))) <= DistSq(c, PointAt(s, u))
  {
    var t, m, L := ClosestParam(s, c), Proj(s, c), LenSq(s);
    DistSqQuadratic(s, c, u);
    DistSqQuadratic(s, c, t);
    ClampedMinimisesQuadratic(L, m, u);
    assert t * t * L - 2.0 * t * m <= u * u * L - 2.0 * u * m;
  }

  lemma NonNegProduct(a: real, b: real)
    requires (a >= 0.0 && b >= 0.0) || (a <= 0.0 && b <= 0.0)
    ensures a * b >= 0.0
  {
  }

  /** A tree occludes a segment exactly when some point of the segment comes closer
      than SightClearance to it. */
  lemma OccludesIffTouches(t: Tree, s: Segment)
    requires LenSq(s) > 0.0
    ensures Occludes(t, s) <==> exists u :: TouchesAt(t, s, u)
  {
    if Occludes(t, s) {
      assert TouchesAt(t, s, ClosestParam(s, t.pos));
    }
    if u :| TouchesAt(t, s, u) {
      ClosestParamIsNearest(s, t.pos, u);
    }
  }

  function Reverse(s: Segment): Segment
  {
    Segment(s.b, s.a)
  }

  lemma PointAtReverse(s: Segment, u: real)
    ensures PointAt(Reverse(s), 1.0 - u) == PointAt(s, u)
  {
  }

  lemma OccludesReverse(t: Tree, s: Segment)
    requires LenSq(s) > 0.0
    ensures LenSq(Reverse(s)) == LenSq(s)
    ensures Occludes(t, s) <==> Occludes(t, Reverse(s))
  {
    var r := Reverse(s);
    LenSqReverse(s);
    OccludesIffTouches(t, s);
    OccludesIffTouches(t, r);
    if u :| TouchesAt(t, s, u) {
      PointAtReverse(s, u);
      assert TouchesAt(t, r, 1.0 - u);
    }
    if u :| TouchesAt(t, r, u) {
      PointAtReverse(s, 1.0 - u);
      assert TouchesAt(t, s, 1.0 - u);
    }
  }

  lemma {:induction false} SegmentClearReverse(trees: seq<Tree>, s: Segment)
    requires LenSq(s) > 0.0 && LenSq(Reverse(s)) > 0.0
    ensures SegmentClear(trees, s) == SegmentClear(trees, Reverse(s))
  {
    if trees != [] {
      OccludesReverse(trees[0], s);
      SegmentClearReverse(trees[1..], s);
    }
  }

  /** Line of sight does not depend on the direction of the segment. */
  lemma LineOfSightSymmetric(trees: seq<Tree>, s: Segment)
    ensures LineOfSight(trees, s) == LineOfSight(trees, Reverse(s))
  {
    LenSqReverse(s);
    if LenSq(s) != 0.0 {
      SegmentClearReverse(trees, s);
    }
  }

  lemma LenSqReverse(s: Segment)
    ensures LenSq(Reverse(s)) == LenSq(s) >= 0.0
  {
  }

  /** Sight is blocked exactly when some tree comes within SightClearance of some
      point of the segment (the geometric reading of the clamped projection). */
  lemma LineOfSightMeaning(trees: seq<Tree>, s: Segment)
    requires LenSq(s) > 0.0
    ensures !LineOfSight(trees, s) <==>
            exists k, u :: 0 <= k < |trees| && TouchesAt(trees[k], s, u)
  {
    forall k | 0 <= k < |trees| ensures Occludes(trees[k], s) <==> exists u :: TouchesAt(trees[k], s, u) {
      OccludesIffTouches(trees[k], s);
    }
  }
}
