/**
 * The module-level helpers of Agent.py: the collision test against
 * rectangular obstacles, the distance between two points, and the ray march
 * that finds where a ray from an agent first hits an obstacle or leaves the
 * 700 x 700 field.
 */
module Sensing {
  import opened Common

  /** An obstacle as the field stores it: the pair (p1, p2) of opposite corners. */
  datatype Collidable = Collidable(p1: Point, p2: Point)

  /** (x, y) lies strictly inside c: points on an edge do not collide. */
  predicate Inside(x: real, y: real, c: Collidable) {
    c.p1.x < x < c.p2.x && c.p1.y < y < c.p2.y
  }

  /**
   * check_collisions: scans the obstacles in order and answers true at the
   * first one that holds (x, y) strictly inside.
   */
  function CheckCollisions(x: real, y: real, cs: seq<Collidable>): (hit: bool)
    ensures hit <==> exists i :: 0 <= i < |cs| && Inside(x, y, cs[i])
  {
    if |cs| == 0 then false
    else if Inside(x, y, cs[0]) then true
    else
      var rest := CheckCollisions(x, y, cs[1..]);
      assert forall i :: 1 <= i < |cs| ==> cs[i] == cs[1..][i - 1];
      rest
  }

  /** One more obstacle collides exactly with the points it holds. */
  lemma CheckCollisionsAppend(x: real, y: real, cs: seq<Collidable>, c: Collidable)
    ensures CheckCollisions(x, y, cs + [c]) <==> CheckCollisions(x, y, cs) || Inside(x, y, c)
  {
    var ds := cs + [c];
    assert ds[|cs|] == c;
    assert forall i :: 0 <= i < |cs| ==> ds[i] == cs[i];
  }

  /** distance: the Euclidean distance sqrt((p1.x - p2.x)^2 + (p1.y - p2.y)^2). */
  function Distance(p1: Point, p2: Point, m: Maths): real {
    m.sqrt(Square(p1.x - p2.x) + Square(p1.y - p2.y))
  }

  /** A sum of two squares is never negative. */
  lemma SquaresNonNegative(a: real, b: real)
    ensures 0.0 <= Square(a) + Square(b)
  {
    if a < 0.0 {
      assert Square(a) == (-a) * (-a);
    }
    if b < 0.0 {
      assert Square(b) == (-b) * (-b);
    }
  }

  lemma DistanceNonNegative(p1: Point, p2: Point, m: Maths)
    requires SqrtNonNegative(m)
    ensures 0.0 <= Distance(p1, p2, m)
  {
    SquaresNonNegative(p1.x - p2.x, p1.y - p2.y);
  }

  /** The distance squared is the sum of the squared coordinate differences, and the order of the points does not matter. */
  lemma DistanceSquared(p1: Point, p2: Point, m: Maths)
    requires IsSquareRoot(m)
    ensures Distance(p1, p2, m) * Distance(p1, p2, m) == Square(p1.x - p2.x) + Square(p1.y - p2.y)
    ensures Distance(p1, p2, m) == Distance(p2, p1, m)
  {
    SquaresNonNegative(p1.x - p2.x, p1.y - p2.y);
    assert Square(p1.x - p2.x) == Square(p2.x - p1.x);
    assert Square(p1.y - p2.y) == Square(p2.y - p1.y);
  }

  // ---------------------------------------------------------------------------
  // The ray march of get_raycast_hit

  /** The march's bound: hard-coded 700 on both axes, whatever window size the caller passes. */
  const Edge: real := 700.0

  /** The open box (0, 700) x (0, 700) inside which the march continues. */
  predicate InBox(p: Point) {
    0.0 < p.x < Edge && 0.0 < p.y < Edge
  }

  /** The march stops at p: p is strictly inside an obstacle or not strictly inside the box. */
  predicate Stops(p: Point, cs: seq<Collidable>) {
    CheckCollisions(p.x, p.y, cs) || !InBox(p)
  }

  /** One step of the march: x moves by the direction, y by gradient times the direction. */
  function Advance(p: Point, gradient: real, direction: real): Point {
    Point(p.x + direction, p.y + gradient * direction)
  }

  /** The point reached after n steps from origin. */
  function RayPoint(origin: Point, gradient: real, direction: real, n: nat): Point
    decreases n
  {
    if n == 0 then origin else RayPoint(Advance(origin, gradient, direction), gradient, direction, n - 1)
  }

  /** Step n + 1 advances step n. */
  lemma {:induction false} RayPointNext(origin: Point, gradient: real, direction: real, n: nat)
    ensures RayPoint(origin, gradient, direction, n + 1) == Advance(RayPoint(origin, gradient, direction, n), gradient, direction)
    decreases n
  {
    if n > 0 {
      RayPointNext(Advance(origin, gradient, direction), gradient, direction, n - 1);
    }
  }

  /** n steps of the given size. */
  function Offset(n: nat, step: real): real {
    (n as real) * step
  }

  /** After n steps the march is at origin + n * (direction, gradient * direction). */
  lemma {:induction false} RayPointClosed(origin: Point, gradient: real, direction: real, n: nat)
    ensures RayPoint(origin, gradient, direction, n).x == origin.x + Offset(n, direction)
    ensures RayPoint(origin, gradient, direction, n).y == origin.y + Offset(n, gradient * direction)
    decreases n
  {
    if n > 0 {
      var next := Advance(origin, gradient, direction);
      RayPointClosed(next, gradient, direction, n - 1);
      assert Offset(n, direction) == direction + Offset(n - 1, direction);
      assert Offset(n, gradient * direction) == gradient * direction + Offset(n - 1, gradient * direction);
    }
  }

  /**
   * A measure of how far p is from the box edge the march heads for: the
   * number of half steps left before x leaves (0, 700).
   */
  function HalfSteps(p: Point, direction: real): int {
    if 0.0 < direction then (2.0 * (Edge - p.x)).Floor else (2.0 * p.x).Floor
  }

  /** The number of steps the march takes from origin: zero when it already stops there. */
  function Steps(origin: Point, gradient: real, cs: seq<Collidable>, direction: real): (n: nat)
    requires direction == 0.5 || direction == -0.5
    ensures Stops(RayPoint(origin, gradient, direction, n), cs)
    ensures forall k :: 0 <= k < n ==> !Stops(RayPoint(origin, gradient, direction, k), cs)
    ensures n == 0 <==> Stops(origin, cs)
    decreases HalfSteps(origin, direction)
  {
    if Stops(origin, cs) then 0
    else
      var next := Advance(origin, gradient, direction);
      var rest := Steps(next, gradient, cs, direction);
      assert forall k :: 0 < k <= rest ==> RayPoint(origin, gradient, direction, k) == RayPoint(next, gradient, direction, k - 1);
      rest + 1
  }

  /** Where the ray from origin stops. */
  function RayHit(origin: Point, gradient: real, cs: seq<Collidable>, direction: real): Point
    requires direction == 0.5 || direction == -0.5
  {
    RayPoint(origin, gradient, direction, Steps(origin, gradient, cs, direction))
  }

  /**
   * The hit is the first point of the march that stops it: inside an
   * obstacle or outside the open box (0, 700) x (0, 700).
   */
  lemma RayHitStops(origin: Point, gradient: real, cs: seq<Collidable>, direction: real)
    requires direction == 0.5 || direction == -0.5
    ensures CheckCollisions(RayHit(origin, gradient, cs, direction).x, RayHit(origin, gradient, cs, direction).y, cs)
      || !InBox(RayHit(origin, gradient, cs, direction))
    ensures Stops(origin, cs) ==> RayHit(origin, gradient, cs, direction) == origin
  {
  }

  /** The hit lies on the ray: x has moved from the origin in the direction's sign, y along the gradient. */
  lemma RayHitOnRay(origin: Point, gradient: real, cs: seq<Collidable>, direction: real)
    requires direction == 0.5 || direction == -0.5
    ensures var n := Steps(origin, gradient, cs, direction);
      && RayHit(origin, gradient, cs, direction).x == origin.x + Offset(n, direction)
      && RayHit(origin, gradient, cs, direction).y == origin.y + Offset(n, gradient * direction)
    ensures 0.0 < direction ==> origin.x <= RayHit(origin, gradient, cs, direction).x
    ensures direction < 0.0 ==> RayHit(origin, gradient, cs, direction).x <= origin.x
  {
    var n := Steps(origin, gradient, cs, direction);
    RayPointClosed(origin, gradient, direction, n);
    if direction == 0.5 {
      assert Offset(n, direction) == (n as real) / 2.0;
    } else {
      assert Offset(n, direction) == -((n as real) / 2.0);
    }
  }

  /**
   * get_raycast_hit: from a copy of position, steps by (direction,
   * gradient * direction) until the point is inside an obstacle or outside
   * the open box (0, 700) x (0, 700); maxW and maxH are not read.
   */
  method GetRaycastHit(position: Point, gradient: real, cs: seq<Collidable>, direction: real,
                       maxW: real, maxH: real)
    returns (hit: Point)
    requires direction == 0.5 || direction == -0.5
    ensures hit == RayHit(position, gradient, cs, direction)
  {
    hit := position;
    ghost var n: nat := 0;
    while !CheckCollisions(hit.x, hit.y, cs) && hit.x < Edge && hit.y < Edge && hit.x > 0.0 && hit.y > 0.0
      invariant hit == RayPoint(position, gradient, direction, n)
      invariant forall k :: 0 <= k < n ==> !Stops(RayPoint(position, gradient, direction, k), cs)
      decreases HalfSteps(hit, direction)
    {
      RayPointNext(position, gradient, direction, n);
      hit := Point(hit.x + direction, hit.y + gradient * direction);
      n := n + 1;
    }
    StepsUnique(position, gradient, cs, direction, n);
  }

  /** The first stopping step is the one Steps counts. */
  lemma StepsUnique(origin: Point, gradient: real, cs: seq<Collidable>, direction: real, n: nat)
    requires direction == 0.5 || direction == -0.5
    requires Stops(RayPoint(origin, gradient, direction, n), cs)
    requires forall k :: 0 <= k < n ==> !Stops(RayPoint(origin, gradient, direction, k), cs)
    ensures n == Steps(origin, gradient, cs, direction)
  {
  }
}
