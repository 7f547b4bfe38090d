/** The physical objects of the game (src/objects.rs): 2-D vectors, axis-aligned rectangles and
    their overlap tests, the player's rigid body with its collision resolver, oscillating
    platforms and static blocks.

    Coordinates are real numbers standing for the source's `f64`. The source's `RectObject`
    trait gives every rectangle-like entity the same `points`/`bounds` code from its centre,
    width and height; here that shared geometry is the value `Rect`, and each entity exposes
    its `Shape()`. */
module Objects {
  import opened Common

  // ---------------------------------------------------------------------------------------
  // Vector2
  // ---------------------------------------------------------------------------------------

  datatype Vector2 = Vector2(x: real, y: real)

  const ZERO: Vector2 := Vector2(0.0, 0.0)

  function Add(a: Vector2, b: Vector2): Vector2 {
    Vector2(a.x + b.x, a.y + b.y)
  }

  function Multiply(v: Vector2, scalar: real): Vector2 {
    Vector2(v.x * scalar, v.y * scalar)
  }

  /** Linear interpolation: `a` at t = 0, `b` at t = 1. */
  function Lerp(a: Vector2, b: Vector2, t: real): Vector2 {
    Add(Multiply(a, 1.0 - t), Multiply(b, t))
  }

  /** The interpolation moves from `a` by the fraction `t` of the way to `b`. */
  lemma LerpLinear(a: Vector2, b: Vector2, t: real)
    ensures Lerp(a, b, t) == Vector2(a.x + t * (b.x - a.x), a.y + t * (b.y - a.y))
  {
    var l := Lerp(a, b, t);
    assert l.x == a.x * (1.0 - t) + b.x * t == a.x + t * (b.x - a.x);
    assert l.y == a.y * (1.0 - t) + b.y * t == a.y + t * (b.y - a.y);
  }

  /** q lies on the closed segment between p and r (in either order). */
  predicate Between(p: real, q: real, r: real) {
    (p <= q <= r) || (r <= q <= p)
  }

  lemma LerpEndpoints(a: Vector2, b: Vector2)
    ensures Lerp(a, b, 0.0) == a && Lerp(a, b, 1.0) == b
  {
  }

  lemma MulNonNegative(a: real, b: real)
    requires a >= 0.0 && b >= 0.0
    ensures a * b >= 0.0
  {
  }

  lemma LerpScalarBetween(p: real, r: real, t: real)
    requires 0.0 <= t <= 1.0
    ensures Between(p, p * (1.0 - t) + r * t, r)
  {
    assert p * (1.0 - t) + r * t == p + t * (r - p);
    assert (r - p) - t * (r - p) == (1.0 - t) * (r - p);
    if p <= r {
      MulNonNegative(t, r - p);
      MulNonNegative(1.0 - t, r - p);
    } else {
      MulNonNegative(t, p - r);
      MulNonNegative(1.0 - t, p - r);
      assert t * (p - r) == -(t * (r - p));
      assert (1.0 - t) * (p - r) == -((1.0 - t) * (r - p));
    }
  }

  /** For t in [0, 1] the interpolated point lies in the box spanned by the two points. */
  lemma LerpBetween(a: Vector2, b: Vector2, t: real)
    requires 0.0 <= t <= 1.0
    ensures Between(a.x, Lerp(a, b, t).x, b.x) && Between(a.y, Lerp(a, b, t).y, b.y)
  {
    LerpScalarBetween(a.x, b.x, t);
    LerpScalarBetween(a.y, b.y, t);
  }

  // ---------------------------------------------------------------------------------------
  // Rectangles
  // ---------------------------------------------------------------------------------------

  /** The tuple `(left x, right x, bottom y, top y)` that `bounds()` returns. */
  datatype Extents = Extents(left: real, right: real, bottom: real, top: real)

  /** The centre, width and height from which every rectangle-like object derives its geometry. */
  datatype Rect = Rect(center: Vector2, width: real, height: real)

  /** `f2` lies strictly between `f1` and `f3`. */
  predicate Sandwich(f1: real, f2: real, f3: real) {
    f1 < f2 && f2 < f3
  }

  /** The four extents of a rectangle: the centre is their midpoint and they are width and
      height apart; they are ordered exactly when the dimensions are not negative. */
  function Bounds(r: Rect): (b: Extents)
    ensures b.right - b.left == r.width && b.top - b.bottom == r.height
    ensures (b.left + b.right) / 2.0 == r.center.x && (b.bottom + b.top) / 2.0 == r.center.y
    ensures r.width >= 0.0 <==> b.left <= b.right
    ensures r.height >= 0.0 <==> b.bottom <= b.top
  {
    var halfWidth := r.width / 2.0;
    var halfHeight := r.height / 2.0;
    Extents(r.center.x - halfWidth, r.center.x + halfWidth,
            r.center.y - halfHeight, r.center.y + halfHeight)
  }

  /** The corners: top-left, top-right, bottom-right, bottom-left, each a pair of the
      rectangle's extents. */
  function Points(r: Rect): (ps: seq<Vector2>)
    ensures var b := Bounds(r);
            ps == [Vector2(b.left, b.top), Vector2(b.right, b.top),
                   Vector2(b.right, b.bottom), Vector2(b.left, b.bottom)]
  {
    var halfWidth := r.width / 2.0;
    var halfHeight := r.height / 2.0;
    [Vector2(r.center.x - halfWidth, r.center.y + halfHeight),
     Vector2(r.center.x + halfWidth, r.center.y + halfHeight),
     Vector2(r.center.x + halfWidth, r.center.y - halfHeight),
     Vector2(r.center.x - halfWidth, r.center.y - halfHeight)]
  }

  /** Point containment against precomputed extents; points on an edge are inside. */
  function BoundsContainPoint(point: Vector2, b: Extents): (inside: bool)
    ensures inside <==> b.left <= point.x <= b.right && b.bottom <= point.y <= b.top
  {
    !(point.x < b.left || b.right < point.x || point.y < b.bottom || b.top < point.y)
  }

  /** Point containment of a rectangle: the same test as `BoundsContainPoint` on its bounds. */
  function ContainsPoint(r: Rect, point: Vector2): (inside: bool)
    ensures inside <==> BoundsContainPoint(point, Bounds(r))
  {
    var b := Bounds(r);
    if point.x < b.left || b.right < point.x then false
    else if point.y < b.bottom || b.top < point.y then false
    else true
  }

  /** Every corner of a rectangle with non-negative dimensions is contained in it. */
  lemma CornersContained(r: Rect)
    requires r.width >= 0.0 && r.height >= 0.0
    ensures forall i :: 0 <= i < 4 ==> ContainsPoint(r, Points(r)[i])
  {
  }

  /** The overlap test of one axis, shared by `collides_with_y` (x extents) and
      `collides_with_x` (y extents): an end of self strictly inside other, or self
      containing other (inclusive on the low side, strict on the high side).
      When the four endpoints are pairwise distinct between the two intervals it is
      exactly open-interval overlap. */
  function AxisHit(selfLo: real, selfHi: real, otherLo: real, otherHi: real): (hit: bool)
    ensures selfLo <= selfHi && otherLo <= otherHi
            && selfLo != otherLo && selfLo != otherHi && selfHi != otherLo && selfHi != otherHi
            ==> (hit <==> selfLo < otherHi && otherLo < selfHi)
  {
    if Sandwich(otherLo, selfLo, otherHi) then true
    else if Sandwich(otherLo, selfHi, otherHi) then true
    else if selfLo <= otherLo && otherHi < selfHi then true
    else false
  }

  /** `collides_with_y`: despite its name, compares the x extents (left and right). */
  function CollidesWithY(self: Rect, other: Rect): bool {
    AxisHit(Bounds(self).left, Bounds(self).right, Bounds(other).left, Bounds(other).right)
  }

  /** `collides_with_x`: despite its name, compares the y extents (bottom and top). */
  function CollidesWithX(self: Rect, other: Rect): bool {
    AxisHit(Bounds(self).bottom, Bounds(self).top, Bounds(other).bottom, Bounds(other).top)
  }

  function CollidesWith(self: Rect, other: Rect): bool {
    CollidesWithX(self, other) && CollidesWithY(self, other)
  }

  /** No two x endpoints and no two y endpoints of the two rectangles coincide. */
  predicate DistinctEdges(a: Rect, b: Rect) {
    var ab := Bounds(a);
    var bb := Bounds(b);
    && ab.left != bb.left && ab.left != bb.right && ab.right != bb.left && ab.right != bb.right
    && ab.bottom != bb.bottom && ab.bottom != bb.top && ab.top != bb.bottom && ab.top != bb.top
  }

  /** Open overlap of the interiors of two rectangles. */
  predicate InteriorsOverlap(a: Rect, b: Rect) {
    var ab := Bounds(a);
    var bb := Bounds(b);
    && ab.left < bb.right && bb.left < ab.right
    && ab.bottom < bb.top && bb.bottom < ab.top
  }

  /** When no edges coincide, collision is interior overlap, and so it is symmetric. */
  lemma CollidesWithIsOverlap(a: Rect, b: Rect)
    requires a.width >= 0.0 && a.height >= 0.0 && b.width >= 0.0 && b.height >= 0.0
    requires DistinctEdges(a, b)
    ensures CollidesWith(a, b) <==> InteriorsOverlap(a, b)
    ensures CollidesWith(a, b) == CollidesWith(b, a)
  {
    var ab, bb := Bounds(a), Bounds(b);
    assert CollidesWithY(a, b) <==> ab.left < bb.right && bb.left < ab.right;
    assert CollidesWithX(a, b) <==> ab.bottom < bb.top && bb.bottom < ab.top;
    assert CollidesWithY(b, a) <==> bb.left < ab.right && ab.left < bb.right;
    assert CollidesWithX(b, a) <==> bb.bottom < ab.top && ab.bottom < bb.top;
  }

  /** Two intervals that merely touch (self's high end is other's low end) do not hit. */
  lemma TouchingIntervalsDoNotHit(selfLo: real, selfHi: real, otherHi: real)
    requires selfLo <= selfHi <= otherHi
    ensures !AxisHit(selfLo, selfHi, selfHi, otherHi)
  {
  }

  /** Identical intervals do not hit either, although they overlap completely. */
  lemma IdenticalIntervalsDoNotHit(lo: real, hi: real)
    requires lo <= hi
    ensures !AxisHit(lo, hi, lo, hi)
  {
  }

  /** Consequently a rectangle does not collide with a copy of itself, and rectangles that share
      an edge do not collide: edges in contact do not count as a collision. */
  lemma EdgeContactIsNoCollision(a: Rect, b: Rect)
    requires a.width >= 0.0 && a.height >= 0.0 && b.width >= 0.0
    requires Bounds(a).right == Bounds(b).left
    ensures !CollidesWith(a, a)
    ensures !CollidesWith(a, b)
  {
    IdenticalIntervalsDoNotHit(Bounds(a).left, Bounds(a).right);
    TouchingIntervalsDoNotHit(Bounds(a).left, Bounds(a).right, Bounds(b).right);
  }

  /** A rectangle strictly inside another collides with it, whichever of the two asks. */
  lemma StrictContainmentCollides(inner: Rect, outer: Rect)
    requires inner.width >= 0.0 && inner.height >= 0.0
    requires Bounds(outer).left < Bounds(inner).left && Bounds(inner).right < Bounds(outer).right
    requires Bounds(outer).bottom < Bounds(inner).bottom && Bounds(inner).top < Bounds(outer).top
    ensures CollidesWith(inner, outer) && CollidesWith(outer, inner)
  {
  }

  /** Without distinct edges the test is not symmetric: a unit-wide box sharing its right edge
      with a wider box collides with it, but not the other way round. */
  lemma CollisionNotSymmetricOnSharedEdge()
    ensures var small := Rect(Vector2(0.5, 0.0), 1.0, 2.0);
            var wide := Rect(Vector2(0.0, 0.0), 2.0, 4.0);
            CollidesWith(small, wide) && !CollidesWith(wide, small)
  {
    var small := Rect(Vector2(0.5, 0.0), 1.0, 2.0);
    var wide := Rect(Vector2(0.0, 0.0), 2.0, 4.0);
    assert Bounds(small) == Extents(0.0, 1.0, -1.0, 1.0);
    assert Bounds(wide) == Extents(-1.0, 1.0, -2.0, 2.0);
  }

  // ---------------------------------------------------------------------------------------
  // Collision resolution
  // ---------------------------------------------------------------------------------------

  /** How the rigid body ended up relative to the object it collided with. */
  datatype CollisionState = OnBottom | OnSide | OnTop | NoCollision

  /** One step of `reduce` over the enumerated depths: the accumulator is kept only when its
      value is strictly smaller than the next item's, so on ties the LATER index wins.
      The requires clauses say that `acc` is already the last minimum of `d[..i]`. */
  function ReduceMin(d: seq<real>, acc: nat, i: nat): (k: nat)
    requires acc < i <= |d|
    requires forall j :: 0 <= j < i ==> d[acc] <= d[j]
    requires forall j :: acc < j < i ==> d[acc] < d[j]
    ensures k < |d|
    ensures forall j :: 0 <= j < |d| ==> d[k] <= d[j]
    ensures forall j :: k < j < |d| ==> d[k] < d[j]
    decreases |d| - i
  {
    if i == |d| then acc
    else ReduceMin(d, if d[acc] < d[i] then acc else i, i + 1)
  }

  /** The index `reduce` picks: the last position of the minimum value. In particular it is a
      valid index, so the `panic!` arms after it are unreachable. */
  function MinIndex(d: seq<real>): (k: nat)
    requires |d| > 0
    ensures k < |d|
    ensures forall j :: 0 <= j < |d| ==> d[k] <= d[j]
    ensures forall j :: k < j < |d| ==> d[k] < d[j]
  {
    ReduceMin(d, 0, 1)
  }

  /** A strictly smallest element is the one `reduce` picks. */
  lemma MinIndexOfStrictMinimum(d: seq<real>, m: nat)
    requires m < |d|
    requires forall j :: 0 <= j < |d| && j != m ==> d[m] < d[j]
    ensures MinIndex(d) == m
  {
    var k := MinIndex(d);
    assert d[k] <= d[m];
  }

  /** Penetration depths `[left, right, bottom, top]` of the body (extents `s`) in an object
      (extents `o`): how far the body must move to leave through that side of the object. */
  function Depths(s: Extents, o: Extents): (d: seq<real>)
    ensures |d| == 4
  {
    [s.right - o.left, o.right - s.left, s.top - o.bottom, o.top - s.bottom]
  }

  /** The side the resolver pushes the body out through: 0 left, 1 right, 2 bottom, 3 top. */
  function ChosenSide(self0: Rect, obj: Rect): (k: nat)
    ensures k < 4
  {
    MinIndex(Depths(Bounds(self0), Bounds(obj)))
  }

  function SideState(k: nat): (state: CollisionState)
    requires k < 4
    ensures state != NoCollision
  {
    if k == 0 || k == 1 then OnSide else if k == 2 then OnBottom else OnTop
  }

  /** The new centre after pushing a body of the given size out of `o` through side `k`. */
  function PushOut(c: Vector2, width: real, height: real, o: Extents, k: nat): Vector2
    requires k < 4
  {
    if k == 0 then c.(x := o.left - width / 2.0)
    else if k == 1 then c.(x := o.right + width / 2.0)
    else if k == 2 then c.(y := o.bottom - height / 2.0 - 1.0)
    else c.(y := o.top + height / 2.0)
  }

  /** Each depth is the distance `PushOut` moves the body through that side: left and right
      along x, top along y, and the bottom depth plus the one-unit bias along y. So, for the
      body as it stood before the loop, the side with the smallest depth is the smallest
      correction; `StaleDepthsScenario` shows that this fails once an earlier object has moved
      the body. */
  lemma DepthsArePushDistances(self0: Rect, o: Extents)
    ensures var d := Depths(Bounds(self0), o);
            var c := self0.center;
            var w, h := self0.width, self0.height;
            && d[0] == c.x - PushOut(c, w, h, o, 0).x
            && d[1] == PushOut(c, w, h, o, 1).x - c.x
            && d[2] + 1.0 == c.y - PushOut(c, w, h, o, 2).y
            && d[3] == PushOut(c, w, h, o, 3).y - c.y
  {
  }

  /** What the resolver loop carries: the body's centre, the collision state and the index of
      the object stood on. */
  datatype Resolution = Resolution(center: Vector2, active: CollisionState, platformOn: Option<nat>)

  /** The body as it stands during the loop: the current centre, the original dimensions. */
  function Current(self0: Rect, s: Resolution): Rect {
    Rect(s.center, self0.width, self0.height)
  }

  /** One iteration of the resolver for object number `i`. The collision test uses the body's
      current position, while the depths use the bounds `self0` captured before the loop. */
  function Step(self0: Rect, s: Resolution, obj: Rect, i: nat): Resolution {
    if !CollidesWith(Current(self0, s), obj) then s
    else
      var k := ChosenSide(self0, obj);
      var state := SideState(k);
      Resolution(PushOut(s.center, self0.width, self0.height, Bounds(obj), k), state,
                 if state == OnTop then Some(i) else s.platformOn)
  }

  /** The resolver after the first `n` objects, starting from body `self0` and state `active`. */
  function Resolve(self0: Rect, objects: seq<Rect>, n: nat, active: CollisionState): Resolution
    requires n <= |objects|
  {
    if n == 0 then Resolution(self0.center, active, None)
    else Step(self0, Resolve(self0, objects, n - 1, active), objects[n - 1], n - 1)
  }

  /** Object `i` is resolved: the body, as moved by the objects before it, collides with it. */
  predicate Hit(self0: Rect, objects: seq<Rect>, active: CollisionState, i: nat) {
    i < |objects| && CollidesWith(Current(self0, Resolve(self0, objects, i, active)), objects[i])
  }

  /** Object `i` is resolved through its top: the body ends up standing on it. */
  predicate TopHit(self0: Rect, objects: seq<Rect>, active: CollisionState, i: nat) {
    Hit(self0, objects, active, i) && ChosenSide(self0, objects[i]) == 3
  }

  /** A step that resolves a collision applies the smallest of the four depths (the last one on
      ties), moves exactly one coordinate so that the body sits flush against the chosen side
      (one unit below it for the bottom side), records the matching state (never
      NoCollision), and records the index exactly when the body lands on top. */
  lemma StepResolves(self0: Rect, s: Resolution, obj: Rect, i: nat)
    requires CollidesWith(Current(self0, s), obj)
    ensures var t := Step(self0, s, obj, i);
            var k := ChosenSide(self0, obj);
            var d := Depths(Bounds(self0), Bounds(obj));
            var nb := Bounds(Current(self0, t));
            var ob := Bounds(obj);
            && (forall j :: 0 <= j < 4 ==> d[k] <= d[j])
            && (forall j :: k < j < 4 ==> d[k] < d[j])
            && (k == 0 ==> t.active == OnSide && t.center.y == s.center.y && nb.right == ob.left)
            && (k == 1 ==> t.active == OnSide && t.center.y == s.center.y && nb.left == ob.right)
            && (k == 2 ==> t.active == OnBottom && t.center.x == s.center.x && nb.top == ob.bottom - 1.0)
            && (k == 3 ==> t.active == OnTop && t.center.x == s.center.x && nb.bottom == ob.top)
            && t.active != NoCollision
            && (k == 3 ==> t.platformOn == Some(i)) && (k != 3 ==> t.platformOn == s.platformOn)
  {
  }

  /** The platform a step reports: this object's index when the body lands on top of it,
      otherwise whatever was reported before. */
  lemma StepPlatform(self0: Rect, s: Resolution, obj: Rect, i: nat)
    ensures Step(self0, s, obj, i).platformOn
            == if CollidesWith(Current(self0, s), obj) && ChosenSide(self0, obj) == 3 then Some(i) else s.platformOn
  {
  }

  /** A step whose object does not collide with the body changes nothing. */
  lemma StepSkips(self0: Rect, s: Resolution, obj: Rect, i: nat)
    requires !CollidesWith(Current(self0, s), obj)
    ensures Step(self0, s, obj, i) == s
  {
  }

  /** After a resolving step the body no longer collides with that object (for a body of
      non-negative size and an object of positive size), whichever side was chosen. */
  lemma StepSeparates(self0: Rect, s: Resolution, obj: Rect, i: nat)
    requires self0.width >= 0.0 && self0.height >= 0.0 && obj.width > 0.0 && obj.height > 0.0
    requires CollidesWith(Current(self0, s), obj)
    ensures !CollidesWith(Current(self0, Step(self0, s, obj, i)), obj)
  {
    var t := Step(self0, s, obj, i);
    var nb := Bounds(Current(self0, t));
    var ob := Bounds(obj);
    var k := ChosenSide(self0, obj);
    if k == 0 || k == 1 {
      assert !CollidesWithY(Current(self0, t), obj);
    } else {
      assert !CollidesWithX(Current(self0, t), obj);
    }
  }

  /** If no object is hit, the resolver leaves the centre and the state as they were and
      reports no platform. */
  lemma {:induction false} ResolveNoHits(self0: Rect, objects: seq<Rect>, n: nat, active: CollisionState)
    requires n <= |objects|
    requires forall i :: 0 <= i < n ==> !Hit(self0, objects, active, i)
    ensures Resolve(self0, objects, n, active) == Resolution(self0.center, active, None)
  {
    if n > 0 {
      ResolveNoHits(self0, objects, n - 1, active);
      assert !Hit(self0, objects, active, n - 1);
    }
  }

  /** Objects after the last hit leave the whole resolution as it was after that hit. */
  lemma {:induction false} ResolveAfterLastHit(self0: Rect, objects: seq<Rect>, j: nat, n: nat, active: CollisionState)
    requires j <= n <= |objects|
    requires forall i :: j <= i < n ==> !Hit(self0, objects, active, i)
    ensures Resolve(self0, objects, n, active) == Resolve(self0, objects, j, active)
  {
    if n > j {
      ResolveAfterLastHit(self0, objects, j, n - 1, active);
      assert !Hit(self0, objects, active, n - 1);
    }
  }

  /** The final state is the state of the last object hit, whatever came before. */
  lemma ResolveActiveIsLastHit(self0: Rect, objects: seq<Rect>, j: nat, n: nat, active: CollisionState)
    requires j < n <= |objects|
    requires Hit(self0, objects, active, j)
    requires forall i :: j < i < n ==> !Hit(self0, objects, active, i)
    ensures Resolve(self0, objects, n, active).active == SideState(ChosenSide(self0, objects[j]))
    ensures Resolve(self0, objects, n, active).active != NoCollision
  {
    ResolveAfterLastHit(self0, objects, j + 1, n, active);
  }

  /** The resolver never resets the state to NoCollision: it ends NoCollision only if it
      started so and no object was hit. */
  lemma {:induction false} ResolveNeverClears(self0: Rect, objects: seq<Rect>, n: nat, active: CollisionState)
    requires n <= |objects|
    ensures Resolve(self0, objects, n, active).active == NoCollision
            <==> active == NoCollision && forall i :: 0 <= i < n ==> !Hit(self0, objects, active, i)
  {
    if n > 0 {
      ResolveNeverClears(self0, objects, n - 1, active);
      if Hit(self0, objects, active, n - 1) {
        assert Resolve(self0, objects, n, active).active != NoCollision;
      }
    }
  }

  /** Each object updates the reported platform only when the body lands on top of it. */
  lemma ResolvePlatformStep(self0: Rect, objects: seq<Rect>, n: nat, active: CollisionState)
    requires 0 < n <= |objects|
    ensures Resolve(self0, objects, n, active).platformOn
            == if TopHit(self0, objects, active, n - 1) then Some(n - 1)
               else Resolve(self0, objects, n - 1, active).platformOn
  {
    StepPlatform(self0, Resolve(self0, objects, n - 1, active), objects[n - 1], n - 1);
  }

  /** The reported platform is the last object the body was pushed on top of, if any. */
  lemma {:induction false} ResolvePlatform(self0: Rect, objects: seq<Rect>, n: nat, active: CollisionState, j: nat)
    requires n <= |objects|
    ensures Resolve(self0, objects, n, active).platformOn == Some(j)
            <==> j < n && TopHit(self0, objects, active, j)
                 && forall i :: j < i < n ==> !TopHit(self0, objects, active, i)
  {
    if n > 0 {
      ResolvePlatform(self0, objects, n - 1, active, j);
      ResolvePlatformStep(self0, objects, n, active);
      if !TopHit(self0, objects, active, n - 1) {
        assert (forall i :: j < i < n - 1 ==> !TopHit(self0, objects, active, i))
               ==> forall i :: j < i < n ==> !TopHit(self0, objects, active, i);
      }
    }
  }

  /** No platform is reported exactly when no object was resolved through its top. */
  lemma {:induction false} ResolveNoPlatform(self0: Rect, objects: seq<Rect>, n: nat, active: CollisionState)
    requires n <= |objects|
    ensures Resolve(self0, objects, n, active).platformOn == None
            <==> forall i :: 0 <= i < n ==> !TopHit(self0, objects, active, i)
  {
    if n > 0 {
      ResolveNoPlatform(self0, objects, n - 1, active);
      ResolvePlatformStep(self0, objects, n, active);
    }
  }

  /** A 20 by 40 body sinking into the top of a 100 by 10 block is put on top of it, its centre
      half its height above the block. */
  lemma LandingScenario(body: Rect, block: Rect)
    requires body == Rect(Vector2(0.0, 25.0), 20.0, 40.0)
    requires block == Rect(Vector2(0.0, 5.0), 100.0, 10.0)
    ensures Resolve(body, [block], 1, NoCollision) == Resolution(Vector2(0.0, 30.0), OnTop, Some(0))
  {
    assert Bounds(body) == Extents(-10.0, 10.0, 5.0, 45.0);
    assert Bounds(block) == Extents(-50.0, 50.0, 0.0, 10.0);
    var d := Depths(Bounds(body), Bounds(block));
    assert d == [60.0, 60.0, 45.0, 5.0];
    assert d[3] < d[0] && d[3] < d[1] && d[3] < d[2];
    MinIndexOfStrictMinimum(d, 3);
    assert ChosenSide(body, block) == 3;
    var start := Resolve(body, [block], 0, NoCollision);
    assert Current(body, start) == body;
    assert CollidesWith(body, block);
    assert PushOut(body.center, 20.0, 40.0, Bounds(block), 3) == Vector2(0.0, 30.0);
  }

  /** The depths come from the bounds taken before the loop, so once one object has moved the
      body the side picked for the next need not be the smallest correction. A 20 by 20 body is
      pushed right by `a` to x = 15; the stale depths against `b` are [7, 18, 60, 60], so it is
      pushed left by 22 units to x = -7, where it overlaps `a` again, although pushing it right
      by 3 units would have cleared `b`. */
  lemma StaleDepthsScenario(body: Rect, a: Rect, b: Rect)
    requires body == Rect(Vector2(0.0, 0.0), 20.0, 20.0)
    requires a == Rect(Vector2(-5.0, 0.0), 20.0, 100.0)
    requires b == Rect(Vector2(5.5, 0.0), 5.0, 100.0)
    ensures Resolve(body, [a, b], 1, NoCollision).center == Vector2(15.0, 0.0)
    ensures Depths(Bounds(body), Bounds(b)) == [7.0, 18.0, 60.0, 60.0]
    ensures Resolve(body, [a, b], 2, NoCollision).center == Vector2(-7.0, 0.0)
    ensures CollidesWith(Rect(Vector2(-7.0, 0.0), 20.0, 20.0), a)
    ensures PushOut(Vector2(15.0, 0.0), 20.0, 20.0, Bounds(b), 1) == Vector2(18.0, 0.0)
    ensures !CollidesWith(Rect(Vector2(18.0, 0.0), 20.0, 20.0), b)
  {
    var s0 := Resolution(body.center, NoCollision, None);
    var s1 := Resolution(Vector2(15.0, 0.0), OnSide, None);
    StaleFirstPush(body, a, s0);
    StaleSecondPush(body, b, s1);
    assert Resolve(body, [a, b], 1, NoCollision) == Step(body, s0, a, 0);
    assert Resolve(body, [a, b], 2, NoCollision) == Step(body, s1, b, 1);
    assert Bounds(Rect(Vector2(-7.0, 0.0), 20.0, 20.0)) == Extents(-17.0, 3.0, -10.0, 10.0);
    assert Bounds(Rect(Vector2(18.0, 0.0), 20.0, 20.0)) == Extents(8.0, 28.0, -10.0, 10.0);
  }

  /** The first step of `StaleDepthsScenario`: `a` pushes the body right. */
  lemma StaleFirstPush(body: Rect, a: Rect, s0: Resolution)
    requires body == Rect(Vector2(0.0, 0.0), 20.0, 20.0)
    requires a == Rect(Vector2(-5.0, 0.0), 20.0, 100.0)
    requires s0 == Resolution(body.center, NoCollision, None)
    ensures Step(body, s0, a, 0) == Resolution(Vector2(15.0, 0.0), OnSide, None)
  {
    assert Bounds(body) == Extents(-10.0, 10.0, -10.0, 10.0);
    assert Bounds(a) == Extents(-15.0, 5.0, -50.0, 50.0);
    var da := Depths(Bounds(body), Bounds(a));
    assert da == [25.0, 15.0, 60.0, 60.0];
    MinIndexOfStrictMinimum(da, 1);
    assert Current(body, s0) == body;
    assert CollidesWith(body, a);
  }

  /** The second step of `StaleDepthsScenario`: the stale depths push the body left out of `b`. */
  lemma StaleSecondPush(body: Rect, b: Rect, s1: Resolution)
    requires body == Rect(Vector2(0.0, 0.0), 20.0, 20.0)
    requires b == Rect(Vector2(5.5, 0.0), 5.0, 100.0)
    requires s1 == Resolution(Vector2(15.0, 0.0), OnSide, None)
    ensures Depths(Bounds(body), Bounds(b)) == [7.0, 18.0, 60.0, 60.0]
    ensures Step(body, s1, b, 1) == Resolution(Vector2(-7.0, 0.0), OnSide, None)
  {
    assert Bounds(body) == Extents(-10.0, 10.0, -10.0, 10.0);
    assert Bounds(b) == Extents(3.0, 8.0, -50.0, 50.0);
    var db := Depths(Bounds(body), Bounds(b));
    assert db == [7.0, 18.0, 60.0, 60.0];
    MinIndexOfStrictMinimum(db, 0);
    assert Bounds(Current(body, s1)) == Extents(5.0, 25.0, -10.0, 10.0);
    assert CollidesWith(Current(body, s1), b);
  }

  // ---------------------------------------------------------------------------------------
  // RigidBody
  // ---------------------------------------------------------------------------------------

  /** The value of a rigid body, as the level tables write it and as it is copied. */
  datatype BodyState = BodyState(center: Vector2, width: real, height: real, velocity: Vector2)

  /** The body `RigidBody::new()` produces; that constructor is not part of this model, so the
      value is left abstract. */
  const DEFAULT_BODY: BodyState

  class RigidBody {
    var center: Vector2
    var width: real
    var height: real
    var velocity: Vector2

    constructor FromState(s: BodyState)
      ensures State() == s
    {
      center, width, height, velocity := s.center, s.width, s.height, s.velocity;
    }

    function State(): BodyState
      reads this
    {
      BodyState(center, width, height, velocity)
    }

    function Shape(): Rect
      reads this
    {
      Rect(center, width, height)
    }

    /** Moves the centre by `movement`, with no physics; nothing else changes. */
    method MoveBy(movement: Vector2)
      modifies this
      ensures center == Add(movement, old(center))
      ensures width == old(width) && height == old(height) && velocity == old(velocity)
    {
      center := Add(movement, center);
    }

    /** Resolves the body against each object in turn. `active` is the caller's collision state
        on entry; the state on exit is returned beside the index of the last object stood on.
        Only the centre changes, as `Resolve` describes. */
    method HandleCollisions(objects: seq<Rect>, active: CollisionState)
      returns (platformOn: Option<nat>, activeOut: CollisionState)
      modifies this
      ensures Resolution(center, activeOut, platformOn) == Resolve(old(Shape()), objects, |objects|, active)
      ensures width == old(width) && height == old(height) && velocity == old(velocity)
    {
      ghost var self0 := Shape();
      var selfBounds := Bounds(Shape());
      platformOn := None;
      activeOut := active;
      for i := 0 to |objects|
        invariant width == self0.width && height == self0.height && velocity == old(velocity)
        invariant Resolution(center, activeOut, platformOn) == Resolve(self0, objects, i, active)
      {
        var obj := objects[i];
        ghost var before := Resolution(center, activeOut, platformOn);
        assert Shape() == Current(self0, before);
        assert Resolve(self0, objects, i + 1, active) == Step(self0, before, obj, i);
        if !CollidesWith(Shape(), obj) {
          continue;
        }
        var objBounds := Bounds(obj);
        var minIndex := MinIndex(Depths(selfBounds, objBounds));
        assert minIndex == ChosenSide(self0, obj);
        var c := center;
        if minIndex == 0 {
          c := c.(x := objBounds.left - width / 2.0);
        } else if minIndex == 1 {
          c := c.(x := objBounds.right + width / 2.0);
        } else if minIndex == 2 {
          c := c.(y := objBounds.bottom - height / 2.0 - 1.0);
        } else if minIndex == 3 {
          c := c.(y := objBounds.top + height / 2.0);
        } else {
          assert false;
        }
        assert c == PushOut(before.center, self0.width, self0.height, objBounds, minIndex);
        center := c;
        activeOut := if minIndex == 0 || minIndex == 1 then OnSide
                     else if minIndex == 2 then OnBottom
                     else OnTop;
        assert activeOut == SideState(minIndex);
        if activeOut == OnTop {
          platformOn := Some(i);
        }
      }
    }
  }

  // ---------------------------------------------------------------------------------------
  // MovingObject
  // ---------------------------------------------------------------------------------------

  datatype Direction = Leaving | Returning | Standstil

  predicate IsInteger(r: real) {
    r == r.Floor as real
  }

  /** Truncation toward zero. */
  function Trunc(r: real): (t: real)
    ensures IsInteger(t)
    ensures r >= 0.0 ==> 0.0 <= t <= r < t + 1.0
    ensures r < 0.0 ==> t - 1.0 < r <= t <= 0.0
  {
    if r >= 0.0 then
      var n := r.Floor;
      assert (n as real).Floor == n;
      n as real
    else
      var n := (-r).Floor;
      assert ((-n) as real).Floor == -n;
      -(n as real)
  }

  /** `r % 2.0` on `f64`: the remainder of truncated division, which has the sign of `r`. It
      differs from `r` by an even integer and lies in [0, 2) for non-negative `r`. */
  function Rem2(r: real): (m: real)
    ensures IsInteger((r - m) / 2.0)
    ensures r >= 0.0 ==> 0.0 <= m < 2.0
    ensures r < 0.0 ==> -2.0 < m <= 0.0
  {
    r - 2.0 * Trunc(r / 2.0)
  }

  /** The progress after moving for `amount` time units along a path that takes `moveTime`. */
  function Advance(traveled: real, amount: real, moveTime: real): real
    requires moveTime != 0.0
  {
    Rem2(traveled + amount / moveTime)
  }

  /** The triangle wave of the progress: out and back over a progress of 2. */
  function LerpAmount(traveled: real): real {
    if traveled <= 1.0 then traveled else 2.0 - traveled
  }

  function DirectionAt(traveled: real): Direction {
    if traveled <= 1.0 then Leaving else Returning
  }

  /** Where a platform with these end points stands at this progress. */
  function PathPosition(startPos: Vector2, endPos: Vector2, traveled: real): Vector2 {
    Lerp(startPos, endPos, LerpAmount(traveled))
  }

  /** Adding 2 to a non-negative progress does not change its remainder. */
  lemma Rem2ShiftByTwo(r: real)
    requires r >= 0.0
    ensures Rem2(r + 2.0) == Rem2(r)
  {
    assert (r + 2.0) / 2.0 == r / 2.0 + 1.0;
    assert ((r + 2.0) / 2.0).Floor == (r / 2.0).Floor + 1;
  }

  /** A non-negative value below 2 is its own remainder. */
  lemma Rem2Small(r: real)
    requires 0.0 <= r < 2.0
    ensures Rem2(r) == r
  {
    assert (r / 2.0).Floor == 0;
  }

  lemma DivideSum(a: real, b: real, m: real)
    requires m != 0.0
    ensures (a + b * m) / m == a / m + b
  {
    assert (a / m + b) * m == a + b * m;
  }

  /** Moving for one full period (twice the move time) returns to the same progress, from any
      starting point and for any preceding movement. */
  lemma AdvancePeriodic(traveled: real, amount: real, moveTime: real)
    requires moveTime > 0.0 && traveled + amount / moveTime >= 0.0
    ensures Advance(traveled, amount + 2.0 * moveTime, moveTime) == Advance(traveled, amount, moveTime)
  {
    DivideSum(amount, 2.0, moveTime);
    Rem2ShiftByTwo(traveled + amount / moveTime);
  }

  /** Over a progress in [0, 2) the lerp factor stays in [0, 1], reaches 0 at the start and 1
      at the far end, and is symmetric about 1. */
  lemma LerpAmountTriangle(traveled: real)
    requires 0.0 <= traveled < 2.0
    ensures 0.0 <= LerpAmount(traveled) <= 1.0
    ensures LerpAmount(0.0) == 0.0 && LerpAmount(1.0) == 1.0
    ensures traveled > 0.0 ==> LerpAmount(2.0 - traveled) == LerpAmount(traveled)
  {
  }

  /** A platform is at its start at progress 0, at its end at progress 1, and always on the
      segment between the two. */
  lemma PathPositionOnSegment(startPos: Vector2, endPos: Vector2, traveled: real)
    requires 0.0 <= traveled < 2.0
    ensures PathPosition(startPos, endPos, 0.0) == startPos
    ensures PathPosition(startPos, endPos, 1.0) == endPos
    ensures var p := PathPosition(startPos, endPos, traveled);
            Between(startPos.x, p.x, endPos.x) && Between(startPos.y, p.y, endPos.y)
  {
    LerpEndpoints(startPos, endPos);
    LerpAmountTriangle(traveled);
    LerpBetween(startPos, endPos, LerpAmount(traveled));
  }

  /** A platform path is walked back the way it came: progress `2 - t` stands where `t` does. */
  lemma PathPositionSymmetric(startPos: Vector2, endPos: Vector2, traveled: real)
    requires 0.0 < traveled < 2.0
    ensures PathPosition(startPos, endPos, 2.0 - traveled) == PathPosition(startPos, endPos, traveled)
  {
    LerpAmountTriangle(traveled);
  }

  /** Within one period the progress simply grows by the elapsed fraction of the move time. */
  lemma AdvanceWithinPeriod(traveled: real, amount: real, moveTime: real)
    requires moveTime != 0.0 && 0.0 <= traveled + amount / moveTime < 2.0
    ensures Advance(traveled, amount, moveTime) == traveled + amount / moveTime
  {
    Rem2Small(traveled + amount / moveTime);
  }

  /** A platform with move time 10, advanced by 5 three times, is half way out, then at the
      far end, then half way back on its return. */
  lemma PlatformScenario()
    ensures Advance(0.0, 5.0, 10.0) == 0.5 && DirectionAt(0.5) == Leaving
    ensures Advance(0.5, 5.0, 10.0) == 1.0 && DirectionAt(1.0) == Leaving
    ensures Advance(1.0, 5.0, 10.0) == 1.5 && DirectionAt(1.5) == Returning
  {
    AdvanceWithinPeriod(0.0, 5.0, 10.0);
    AdvanceWithinPeriod(0.5, 5.0, 10.0);
    AdvanceWithinPeriod(1.0, 5.0, 10.0);
  }

  /** Half way out along (0, 0) to (100, 0) the platform stands at (50, 0). */
  lemma HalfWayScenario()
    ensures PathPosition(Vector2(0.0, 0.0), Vector2(100.0, 0.0), 0.5) == Vector2(50.0, 0.0)
  {
    LerpLinear(Vector2(0.0, 0.0), Vector2(100.0, 0.0), 0.5);
  }

  class MovingObject {
    const startPos: Vector2
    const endPos: Vector2
    const width: real
    const height: real
    const moveTime: real

    var amountTraveled: real
    var direction: Direction
    var center: Vector2
    /** the displacement of the last update */
    var prevMove: Vector2

    /** The centre is always where the progress puts it on the path. */
    ghost predicate Valid()
      reads this
    {
      center == PathPosition(startPos, endPos, amountTraveled)
    }

    /** A new platform, leaving from its start point. */
    constructor New(startPos: Vector2, endPos: Vector2, width: real, height: real, moveTime: real)
      ensures this.startPos == startPos && this.endPos == endPos
      ensures this.width == width && this.height == height && this.moveTime == moveTime
      ensures amountTraveled == 0.0 && direction == Leaving
      ensures center == startPos && prevMove == ZERO
      ensures Valid()
    {
      this.startPos := startPos;
      this.endPos := endPos;
      this.width := width;
      this.height := height;
      this.moveTime := moveTime;
      amountTraveled := 0.0;
      direction := Leaving;
      center := startPos;
      prevMove := ZERO;
      new;
      LerpEndpoints(startPos, endPos);
    }

    function Shape(): Rect
      reads this
    {
      Rect(center, width, height)
    }

    /** Moves the platform along its path by `amount` time units. A negative amount panics;
        zero only marks the platform as standing still; a positive amount advances the progress
        modulo 2, sets the direction from it, puts the centre on the path and records the
        displacement. With a positive move time the progress stays in [0, 2). */
    method Update(amount: real) returns (outcome: Outcome<()>)
      requires moveTime != 0.0
      requires Valid()
      modifies this
      ensures Valid()
      ensures outcome == Panic <==> amount < 0.0
      ensures amount < 0.0 ==> amountTraveled == old(amountTraveled) && direction == old(direction)
                               && center == old(center) && prevMove == old(prevMove)
      ensures amount == 0.0 ==> direction == Standstil && amountTraveled == old(amountTraveled)
                                && center == old(center) && prevMove == old(prevMove)
      ensures amount > 0.0 ==> && amountTraveled == Advance(old(amountTraveled), amount, moveTime)
                               && direction == DirectionAt(amountTraveled)
                               && (direction == Leaving <==> amountTraveled <= 1.0)
                               && center == PathPosition(startPos, endPos, amountTraveled)
                               && Add(old(center), prevMove) == center
      ensures amount > 0.0 && moveTime > 0.0 && old(amountTraveled) >= 0.0 ==> 0.0 <= amountTraveled < 2.0
    {
      var preCenter := center;
      if amount < 0.0 {
        return Panic;
      } else if amount == 0.0 {
        direction := Standstil;
        return Pass(());
      }
      if moveTime > 0.0 && amountTraveled >= 0.0 {
        assert amount / moveTime > 0.0;
      }
      amountTraveled := amountTraveled + amount / moveTime;
      amountTraveled := Rem2(amountTraveled);
      if amountTraveled <= 1.0 {
        direction := Leaving;
      } else {
        direction := Returning;
      }
      var lerpAmount: real;
      if direction == Leaving {
        lerpAmount := amountTraveled;
      } else {
        lerpAmount := 2.0 - amountTraveled;
      }
      center := Lerp(startPos, endPos, lerpAmount);
      prevMove := Add(Multiply(preCenter, -1.0), center);
      outcome := Pass(());
    }
  }

  // ---------------------------------------------------------------------------------------
  // StaticObject
  // ---------------------------------------------------------------------------------------

  /** A block that never moves. */
  datatype StaticObject = StaticObject(center: Vector2, width: real, height: real) {
    function Shape(): Rect {
      Rect(center, width, height)
    }
  }
}
