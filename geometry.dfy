// Points, arena clamping and destructible rock solidity.
module Geometry {
  import opened Config

  datatype Point = Point(x: real, y: real)
  datatype Vec = Vec(dx: real, dy: real)

  function Min(a: real, b: real): real { if a <= b then a else b }
  function Max(a: real, b: real): real { if a <= b then b else a }
  function Sq(a: real): real { a * a }

  /** Squared distance. `Math.sqrt` is monotone, so comparing squares compares distances. */
  function DistSq(a: Point, b: Point): real {
    Sq(b.x - a.x) + Sq(b.y - a.y)
  }

  /** `Math.max(lo, Math.min(hi, v))`: the point of [lo, hi] nearest to v. */
  function Clamp(lo: real, hi: real, v: real): (r: real)
    requires lo <= hi
    ensures lo <= r <= hi
    ensures lo <= v <= hi ==> r == v
    ensures v < lo ==> r == lo
    ensures hi < v ==> r == hi
  {
    Max(lo, Min(hi, v))
  }

  /** A tank centre lies in the arena minus the tank radius. */
  predicate InArena(p: Point) {
    RADIUS as real <= p.x <= (CANVAS_W - RADIUS) as real &&
    RADIUS as real <= p.y <= (CANVAS_H - RADIUS) as real
  }

  /** The clamp applied to a tank after every movement and push-out step. */
  function ClampToArena(p: Point): (q: Point)
    ensures InArena(q)
    ensures InArena(p) <==> q == p
    ensures InArena(Point(p.x, q.y)) ==> q.x == p.x
    ensures InArena(Point(q.x, p.y)) ==> q.y == p.y
  {
    Point(Clamp(RADIUS as real, (CANVAS_W - RADIUS) as real, p.x),
          Clamp(RADIUS as real, (CANVAS_H - RADIUS) as real, p.y))
  }

  /** A projectile that leaves the canvas is destroyed. */
  predicate LeftCanvas(p: Point) {
    p.x < 0.0 || p.x > CANVAS_W as real || p.y < 0.0 || p.y > CANVAS_H as real
  }

  /** `Math.round`: rounds half-way values towards positive infinity. */
  function RoundHalfUp(v: real): (r: int)
    ensures r as real - 0.5 <= v < r as real + 0.5
  {
    (v + 0.5).Floor
  }

  datatype Hole = Hole(cx: int, cy: int, r: int)
  datatype Destructible = Destructible(id: int, x: int, y: int, w: int, h: int, holes: seq<Hole>)

  /** Inside the closed axis-aligned rectangle of the rock. */
  predicate InRect(d: Destructible, p: Point) {
    var hw, hh := d.w as real / 2.0, d.h as real / 2.0;
    !(p.x < d.x as real - hw || p.x > d.x as real + hw ||
      p.y < d.y as real - hh || p.y > d.y as real + hh)
  }

  /** Inside (or on the rim of) one carved hole. */
  predicate InHole(h: Hole, p: Point) {
    Sq(p.x - h.cx as real) + Sq(p.y - h.cy as real) <= Sq(h.r as real)
  }

  /** No hole of the list covers p. */
  function Uncovered(holes: seq<Hole>, p: Point): (b: bool)
    ensures b <==> forall k :: 0 <= k < |holes| ==> !InHole(holes[k], p)
  {
    if holes == [] then true
    else !InHole(holes[0], p) && Uncovered(holes[1..], p)
  }

  /** A point is solid rock iff it is inside the rectangle and in no hole. */
  function IsDestructibleSolid(d: Destructible, p: Point): (b: bool)
    ensures b <==> InRect(d, p) && forall k :: 0 <= k < |d.holes| ==> !InHole(d.holes[k], p)
  {
    InRect(d, p) && Uncovered(d.holes, p)
  }

  /** A projectile impact appends one hole to the rock. */
  function AddHole(d: Destructible, h: Hole): (e: Destructible)
    ensures |e.holes| == |d.holes| + 1
    ensures e.holes[..|d.holes|] == d.holes && e.holes[|d.holes|] == h
    ensures e == d.(holes := e.holes)
  {
    d.(holes := d.holes + [h])
  }

  /** After a hole is added a point is solid exactly when it was solid and lies outside the new hole. */
  lemma {:induction false} AddHoleShrinks(d: Destructible, h: Hole, p: Point)
    ensures IsDestructibleSolid(AddHole(d, h), p) <==> IsDestructibleSolid(d, p) && !InHole(h, p)
  {
    var e := AddHole(d, h);
    if IsDestructibleSolid(d, p) && !InHole(h, p) {
      forall k | 0 <= k < |e.holes| ensures !InHole(e.holes[k], p) {
        if k < |d.holes| { assert e.holes[k] == d.holes[k]; }
      }
    }
    if IsDestructibleSolid(e, p) {
      forall k | 0 <= k < |d.holes| ensures !InHole(d.holes[k], p) {
        assert e.holes[k] == d.holes[k];
      }
      assert e.holes[|d.holes|] == h;
    }
  }

  /** The centre of a freshly carved hole is no longer solid. */
  lemma ImpactPointCarved(d: Destructible, cx: int, cy: int)
    ensures !IsDestructibleSolid(AddHole(d, Hole(cx, cy, DESTRUCT_RADIUS)), Point(cx as real, cy as real))
  {
    AddHoleShrinks(d, Hole(cx, cy, DESTRUCT_RADIUS), Point(cx as real, cy as real));
  }

  /** Solidity is monotone under any number of impacts: holes only remove rock. */
  lemma {:induction false} HolesOnlyShrink(d: Destructible, hs: seq<Hole>, p: Point)
    ensures IsDestructibleSolid(d.(holes := d.holes + hs), p) ==> IsDestructibleSolid(d, p)
    decreases |hs|
  {
    if hs != [] {
      var last := hs[|hs| - 1];
      var before := d.(holes := d.holes + hs[..|hs| - 1]);
      assert d.holes + hs == before.holes + [last];
      assert d.(holes := d.holes + hs) == AddHole(before, last);
      AddHoleShrinks(before, last, p);
      HolesOnlyShrink(d, hs[..|hs| - 1], p);
    } else {
      assert d.holes + hs == d.holes;
    }
  }
}
