/** Compass bearings in a plane whose x axis points east and whose y axis
    points north. A bearing is measured clockwise from north, in degrees.

    This module is the reference against which the line-azimuth computation
    is judged: it says what the bearing of a horizontal direction IS, without
    saying how a program should compute it. */
module Compass {

  /** `atan` behaves like `degrees(arctan(t))`: its value lies strictly
      between -90 and 90 and has the sign of its argument. Nothing else about
      the arctangent is assumed. */
  ghost predicate IsDegreesArctan(atan: real -> real) {
    forall t: real ::
      && -90.0 < atan(t) < 90.0
      && (atan(t) > 0.0 <==> t > 0.0)
      && (atan(t) == 0.0 <==> t == 0.0)
  }

  /** The compass sector of the direction (dx, dy): the four axis directions
      have exact bearings, the four open quadrants open intervals. The zero
      vector has no bearing. */
  predicate InSector(theta: real, dx: real, dy: real) {
    if dx == 0.0 && dy > 0.0 then theta == 0.0
    else if dx > 0.0 && dy > 0.0 then 0.0 < theta < 90.0
    else if dx > 0.0 && dy == 0.0 then theta == 90.0
    else if dx > 0.0 && dy < 0.0 then 90.0 < theta < 180.0
    else if dx == 0.0 && dy < 0.0 then theta == 180.0
    else if dx < 0.0 && dy < 0.0 then 180.0 < theta < 270.0
    else if dx < 0.0 && dy == 0.0 then theta == 270.0
    else if dx < 0.0 && dy > 0.0 then 270.0 < theta < 360.0
    else false
  }

  /** `theta` is the bearing of (dx, dy): it lies in the direction's sector
      and, off the east-west axis, its tangent is dx/dy, that is, it differs
      from the arctangent of dx/dy by a whole number of half turns. */
  predicate IsBearing(atan: real -> real, theta: real, dx: real, dy: real) {
    && InSector(theta, dx, dy)
    && (dy != 0.0 ==>
          var k := theta - atan(dx / dy);
          k == 0.0 || k == 180.0 || k == 360.0)
  }

  /** The sign of a quotient is the product of the signs of its operands. */
  lemma QuotientSign(dx: real, dy: real)
    requires dy != 0.0
    ensures dx / dy > 0.0 <==> (dx > 0.0 && dy > 0.0) || (dx < 0.0 && dy < 0.0)
    ensures dx / dy == 0.0 <==> dx == 0.0
  {
    var q := dx / dy;
    assert q * dy == dx;
    if dy > 0.0 {
      if q > 0.0 { assert q * dy > 0.0; }
      if q < 0.0 { assert q * dy < 0.0; }
    } else {
      if q > 0.0 { assert q * dy < 0.0; }
      if q < 0.0 { assert q * dy > 0.0; }
    }
  }

  /** Negating both components leaves the tangent ratio unchanged. */
  lemma OppositeQuotient(dx: real, dy: real)
    requires dy != 0.0
    ensures (-dx) / (-dy) == dx / dy
  {
    var q := dx / dy;
    assert q * dy == dx;
    assert q * (-dy) == -dx;
  }

  /** A nonzero direction has at most one bearing. */
  lemma BearingUnique(atan: real -> real, t1: real, t2: real, dx: real, dy: real)
    requires IsDegreesArctan(atan)
    requires IsBearing(atan, t1, dx, dy) && IsBearing(atan, t2, dx, dy)
    ensures t1 == t2
  {
    if dy != 0.0 {
      var a := atan(dx / dy);
      assert -90.0 < a < 90.0;
    }
  }

  /** The opposite direction points half a turn away. */
  lemma BearingOpposite(atan: real -> real, theta: real, dx: real, dy: real)
    requires IsDegreesArctan(atan)
    requires IsBearing(atan, theta, dx, dy)
    ensures IsBearing(atan, if theta < 180.0 then theta + 180.0 else theta - 180.0, -dx, -dy)
  {
    if dy != 0.0 {
      OppositeQuotient(dx, dy);
      assert -90.0 < atan(dx / dy) < 90.0;
    }
  }
}
