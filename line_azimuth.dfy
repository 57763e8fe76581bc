/** The azimuth of a line between two points of a horizontal plane (x east,
    y north), disambiguated by the heights of its end points: of the two
    bearings along the line, the one reported is the one the line leans
    towards, from the higher end point to the lower one.

    `degrees(arctan(.))` is a parameter `atan` (see Compass.IsDegreesArctan);
    Python's `round(value, ndigits)` is kept symbolic: the model returns the
    expression that the function's `return` statement evaluates. */
module LineAzimuth {
  import opened Compass

  /** The raw angle: `degrees(arctan(dx / dy))`, or Python's `None` when the
      division raised ZeroDivisionError. */
  datatype RawAngle = Angle(deg: real) | NoAngle

  /** What a `return` statement of get_azimuth hands back: either
      `round(value, ndigits)` or the bare value. */
  datatype Return =
    | Round(value: real, ndigits: int)
    | Plain(value: real)

  /** A call either returns or raises TypeError. */
  datatype Outcome = Returns(ret: Return) | RaisesTypeError

  /** The `try`/`except` around the division: `None` exactly when the
      division by dy raises. */
  function EstimateAngle(atan: real -> real, dx: real, dy: real): (a: RawAngle)
    ensures a.NoAngle? <==> dy == 0.0
  {
    if dy == 0.0 then NoAngle else Angle(atan(dx / dy))
  }

  /** get_azimuth as written, under Python 3: when the end points share their
      y coordinate the raw angle is `None`, and the very first comparison
      `None > 0` raises TypeError. */
  function GetAzimuth(atan: real -> real, xStart: real, yStart: real, xEnd: real, yEnd: real,
                      heightStart: real, heightEnd: real, r: int): (o: Outcome)
    ensures o.RaisesTypeError? <==> yEnd == yStart
  {
    var dx := xEnd - xStart;
    var dy := yEnd - yStart;
    match EstimateAngle(atan, dx, dy)
    case NoAngle => RaisesTypeError
    case Angle(angle) =>
      Returns(
        if angle > 0.0 then
          if dx > 0.0 then
            if heightStart >= heightEnd then Round(angle, 0) else Round(180.0 + angle, r)
          else
            if heightStart >= heightEnd then Round(180.0 + angle, r) else Round(angle, 0)
        else if angle < 0.0 then
          if dx > 0.0 then
            if heightStart >= heightEnd then Round(180.0 + angle, r) else Round(360.0 + angle, r)
          else
            if heightStart >= heightEnd then Round(360.0 + angle, r) else Round(180.0 + angle, r)
        else
          if dy > 0.0 then
            if heightStart >= heightEnd then Plain(angle) else Plain(180.0)
          else
            if heightStart >= heightEnd then Plain(180.0) else Plain(angle))
  }

  /** The direction the line leans towards: from the start to the end when the
      start is at least as high, otherwise the reverse. */
  function DipDirection(dx: real, dy: real, heightStart: real, heightEnd: real): (d: (real, real)) {
    if heightStart >= heightEnd then (dx, dy) else (-dx, -dy)
  }

  /** The raw angle is `None` exactly on an east-west line; otherwise it lies
      in (-90, 90), is zero exactly on a north-south line, and is positive
      exactly when the line runs north-east / south-west. */
  lemma RawAngleFacts(atan: real -> real, dx: real, dy: real)
    requires IsDegreesArctan(atan)
    ensures EstimateAngle(atan, dx, dy).NoAngle? <==> dy == 0.0
    ensures EstimateAngle(atan, dx, dy).Angle? ==>
      var a := EstimateAngle(atan, dx, dy).deg;
      && -90.0 < a < 90.0
      && (a == 0.0 <==> dx == 0.0)
      && (a > 0.0 <==> (dx > 0.0 && dy > 0.0) || (dx < 0.0 && dy < 0.0))
  {
    if dy != 0.0 {
      QuotientSign(dx, dy);
      assert -90.0 < atan(dx / dy) < 90.0;
    }
  }

  /** Off the east-west axis get_azimuth returns, before rounding, the compass
      bearing of the direction the line leans towards. */
  lemma AzimuthIsDipBearing(atan: real -> real, xStart: real, yStart: real, xEnd: real, yEnd: real,
                            heightStart: real, heightEnd: real, r: int)
    requires IsDegreesArctan(atan)
    requires yEnd != yStart
    ensures
      var o := GetAzimuth(atan, xStart, yStart, xEnd, yEnd, heightStart, heightEnd, r);
      var dip := DipDirection(xEnd - xStart, yEnd - yStart, heightStart, heightEnd);
      o.Returns? && IsBearing(atan, o.ret.value, dip.0, dip.1)
  {
    var dx, dy := xEnd - xStart, yEnd - yStart;
    RawAngleFacts(atan, dx, dy);
    OppositeQuotient(dx, dy);
  }

  /** Every value get_azimuth returns lies in [0, 360) before rounding. The
      north-south line returns a bare 0 or 180; every other branch rounds,
      to 0 digits when the value lies in the first quadrant (0, 90) and to
      the caller's `r` digits otherwise, so only those two first-quadrant
      branches ignore `r`. */
  lemma RoundingByQuadrant(atan: real -> real, xStart: real, yStart: real, xEnd: real, yEnd: real,
                           heightStart: real, heightEnd: real, r: int)
    requires IsDegreesArctan(atan)
    requires yEnd != yStart
    ensures
      var o := GetAzimuth(atan, xStart, yStart, xEnd, yEnd, heightStart, heightEnd, r);
      && o.Returns?
      && 0.0 <= o.ret.value < 360.0
      && (o.ret.Plain? <==> xEnd == xStart)
      && (o.ret.Plain? ==> o.ret.value == 0.0 || o.ret.value == 180.0)
      && (o.ret.Round? ==> o.ret.ndigits == if o.ret.value < 90.0 then 0 else r)
  {
    AzimuthIsDipBearing(atan, xStart, yStart, xEnd, yEnd, heightStart, heightEnd, r);
  }

  /** With the points held fixed, changing the outcome of the height test
      turns the unrounded azimuth by half a turn. */
  lemma HeightTestFlipsHalfTurn(atan: real -> real, xStart: real, yStart: real, xEnd: real, yEnd: real,
                                heightStart: real, heightEnd: real, heightStart': real, heightEnd': real,
                                r: int, r': int)
    requires IsDegreesArctan(atan)
    requires yEnd != yStart
    requires (heightStart >= heightEnd) != (heightStart' >= heightEnd')
    ensures
      var o := GetAzimuth(atan, xStart, yStart, xEnd, yEnd, heightStart, heightEnd, r);
      var o' := GetAzimuth(atan, xStart, yStart, xEnd, yEnd, heightStart', heightEnd', r');
      && o.Returns? && o'.Returns?
      && (o'.ret.value == o.ret.value + 180.0 || o'.ret.value == o.ret.value - 180.0)
  {
    var dx, dy := xEnd - xStart, yEnd - yStart;
    var v := GetAzimuth(atan, xStart, yStart, xEnd, yEnd, heightStart, heightEnd, r).ret.value;
    var v' := GetAzimuth(atan, xStart, yStart, xEnd, yEnd, heightStart', heightEnd', r').ret.value;
    var dip := DipDirection(dx, dy, heightStart, heightEnd);
    AzimuthIsDipBearing(atan, xStart, yStart, xEnd, yEnd, heightStart, heightEnd, r);
    AzimuthIsDipBearing(atan, xStart, yStart, xEnd, yEnd, heightStart', heightEnd', r');
    BearingOpposite(atan, v, dip.0, dip.1);
    assert DipDirection(dx, dy, heightStart', heightEnd') == (-dip.0, -dip.1);
    BearingUnique(atan, v', if v < 180.0 then v + 180.0 else v - 180.0, -dip.0, -dip.1);
  }

  /** Naming the end points the other way round, heights included, changes
      nothing when one end is strictly higher: the raw angle is the same and
      the signs of dx, dy and the height test all flip together. */
  lemma SwapEndpoints(atan: real -> real, xStart: real, yStart: real, xEnd: real, yEnd: real,
                      heightStart: real, heightEnd: real, r: int)
    requires IsDegreesArctan(atan)
    requires heightStart != heightEnd
    ensures GetAzimuth(atan, xEnd, yEnd, xStart, yStart, heightEnd, heightStart, r)
         == GetAzimuth(atan, xStart, yStart, xEnd, yEnd, heightStart, heightEnd, r)
  {
    if yEnd != yStart {
      OppositeQuotient(xEnd - xStart, yEnd - yStart);
      RawAngleFacts(atan, xEnd - xStart, yEnd - yStart);
      assert xStart - xEnd == -(xEnd - xStart) && yStart - yEnd == -(yEnd - yStart);
    }
  }

  /** When both end points are equally high the height test holds either way
      round, so swapping them turns the unrounded azimuth by half a turn. */
  lemma SwapLevelEndpoints(atan: real -> real, xStart: real, yStart: real, xEnd: real, yEnd: real,
                           height: real, r: int)
    requires IsDegreesArctan(atan)
    requires yEnd != yStart
    ensures
      var o := GetAzimuth(atan, xStart, yStart, xEnd, yEnd, height, height, r);
      var o' := GetAzimuth(atan, xEnd, yEnd, xStart, yStart, height, height, r);
      && o.Returns? && o'.Returns?
      && (o'.ret.value == o.ret.value + 180.0 || o'.ret.value == o.ret.value - 180.0)
  {
    var dx, dy := xEnd - xStart, yEnd - yStart;
    var v := GetAzimuth(atan, xStart, yStart, xEnd, yEnd, height, height, r).ret.value;
    var v' := GetAzimuth(atan, xEnd, yEnd, xStart, yStart, height, height, r).ret.value;
    AzimuthIsDipBearing(atan, xStart, yStart, xEnd, yEnd, height, height, r);
    AzimuthIsDipBearing(atan, xEnd, yEnd, xStart, yStart, height, height, r);
    BearingOpposite(atan, v, dx, dy);
    assert xStart - xEnd == -dx && yStart - yEnd == -dy;
    BearingUnique(atan, v', if v < 180.0 then v + 180.0 else v - 180.0, -dx, -dy);
  }

  /** The table get_azimuth holds for an east-west line (its `angle is None`
      branch), which the code as written never reaches. */
  function EastWestAzimuth(dx: real, heightStart: real, heightEnd: real): (theta: real)
    ensures theta == 90.0 || theta == 270.0
    ensures theta == 90.0 <==> (dx > 0.0 <==> heightStart >= heightEnd)
  {
    if dx > 0.0 then
      if heightStart >= heightEnd then 90.0 else 270.0
    else
      if heightStart >= heightEnd then 270.0 else 90.0
  }

  /** get_azimuth as its `angle is None` branch intends: an east-west line
      gets 90 or 270 instead of raising. Wherever the code as written
      returns, the two agree. */
  function GetAzimuthIntended(atan: real -> real, xStart: real, yStart: real, xEnd: real, yEnd: real,
                              heightStart: real, heightEnd: real, r: int): (ret: Return)
    ensures
      var o := GetAzimuth(atan, xStart, yStart, xEnd, yEnd, heightStart, heightEnd, r);
      o.Returns? ==> ret == o.ret
  {
    if yEnd == yStart then Plain(EastWestAzimuth(xEnd - xStart, heightStart, heightEnd))
    else GetAzimuth(atan, xStart, yStart, xEnd, yEnd, heightStart, heightEnd, r).ret
  }

  /** The intended azimuth of any line of nonzero horizontal extent is the
      compass bearing of the direction it leans towards. */
  lemma IntendedIsDipBearing(atan: real -> real, xStart: real, yStart: real, xEnd: real, yEnd: real,
                             heightStart: real, heightEnd: real, r: int)
    requires IsDegreesArctan(atan)
    requires xEnd != xStart || yEnd != yStart
    ensures
      var dip := DipDirection(xEnd - xStart, yEnd - yStart, heightStart, heightEnd);
      IsBearing(atan, GetAzimuthIntended(atan, xStart, yStart, xEnd, yEnd, heightStart, heightEnd, r).value,
                dip.0, dip.1)
  {
    if yEnd != yStart {
      AzimuthIsDipBearing(atan, xStart, yStart, xEnd, yEnd, heightStart, heightEnd, r);
    }
  }

  /** For the intended azimuth, swapping strictly unequal end points changes
      nothing on every line of nonzero horizontal extent, east-west included. */
  lemma IntendedSwapEndpoints(atan: real -> real, xStart: real, yStart: real, xEnd: real, yEnd: real,
                              heightStart: real, heightEnd: real, r: int)
    requires IsDegreesArctan(atan)
    requires xEnd != xStart || yEnd != yStart
    requires heightStart != heightEnd
    ensures GetAzimuthIntended(atan, xEnd, yEnd, xStart, yStart, heightEnd, heightStart, r).value
         == GetAzimuthIntended(atan, xStart, yStart, xEnd, yEnd, heightStart, heightEnd, r).value
  {
    var dx, dy := xEnd - xStart, yEnd - yStart;
    var v := GetAzimuthIntended(atan, xStart, yStart, xEnd, yEnd, heightStart, heightEnd, r).value;
    var v' := GetAzimuthIntended(atan, xEnd, yEnd, xStart, yStart, heightEnd, heightStart, r).value;
    IntendedIsDipBearing(atan, xStart, yStart, xEnd, yEnd, heightStart, heightEnd, r);
    IntendedIsDipBearing(atan, xEnd, yEnd, xStart, yStart, heightEnd, heightStart, r);
    assert xStart - xEnd == -dx && yStart - yEnd == -dy;
    BearingUnique(atan, v, v', DipDirection(dx, dy, heightStart, heightEnd).0,
                  DipDirection(dx, dy, heightStart, heightEnd).1);
  }

  /** A line due east with its start higher: the code as written raises
      TypeError where its own table promises 90. */
  lemma EastwardLineRaises(atan: real -> real, r: int)
    ensures GetAzimuth(atan, 0.0, 0.0, 10.0, 0.0, 100.0, 50.0, r) == RaisesTypeError
    ensures GetAzimuthIntended(atan, 0.0, 0.0, 10.0, 0.0, 100.0, 50.0, r) == Plain(90.0)
  {
  }

  /** A line due north, and one at 45 degrees. */
  lemma NorthAndDiagonalExamples(atan: real -> real, r: int)
    requires IsDegreesArctan(atan)
    ensures GetAzimuth(atan, 0.0, 0.0, 0.0, 10.0, 100.0, 50.0, r) == Returns(Plain(0.0))
    ensures GetAzimuth(atan, 0.0, 0.0, 0.0, 10.0, 50.0, 100.0, r) == Returns(Plain(180.0))
    ensures GetAzimuth(atan, 0.0, 0.0, 10.0, 10.0, 100.0, 50.0, r) == Returns(Round(atan(1.0), 0))
    ensures GetAzimuth(atan, 0.0, 0.0, 10.0, 10.0, 50.0, 100.0, r) == Returns(Round(180.0 + atan(1.0), r))
  {
    assert atan(0.0 / 10.0) == 0.0;
    assert 10.0 / 10.0 == 1.0;
    assert atan(1.0) > 0.0;
  }
}
