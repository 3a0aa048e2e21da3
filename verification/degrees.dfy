/**
  * Compass points for a bearing in degrees (mtg/geo/degrees.py).
  *
  * The bearing is a Python float; every threshold in the source is a multiple
  * of 0.25 and therefore exact, so the model compares `real`s.
  */
module Degrees {

  /** The sixteen points of the compass, clockwise from north. */
  const Points: seq<string> :=
    ["N", "NNE", "NE", "ENE", "E", "ESE", "SE", "SSE",
     "S", "SSW", "SW", "WSW", "W", "WNW", "NW", "NNW"]

  /** `deg_to_cardinal(deg)`: the sector tests in the order the source makes them. */
  function DegToCardinal(deg: real): (r: string)
    ensures r == "UNK" <==> deg < 0.0 || deg > 360.0
    ensures r != "UNK" ==> r in Points
  {
    if deg > 348.75 && deg <= 360.0 then "N"
    else if deg >= 0.0 && deg <= 11.25 then "N"
    else if deg > 11.25 && deg <= 33.75 then "NNE"
    else if deg > 33.75 && deg <= 56.25 then "NE"
    else if deg > 56.25 && deg <= 78.75 then "ENE"
    else if deg > 78.75 && deg <= 101.25 then "E"
    else if deg > 101.25 && deg <= 123.75 then "ESE"
    else if deg > 123.75 && deg <= 146.25 then "SE"
    else if deg > 146.25 && deg <= 168.75 then "SSE"
    else if deg > 168.75 && deg <= 191.25 then "S"
    else if deg > 191.25 && deg <= 213.75 then "SSW"
    else if deg > 213.75 && deg <= 236.25 then "SW"
    else if deg > 236.25 && deg <= 258.75 then "WSW"
    else if deg > 258.75 && deg <= 281.25 then "W"
    else if deg > 281.25 && deg <= 303.75 then "WNW"
    else if deg > 303.75 && deg <= 326.25 then "NW"
    else if deg > 326.25 && deg <= 348.75 then "NNW"
    else "UNK"
  }

  /** The reference definition: the point whose 22.5-degree sector, centred on it and
      closed at its clockwise end, holds the bearing; sector 16 is north again. */
  function Sector(deg: real): (k: int)
    requires 0.0 <= deg <= 360.0
    ensures 0 <= k < 16
  {
    var x := (deg - 11.25) / 22.5;
    var c := -((-x).Floor);
    if c == 16 then 0 else c
  }

  /** The reference sector, unwrapped: bearings in (22.5k - 11.25, 22.5k + 11.25]
      have k = 0..16. */
  lemma SectorBounds(deg: real)
    requires 0.0 <= deg <= 360.0
    ensures var x := (deg - 11.25) / 22.5; var c := -((-x).Floor);
      && 0 <= c <= 16 && Sector(deg) == c % 16
      && 22.5 * c as real - 11.25 < deg <= 22.5 * c as real + 11.25
  {
    var x := (deg - 11.25) / 22.5;
    var c := -((-x).Floor);
    assert (c - 1) as real < x <= c as real;
    assert deg == x * 22.5 + 11.25;
  }

  /** Each sector is open at its counter-clockwise end and closed at its clockwise
      end: a bearing in (22.5k - 11.25, 22.5k + 11.25] maps to point k, and the
      sector of k = 16 (up to 360) is north again. */
  lemma SectorOf(deg: real, k: int)
    requires 0.0 <= deg <= 360.0 && 0 <= k <= 16
    requires 22.5 * k as real - 11.25 < deg <= 22.5 * k as real + 11.25
    ensures DegToCardinal(deg) == Points[k % 16]
  {
    match k
      case 0 => assert Points[0] == "N";
      case 1 => assert Points[1] == "NNE";
      case 2 => assert Points[2] == "NE";
      case 3 => assert Points[3] == "ENE";
      case 4 => assert Points[4] == "E";
      case 5 => assert Points[5] == "ESE";
      case 6 => assert Points[6] == "SE";
      case 7 => assert Points[7] == "SSE";
      case 8 => assert Points[8] == "S";
      case 9 => assert Points[9] == "SSW";
      case 10 => assert Points[10] == "SW";
      case 11 => assert Points[11] == "WSW";
      case 12 => assert Points[12] == "W";
      case 13 => assert Points[13] == "WNW";
      case 14 => assert Points[14] == "NW";
      case 15 => assert Points[15] == "NNW";
      case 16 => assert Points[0] == "N";
  }

  /** Inside 0..360 the chain of tests agrees with the reference sector. */
  lemma CardinalMatchesSector(deg: real)
    requires 0.0 <= deg <= 360.0
    ensures DegToCardinal(deg) == Points[Sector(deg)]
  {
    SectorBounds(deg);
    var c := -((-((deg - 11.25) / 22.5)).Floor);
    SectorOf(deg, c);
  }

  /** The exact bearing of each point maps to that point. */
  lemma CardinalOfPoint(k: nat)
    requires k < 16
    ensures DegToCardinal(22.5 * k as real) == Points[k]
  {
    SectorOf(22.5 * k as real, k);
  }

  /** Both ends of the scale are north, and a boundary belongs to the sector below it. */
  lemma Boundaries()
    ensures DegToCardinal(0.0) == "N" && DegToCardinal(360.0) == "N"
    ensures DegToCardinal(11.25) == "N" && DegToCardinal(33.75) == "NNE" && DegToCardinal(348.75) == "NNW"
    ensures DegToCardinal(11.26) == "NNE" && DegToCardinal(348.76) == "N"
  {
    SectorOf(0.0, 0);
    SectorOf(360.0, 16);
    SectorOf(11.25, 0);
    SectorOf(33.75, 1);
    SectorOf(348.75, 15);
  }
}
