/** The nine named regions of the 10000 x 10000 world that label where the
    local player is.  Each is a half-open rectangle
    [x, x + width) x [y, y + height). */
module Regions {
  import opened Js

  datatype Region = Region(x: real, y: real, width: real, height: real, color: string, name: string)

  const MapRegions: seq<Region> := [
    Region(0.0,    0.0,    3333.0, 3333.0, "#f0f8ff", "North West"),
    Region(3333.0, 0.0,    3334.0, 3333.0, "#f0fff0", "North"),
    Region(6667.0, 0.0,    3333.0, 3333.0, "#fff0f8", "North East"),
    Region(0.0,    3333.0, 3333.0, 3334.0, "#fffff0", "West"),
    Region(3333.0, 3333.0, 3334.0, 3334.0, "#f8f8f8", "Center"),
    Region(6667.0, 3333.0, 3333.0, 3334.0, "#f0f0ff", "East"),
    Region(0.0,    6667.0, 3333.0, 3333.0, "#fff8f0", "South West"),
    Region(3333.0, 6667.0, 3334.0, 3333.0, "#f0ffff", "South"),
    Region(6667.0, 6667.0, 3333.0, 3333.0, "#f8f0ff", "South East")
  ]

  const Side: real := 10000.0

  predicate Contains(r: Region, px: real, py: real)
  {
    r.x <= px < r.x + r.width && r.y <= py < r.y + r.height
  }

  /** The column and row bands: [0, 3333), [3333, 6667), [6667, 10000). */
  function Band(c: real): nat
    requires 0.0 <= c < Side
  {
    if c < 3333.0 then 0 else if c < 6667.0 then 1 else 2
  }

  /** Region `i` is the one in row `i / 3` and column `i % 3`. */
  lemma ContainsByBands(i: nat, px: real, py: real)
    requires i < |MapRegions|
    requires 0.0 <= px < Side && 0.0 <= py < Side
    ensures Contains(MapRegions[i], px, py) <==> i == 3 * Band(py) + Band(px)
  {
  }

  /** Every point of the world lies in exactly one region. */
  lemma RegionsTileWorld(px: real, py: real)
    requires 0.0 <= px < Side && 0.0 <= py < Side
    ensures var i := 3 * Band(py) + Band(px);
      && i < |MapRegions| && Contains(MapRegions[i], px, py)
      && forall j :: 0 <= j < |MapRegions| && Contains(MapRegions[j], px, py) ==> j == i
  {
    forall j | 0 <= j < |MapRegions|
      ensures Contains(MapRegions[j], px, py) <==> j == 3 * Band(py) + Band(px)
    {
      ContainsByBands(j, px, py);
    }
  }

  /** No point outside the world is in any region. */
  lemma OutsideWorldInNoRegion(px: real, py: real, j: nat)
    requires !(0.0 <= px < Side && 0.0 <= py < Side)
    requires j < |MapRegions|
    ensures !Contains(MapRegions[j], px, py)
  {
  }

  lemma NamesDistinct(i: nat, j: nat)
    requires i < j < |MapRegions|
    ensures MapRegions[i].name != MapRegions[j].name
  {
  }

  /** The `for (const region of MAP_REGIONS)` scan of `checkPlayerRegion`: the
      first region containing the point, if any. */
  method RegionAt(px: real, py: real) returns (found: Option<Region>)
    ensures found.Some? ==> found.value in MapRegions && Contains(found.value, px, py)
    ensures found.None? <==> forall j :: 0 <= j < |MapRegions| ==> !Contains(MapRegions[j], px, py)
    ensures 0.0 <= px < Side && 0.0 <= py < Side ==>
              found == Some(MapRegions[3 * Band(py) + Band(px)])
  {
    for i := 0 to |MapRegions|
      invariant forall j :: 0 <= j < i ==> !Contains(MapRegions[j], px, py)
    {
      var region := MapRegions[i];
      if Contains(region, px, py) {
        if 0.0 <= px < Side && 0.0 <= py < Side {
          RegionsTileWorld(px, py);
        }
        return Some(region);
      }
    }
    if 0.0 <= px < Side && 0.0 <= py < Side {
      RegionsTileWorld(px, py);
    }
    return None;
  }
}
