/** The three-way dead-zone test that every script applies to a target
    centre: below the band, inside it (boundaries included), or above it. */
module DeadZone {

  /** `Below` is left (for x) or up (for y); `Above` is right or down. */
  datatype Zone = Below | Inside | Above

  function ZoneOf(v: int, centre: int, threshold: int): Zone {
    if v < centre - threshold then Below
    else if v > centre + threshold then Above
    else Inside
  }

  function Rank(z: Zone): int {
    match z
    case Below => 0
    case Inside => 1
    case Above => 2
  }

  function Mirror(z: Zone): Zone {
    match z
    case Below => Above
    case Inside => Inside
    case Above => Below
  }

  /** Both edges of the band and the centre itself fall inside the dead zone. */
  lemma BoundariesInside(centre: int, threshold: int, d: int)
    requires 0 <= d <= threshold
    ensures ZoneOf(centre - d, centre, threshold) == Inside
    ensures ZoneOf(centre + d, centre, threshold) == Inside
    ensures ZoneOf(centre, centre, threshold) == Inside
  {
  }

  /** Moving the target further right (or down) never moves its zone back. */
  lemma Monotone(v1: int, v2: int, centre: int, threshold: int)
    requires v1 <= v2
    ensures Rank(ZoneOf(v1, centre, threshold)) <= Rank(ZoneOf(v2, centre, threshold))
  {
  }

  /** The band is symmetric: a point `d` past the centre on one side gets the
      mirrored zone of the point `d` before it. */
  lemma Symmetric(centre: int, threshold: int, d: int)
    requires threshold >= 0
    ensures ZoneOf(centre + d, centre, threshold) == Mirror(ZoneOf(centre - d, centre, threshold))
  {
  }
}
