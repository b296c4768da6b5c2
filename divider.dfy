/**
 * The split ratio between the editor pane and the console pane
 * (app/page.tsx:13, 136-149, 212).
 *
 * The ratio is a percentage of the container's extent along the split
 * axis. A drag frame turns the pointer position into a candidate ratio and
 * keeps it only when it lies strictly between 20 and 80; a double-click
 * puts the divider back at 50.
 */
module Divider {

  const Midpoint: real := 50.0

  /** The candidate band a drag may commit to: 20 and 80 themselves are
      excluded. */
  predicate InBand(r: real) {
    20.0 < r < 80.0
  }

  /** The values the split ratio can ever hold: the initial 50, named on
      its own although it lies inside the band, and whatever a drag commits. */
  predicate Admissible(pos: real) {
    pos == Midpoint || InBand(pos)
  }

  /** The container as the drag frame reads it: not attached yet, or its
      box in client coordinates. */
  datatype Container = Unattached | Box(left: real, top: real, width: real, height: real)

  predicate HasExtent(c: Container) {
    c.Box? ==> c.width > 0.0 && c.height > 0.0
  }

  /** `(coord - origin) / extent * 100` (app/page.tsx:139-141). */
  function PointerRatio(coord: real, origin: real, extent: real): (r: real)
    requires extent > 0.0
    ensures origin + r * extent / 100.0 == coord
  {
    (coord - origin) / extent * 100.0
  }

  /** The ratio after a drag frame on one axis (app/page.tsx:143-144). */
  function NextRatio(current: real, coord: real, origin: real, extent: real): (r: real)
    requires extent > 0.0
    ensures 20.0 * extent < (coord - origin) * 100.0 < 80.0 * extent ==>
              origin + r * extent / 100.0 == coord
    ensures !(20.0 * extent < (coord - origin) * 100.0 < 80.0 * extent) ==>
              r == current
    ensures Admissible(current) ==> Admissible(r)
  {
    var candidate := PointerRatio(coord, origin, extent);
    BandInPixels(coord, origin, extent);
    if InBand(candidate) then candidate else current
  }

  /** The candidate is inside the band exactly when the pointer lies
      strictly between 20% and 80% of the extent past the origin. */
  lemma BandInPixels(coord: real, origin: real, extent: real)
    requires extent > 0.0
    ensures InBand(PointerRatio(coord, origin, extent))
            <==> 20.0 * extent < (coord - origin) * 100.0 < 80.0 * extent
  {
  }

  /** The axis a drag reads: vertical on a narrow viewport, horizontal
      otherwise (app/page.tsx:138-141). A frame that finds no container
      leaves the ratio alone (app/page.tsx:137). */
  function DragResult(current: real, clientX: real, clientY: real, mobile: bool, c: Container): (r: real)
    requires HasExtent(c)
    ensures c.Unattached? ==> r == current
    ensures c.Box? && mobile ==> r == NextRatio(current, clientY, c.top, c.height)
    ensures c.Box? && !mobile ==> r == NextRatio(current, clientX, c.left, c.width)
    ensures Admissible(current) ==> Admissible(r)
  {
    match c
    case Unattached => current
    case Box(left, top, width, height) =>
      if mobile then NextRatio(current, clientY, top, height)
      else NextRatio(current, clientX, left, width)
  }

  /** Whether that frame commits a new ratio (and so asks the editor to
      lay itself out again, app/page.tsx:143-147): only with a container,
      and only when the pointer lies strictly between 20% and 80% of its
      extent on the axis the orientation picks. */
  predicate DragCommits(clientX: real, clientY: real, mobile: bool, c: Container): (r: bool)
    requires HasExtent(c)
    ensures r ==> c.Box?
    ensures c.Box? && mobile ==>
              (r <==> 20.0 * c.height < (clientY - c.top) * 100.0 < 80.0 * c.height)
    ensures c.Box? && !mobile ==>
              (r <==> 20.0 * c.width < (clientX - c.left) * 100.0 < 80.0 * c.width)
  {
    match c
    case Unattached => false
    case Box(left, top, width, height) =>
      if mobile then
        BandInPixels(clientY, top, height);
        InBand(PointerRatio(clientY, top, height))
      else
        BandInPixels(clientX, left, width);
        InBand(PointerRatio(clientX, left, width))
  }

  /** A pointer exactly at 20% or 80% of the extent is rejected. */
  lemma BoundsAreExclusive(current: real, origin: real, extent: real)
    requires extent > 0.0
    ensures NextRatio(current, origin + extent / 5.0, origin, extent) == current
    ensures NextRatio(current, origin + extent * 4.0 / 5.0, origin, extent) == current
  {
  }
}
