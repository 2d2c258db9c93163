/** Bounding rectangles in client coordinates (y grows downwards, as in a
    DOMRect) and the forgiving collision test between the player and one
    obstacle. */
module Geometry {

  /** The forgiveness margin: the obstacle's box is shrunk by this much on
      every side before it is compared with the player's box. */
  const MARGIN: real := 10.0

  datatype Rect = Rect(left: real, top: real, right: real, bottom: real)

  /** The open interior of a rectangle contains the point (x, y). */
  predicate Inside(r: Rect, x: real, y: real)
  {
    r.left < x < r.right && r.top < y < r.bottom
  }

  /** The rectangle moved inwards by m on every side. */
  function Shrunk(r: Rect, m: real): (s: Rect)
    ensures s.right - s.left == r.right - r.left - 2.0 * m
    ensures s.bottom - s.top == r.bottom - r.top - 2.0 * m
  {
    Rect(r.left + m, r.top + m, r.right - m, r.bottom - m)
  }

  /** The collision test of one obstacle tick: the player's extent meets
      the obstacle's extent shrunk by MARGIN, on both axes. */
  predicate Hits(player: Rect, obstacle: Rect)
    ensures player.right <= obstacle.left + MARGIN ==> !Hits(player, obstacle)
    ensures player.left >= obstacle.right - MARGIN ==> !Hits(player, obstacle)
    ensures player.bottom <= obstacle.top + MARGIN ==> !Hits(player, obstacle)
    ensures player.top >= obstacle.bottom - MARGIN ==> !Hits(player, obstacle)
  {
    player.right > obstacle.left + MARGIN &&
    player.left < obstacle.right - MARGIN &&
    player.bottom > obstacle.top + MARGIN &&
    player.top < obstacle.bottom - MARGIN
  }

  function Max(a: real, b: real): (m: real)
  {
    if a < b then b else a
  }

  function Min(a: real, b: real): (m: real)
  {
    if a < b then a else b
  }

  /** For a player box of positive size and an obstacle wider and taller
      than two margins, the test reports a hit exactly when the interior of
      the player's box and the interior of the shrunk obstacle share a
      point. */
  lemma HitsIffInteriorsMeet(player: Rect, obstacle: Rect)
    requires player.left < player.right && player.top < player.bottom
    requires obstacle.right - obstacle.left > 2.0 * MARGIN
    requires obstacle.bottom - obstacle.top > 2.0 * MARGIN
    ensures Hits(player, obstacle) <==>
      exists x, y :: Inside(player, x, y) && Inside(Shrunk(obstacle, MARGIN), x, y)
  {
    var s := Shrunk(obstacle, MARGIN);
    if Hits(player, obstacle) {
      var x := (Max(player.left, s.left) + Min(player.right, s.right)) / 2.0;
      var y := (Max(player.top, s.top) + Min(player.bottom, s.bottom)) / 2.0;
      assert Inside(player, x, y) && Inside(s, x, y);
    }
    if exists x, y :: Inside(player, x, y) && Inside(s, x, y) {
      var x, y :| Inside(player, x, y) && Inside(s, x, y);
      assert Hits(player, obstacle);
    }
  }
}
