/**
 * Dimensions and free spaces as values, with the fit tests the packer uses.
 *
 * `Dimension`, `Space` and the rotation primitives of `Box` live in files that
 * are not part of this model; what is here is the least the packer relies on:
 * component-wise fit tests, squareness tests, and rotations that permute the
 * three extents.
 */
module Shapes {

  datatype Dimension = Dimension(width: int, depth: int, height: int)

  /** A free cuboid of a container, anchored at (x, y, z). */
  datatype Space = Space(width: int, depth: int, height: int, x: int, y: int, z: int)
  {
    function Dim(): Dimension
    {
      Dimension(width, depth, height)
    }
  }

  /** The extents as they are now, without turning: footprint and height within the target. */
  predicate FitsInside3D(d: Dimension, target: Dimension)
  {
    d.width <= target.width && d.depth <= target.depth && d.height <= target.height
  }

  /** The footprint as it is now, without turning, within the target's footprint. */
  predicate FitsInside2D(d: Dimension, target: Dimension)
  {
    d.width <= target.width && d.depth <= target.depth
  }

  predicate IsSquare2D(d: Dimension)
  {
    d.width == d.depth
  }

  predicate IsSquare3D(d: Dimension)
  {
    d.width == d.depth && d.width == d.height
  }

  /** The three extents, regardless of which axis carries which. */
  function Extents(d: Dimension): multiset<int>
  {
    multiset{d.width, d.depth, d.height}
  }

  /** The rotation primitives of a box. */
  datatype Turn = TwoD | ThreeD | TwoDThreeD

  /**
   * The extents after a turn: `TwoD` swaps width and depth; `ThreeD` swaps
   * height with the width; `TwoDThreeD` moves every extent one axis along.
   */
  function Turned(d: Dimension, turn: Turn): (r: Dimension)
    ensures Extents(r) == Extents(d)
    ensures IsSquare3D(r) <==> IsSquare3D(d)
  {
    match turn
    case TwoD => Dimension(d.depth, d.width, d.height)
    case ThreeD => Dimension(d.height, d.depth, d.width)
    case TwoDThreeD => Dimension(d.height, d.width, d.depth)
  }

  /**
   * What the squareness tests of the rotation loop rely on: turning a square
   * footprint in the plane changes nothing, and for such a footprint the
   * quarter turn about the depth axis gives what the three-way turn gives; a
   * cube is left as it is by every turn, and only a cube is.
   */
  lemma SquareShortcuts(d: Dimension)
    ensures IsSquare2D(d) <==> Turned(d, TwoD) == d
    ensures IsSquare2D(d) <==> Turned(d, ThreeD) == Turned(d, TwoDThreeD)
    ensures IsSquare3D(d) <==> forall turn :: Turned(d, turn) == d
  {
    if forall turn :: Turned(d, turn) == d {
      assert Turned(d, ThreeD) == d;
    }
  }

  /** The six axis-aligned orientations of a box. */
  function Orientations(d: Dimension): seq<Dimension>
  {
    [ Dimension(d.width, d.depth, d.height), Dimension(d.depth, d.width, d.height),
      Dimension(d.width, d.height, d.depth), Dimension(d.height, d.width, d.depth),
      Dimension(d.depth, d.height, d.width), Dimension(d.height, d.depth, d.width) ]
  }

  /** Some orientation of the box fits the target. */
  predicate CanFitInside3D(d: Dimension, target: Dimension)
  {
    exists o :: o in Orientations(d) && FitsInside3D(o, target)
  }

  /** Turning only about the vertical axis, the box fits the target. */
  predicate CanFitInside2D(d: Dimension, target: Dimension)
  {
    d.height <= target.height
    && (FitsInside2D(d, target) || FitsInside2D(Dimension(d.depth, d.width, d.height), target))
  }

  /** The upfront filter of `pack`: one test or the other, as three-dimensional turning is enabled. */
  predicate CanFit(d: Dimension, target: Dimension, rotate3D: bool)
  {
    if rotate3D then CanFitInside3D(d, target) else CanFitInside2D(d, target)
  }

  /**
   * The upfront filter only ever rejects boxes that fit in no orientation the
   * search could reach: a box that fits as it stands passes it, and turning a
   * box never changes its verdict.
   */
  lemma CanFitIsOrientationFree(d: Dimension, target: Dimension, turn: Turn)
    ensures FitsInside3D(d, target) ==> CanFit(d, target, true) && CanFit(d, target, false)
    ensures CanFitInside3D(Turned(d, turn), target) <==> CanFitInside3D(d, target)
    ensures turn == TwoD ==> (CanFitInside2D(Turned(d, turn), target) <==> CanFitInside2D(d, target))
  {
    var r := Turned(d, turn);
    if FitsInside3D(d, target) {
      assert d in Orientations(d);
    }
    forall o | o in Orientations(d) ensures o in Orientations(r) { }
    forall o | o in Orientations(r) ensures o in Orientations(d) { }
  }
}
