/**
 * The objects the packer works on: boxes that are turned in place, placements,
 * and the container that collects placements level by level. The classes
 * `Box`, `Container`, `Placement` and `Space`, and `getFreespaces` of the
 * `Packager` superclass, are not part of this model; what is here is the least
 * the packer relies on.
 */
module Cargo {
  import opened Wrappers
  import opened Shapes

  /** A box whose orientation is changed in place by its rotation primitives. */
  class Box {
    var width: int
    var depth: int
    var height: int

    function Dim(): Dimension
      reads this
    {
      Dimension(width, depth, height)
    }

    predicate IsSquare2D()
      reads this
    {
      Shapes.IsSquare2D(Dim())
    }

    predicate IsSquare3D()
      reads this
    {
      Shapes.IsSquare3D(Dim())
    }

    method Rotate2D()
      modifies this
      ensures Dim() == Turned(old(Dim()), TwoD)
    {
      width, depth := depth, width;
    }

    method Rotate3D()
      modifies this
      ensures Dim() == Turned(old(Dim()), ThreeD)
    {
      width, height := height, width;
    }

    method Rotate2D3D()
      modifies this
      ensures Dim() == Turned(old(Dim()), TwoDThreeD)
    {
      width, depth, height := height, width, depth;
    }
  }

  /** The current extents of each box. */
  function Dims(boxes: seq<Box>): (r: seq<Dimension>)
    reads boxes
    ensures |r| == |boxes| && forall k :: 0 <= k < |boxes| ==> r[k] == boxes[k].Dim()
  {
    if boxes == [] then [] else [boxes[0].Dim()] + Dims(boxes[1..])
  }

  /** A box bound to the space it occupies. */
  datatype Placement = Placement(space: Space, box: Box)

  /** The boxes of a run of placements, in order. */
  function BoxesOf(ps: seq<Placement>): (r: seq<Box>)
    ensures |r| == |ps|
  {
    if ps == [] then [] else [ps[0].box] + BoxesOf(ps[1..])
  }

  lemma {:induction false} BoxesOfIndex(ps: seq<Placement>, k: nat)
    requires k < |ps|
    ensures BoxesOf(ps)[k] == ps[k].box
  {
    if k > 0 {
      BoxesOfIndex(ps[1..], k - 1);
    }
  }

  lemma {:induction false} BoxesOfAppend(a: seq<Placement>, b: seq<Placement>)
    ensures BoxesOf(a + b) == BoxesOf(a) + BoxesOf(b)
  {
    if a == [] {
      assert a + b == b;
    } else {
      BoxesOfAppend(a[1..], b);
      assert (a + b)[1..] == a[1..] + b;
      var h := [a[0].box];
      calc {
        BoxesOf(a + b);
        h + BoxesOf(a[1..] + b);
        h + (BoxesOf(a[1..]) + BoxesOf(b));
        (h + BoxesOf(a[1..])) + BoxesOf(b);
      }
    }
  }

  /** Every placement of every level, level after level. */
  function Flatten(levels: seq<seq<Placement>>): seq<Placement>
  {
    if levels == [] then [] else Flatten(levels[..|levels| - 1]) + levels[|levels| - 1]
  }

  function Sum(s: seq<int>): int
  {
    if s == [] then 0 else Sum(s[..|s| - 1]) + s[|s| - 1]
  }

  /**
   * The container being filled: one list of placements per level, and the
   * height of each level, which is that of the tallest box placed in it.
   */
  class Container {
    const dimension: Dimension
    var levels: seq<seq<Placement>>
    var levelHeights: seq<int>

    ghost predicate Valid()
      reads this
    {
      |levels| == |levelHeights|
    }

    constructor (dimension: Dimension)
      ensures Valid() && this.dimension == dimension && levels == []
    {
      this.dimension := dimension;
      levels, levelHeights := [], [];
    }

    /** The height the levels stack up to. */
    function StackHeight(): int
      reads this
    {
      Sum(levelHeights)
    }

    /** The full footprint above the stacked levels. */
    function RemainingFreeSpace(): Dimension
      reads this
    {
      Dimension(dimension.width, dimension.depth, dimension.height - StackHeight())
    }

    method Clear()
      modifies this
      ensures Valid() && levels == [] && StackHeight() == 0
    {
      levels, levelHeights := [], [];
    }

    /** Open a new, empty level on top of the others. */
    method AddLevel()
      requires Valid()
      modifies this
      ensures Valid() && levels == old(levels) + [[]] && levelHeights == old(levelHeights) + [0]
      ensures StackHeight() == old(StackHeight())
    {
      levels, levelHeights := levels + [[]], levelHeights + [0];
      assert levelHeights[..|levelHeights| - 1] == old(levelHeights);
    }

    /** Add a placement to the current level. */
    method Add(p: Placement)
      requires Valid() && levels != []
      modifies this
      ensures Valid() && |levels| == |old(levels)|
      ensures levels == old(levels[..|levels| - 1]) + [old(levels[|levels| - 1]) + [p]]
      ensures levelHeights[..|levels| - 1] == old(levelHeights[..|levels| - 1])
      ensures levelHeights[|levels| - 1] == Max(old(levelHeights[|levels| - 1]), p.box.height)
    {
      var n := |levels| - 1;
      levels := levels[..n] + [levels[n] + [p]];
      levelHeights := levelHeights[..n] + [Max(levelHeights[n], p.box.height)];
    }
  }

  function Max(a: int, b: int): int
  {
    if a < b then b else a
  }

  /**
   * The space-splitting collaborators: `freeSpaces` is `getFreespaces` of the
   * `Packager` superclass (the up to two sibling spaces left when a box of the
   * given extents is placed in a space), `remainder` is `Space.getRemainder` and
   * `isEmpty` is `Space.isEmpty`. Their geometry is not part of this model.
   */
  datatype Splitter = Splitter(
    freeSpaces: (Space, Dimension) -> seq<Option<Space>>,
    remainder: Space -> Space,
    isEmpty: Space -> bool)

  /** The box fits, as it stands, a space that is present. */
  predicate Admits(d: Dimension, space: Option<Space>)
  {
    space.Some? && FitsInside3D(d, space.value.Dim())
  }

  /** Space k is the first, in order, that admits the box. */
  predicate FirstAdmitting(d: Dimension, spaces: seq<Option<Space>>, k: int)
  {
    0 <= k < |spaces| && Admits(d, spaces[k]) && forall j :: 0 <= j < k ==> !Admits(d, spaces[j])
  }

  /** The first present space, in order, that admits a box of extents `d` as it stands. */
  function FirstSpace(d: Dimension, spaces: seq<Option<Space>>): (r: Option<Space>)
    ensures r.None? <==> forall k :: 0 <= k < |spaces| ==> !Admits(d, spaces[k])
    ensures r.Some? ==> exists k :: FirstAdmitting(d, spaces, k) && spaces[k] == Some(r.value)
  {
    if spaces == [] then None
    else if Admits(d, spaces[0]) then spaces[0]
    else
      var r := FirstSpace(d, spaces[1..]);
      assert forall k :: 1 <= k < |spaces| ==> spaces[k] == spaces[1..][k - 1];
      r
  }

  /**
   * `firstSpacePlacement`: the box placed in the first present space, in order,
   * that it fits as it stands; None when no such space exists.
   */
  function FirstSpacePlacement(box: Box, spaces: seq<Option<Space>>): (r: Option<Placement>)
    reads box
    ensures r.None? <==> forall k :: 0 <= k < |spaces| ==> !Admits(box.Dim(), spaces[k])
    ensures r.Some? ==> r.value.box == box
    ensures r.Some? ==> exists k :: FirstAdmitting(box.Dim(), spaces, k) && spaces[k] == Some(r.value.space)
  {
    match FirstSpace(box.Dim(), spaces)
    case None => None
    case Some(space) => Some(Placement(space, box))
  }
}
