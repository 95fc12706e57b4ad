/**
 * The brute-force single-container packer: for every given permutation of the
 * boxes and every rotation combination reachable by the pruned odometer, try
 * to stack the boxes level by level, each level filled by the recursive
 * shelf-fit; the first attempt that places every box wins.
 */
module BruteForce {
  import opened Wrappers
  import opened Shapes
  import opened Odometer
  import opened Pruning
  import opened Cargo

  /**
   * What `pack` ends with: the filled container, null, or the
   * IndexOutOfBoundsException that fit2D's unchecked `get(0)` throws.
   */
  datatype PackResult = Packed(container: Container) | NoFit | IndexOutOfBounds

  /** What one attempt (the `fit` block of `pack`) ends with. */
  datatype Attempt = Filled | Failed | OutOfBounds

  /** What `fit2D` adds to the current level, where it leaves the work list, and whether it ran to the end. */
  datatype Filling = Filling(added: seq<Placement>, next: nat, ok: bool)

  /** Every box passes the upfront filter of `pack`. */
  predicate AllCanFit(boxes: seq<Box>, containerBox: Dimension, rotate3D: bool)
    reads boxes
  {
    forall k :: 0 <= k < |boxes| ==> CanFit(boxes[k].Dim(), containerBox, rotate3D)
  }

  /** Every box, as it stands, fits the container. */
  predicate AllFit(boxes: seq<Box>, containerBox: Dimension)
    reads boxes
  {
    forall k :: 0 <= k < |boxes| ==> FitsInside3D(boxes[k].Dim(), containerBox)
  }

  /**
   * The extents of the boxes of an attempt, recorded once: no box is turned
   * while an attempt runs, so what is placed and where depends on these alone.
   */
  ghost function SizesOf(boxes: seq<Box>): (sizes: map<Box, Dimension>)
    reads boxes
    ensures Sized(boxes, sizes)
  {
    map b | b in boxes :: b.Dim()
  }

  /** The record holds the current extents of every box. */
  ghost predicate Sized(boxes: seq<Box>, sizes: map<Box, Dimension>)
    reads boxes
  {
    forall k :: 0 <= k < |boxes| ==> boxes[k] in sizes && sizes[boxes[k]] == boxes[k].Dim()
  }

  /** The record has an entry for every box. */
  predicate Covers(sizes: map<Box, Dimension>, boxes: seq<Box>)
  {
    forall k :: 0 <= k < |boxes| ==> boxes[k] in sizes
  }

  /** The box, with its recorded extents, fits the space it is placed in. */
  predicate Fits(p: Placement, sizes: map<Box, Dimension>)
  {
    p.box in sizes && FitsInside3D(sizes[p.box], p.space.Dim())
  }

  /** Every placement's box has recorded extents. */
  predicate Recorded(ps: seq<Placement>, sizes: map<Box, Dimension>)
  {
    forall k :: 0 <= k < |ps| ==> ps[k].box in sizes
  }

  /**
   * The height of a level that stood at `h`, once the placements `ps` are
   * added to it in order: `Container.add` raises it to each box's height
   * that is taller. It is the tallest of `h` and the boxes' heights.
   */
  function Tallest(h: int, ps: seq<Placement>, sizes: map<Box, Dimension>): (r: int)
    requires Recorded(ps, sizes)
    decreases |ps|
    ensures h <= r && forall k :: 0 <= k < |ps| ==> sizes[ps[k].box].height <= r
  {
    if ps == [] then h else Tallest(Max(h, sizes[ps[0].box].height), ps[1..], sizes)
  }

  /** The height reached is the starting one or that of a box placed. */
  lemma {:induction false} TallestAttained(h: int, ps: seq<Placement>, sizes: map<Box, Dimension>)
    requires Recorded(ps, sizes)
    ensures var r := Tallest(h, ps, sizes);
      r == h || exists k :: 0 <= k < |ps| && r == sizes[ps[k].box].height
    decreases |ps|
  {
    if ps != [] {
      var h' := Max(h, sizes[ps[0].box].height);
      TallestAttained(h', ps[1..], sizes);
      var r := Tallest(h', ps[1..], sizes);
      if r != h' {
        var k :| 0 <= k < |ps[1..]| && r == sizes[ps[1..][k].box].height;
        assert ps[1..][k] == ps[k + 1];
      }
    }
  }

  lemma TallestCons(h: int, p: Placement, ps: seq<Placement>, sizes: map<Box, Dimension>)
    requires p.box in sizes && Recorded(ps, sizes)
    ensures Recorded([p] + ps, sizes)
    ensures Tallest(h, [p] + ps, sizes) == Tallest(Max(h, sizes[p.box].height), ps, sizes)
  {
    assert ([p] + ps)[1..] == ps;
  }

  /** Adding two runs of placements one after the other. */
  lemma {:induction false} TallestAppend(h: int, a: seq<Placement>, b: seq<Placement>, sizes: map<Box, Dimension>)
    requires Recorded(a, sizes) && Recorded(b, sizes)
    ensures Recorded(a + b, sizes)
    ensures Tallest(h, a + b, sizes) == Tallest(Tallest(h, a, sizes), b, sizes)
    decreases |a|
  {
    RecordedAppend(a, b, sizes);
    if a == [] {
      assert a + b == b;
    } else {
      var h' := Max(h, sizes[a[0].box].height);
      TallestAppend(h', a[1..], b, sizes);
      assert (a + b)[0] == a[0] && (a + b)[1..] == a[1..] + b;
      assert Tallest(h, a + b, sizes) == Tallest(h', a[1..] + b, sizes);
    }
  }

  lemma RecordedAppend(a: seq<Placement>, b: seq<Placement>, sizes: map<Box, Dimension>)
    requires Recorded(a, sizes) && Recorded(b, sizes)
    ensures Recorded(a + b, sizes)
  {
    forall k | 0 <= k < |a + b| ensures (a + b)[k].box in sizes {
      if k >= |a| {
        assert (a + b)[k] == b[k - |a|];
      }
    }
  }

  /** Two records that agree on the boxes placed give the same height. */
  lemma {:induction false} TallestResized(h: int, ps: seq<Placement>, sizes: map<Box, Dimension>,
                                          sizes': map<Box, Dimension>)
    requires Recorded(ps, sizes)
    requires forall k :: 0 <= k < |ps| ==> ps[k].box in sizes' && sizes'[ps[k].box] == sizes[ps[k].box]
    ensures Recorded(ps, sizes') && Tallest(h, ps, sizes') == Tallest(h, ps, sizes)
    decreases |ps|
  {
    if ps != [] {
      TallestResized(Max(h, sizes[ps[0].box].height), ps[1..], sizes, sizes');
    }
  }

  /**
   * The seed placement of a level: anchored at (0, 0, z), spanning the
   * container's footprint with the seed box's height, and the seed box fits
   * the free space above height z.
   */
  predicate SeedsLevel(p: Placement, containerBox: Dimension, z: int, sizes: map<Box, Dimension>)
  {
    p.box in sizes
    && p.space == Space(containerBox.width, containerBox.depth, sizes[p.box].height, 0, 0, z)
    && FitsInside3D(sizes[p.box], Dimension(containerBox.width, containerBox.depth, containerBox.height - z))
  }

  /**
   * Levels (with their heights) as a container holds them: each level opened by
   * a seed placement at the height the levels below it stack up to, every
   * other placement a box of `boxes` that fits its space, and each level as
   * high as the tallest box placed in it.
   */
  predicate Stacked(levels: seq<seq<Placement>>, heights: seq<int>, containerBox: Dimension, boxes: seq<Box>,
                    sizes: map<Box, Dimension>)
  {
    |levels| == |heights|
    && (forall i :: 0 <= i < |levels| ==>
          levels[i] != [] && levels[i][0].box in boxes
          && SeedsLevel(levels[i][0], containerBox, Sum(heights[..i]), sizes))
    && (forall i, k :: 0 <= i < |levels| && 0 < k < |levels[i]| ==>
          levels[i][k].box in boxes && Fits(levels[i][k], sizes))
    && (forall i :: 0 <= i < |levels| ==>
          Recorded(levels[i], sizes) && heights[i] == Tallest(0, levels[i], sizes))
  }

  /**
   * A successful attempt with `permutation`: every box of it fits the container
   * as it stands, every box is placed exactly once, and the levels are stacked.
   */
  ghost predicate Packing(c: Container, permutation: seq<Box>, containerBox: Dimension)
    reads c, permutation
  {
    c.dimension == containerBox
    && AllFit(permutation, containerBox)
    && multiset(BoxesOf(Flatten(c.levels))) == multiset(permutation)
    && Stacked(c.levels, c.levelHeights, containerBox, permutation, SizesOf(permutation))
  }

  /** A new level on top keeps the levels stacked. */
  lemma StackedAppend(levels: seq<seq<Placement>>, heights: seq<int>, heights': seq<int>,
                      added: seq<Placement>, containerBox: Dimension, boxes: seq<Box>, sizes: map<Box, Dimension>)
    requires Stacked(levels, heights, containerBox, boxes, sizes)
    requires |heights'| == |heights| + 1 && heights'[..|heights|] == heights
    requires added != [] && SeedsLevel(added[0], containerBox, Sum(heights), sizes)
    requires forall k :: 0 <= k < |added| ==> added[k].box in boxes
    requires forall k :: 0 < k < |added| ==> Fits(added[k], sizes)
    requires Recorded(added, sizes) && heights'[|heights|] == Tallest(0, added, sizes)
    ensures Stacked(levels + [added], heights', containerBox, boxes, sizes)
  {
    SeedsAppend(levels, heights, heights', added, containerBox, boxes, sizes);
    FitsAppend(levels, added, boxes, sizes);
    HeightsAppend(levels, heights, heights', added, sizes);
  }

  lemma SeedsAppend(levels: seq<seq<Placement>>, heights: seq<int>, heights': seq<int>,
                    added: seq<Placement>, containerBox: Dimension, boxes: seq<Box>, sizes: map<Box, Dimension>)
    requires |levels| == |heights|
    requires forall i :: 0 <= i < |levels| ==>
      levels[i] != [] && levels[i][0].box in boxes && SeedsLevel(levels[i][0], containerBox, Sum(heights[..i]), sizes)
    requires |heights'| == |heights| + 1 && heights'[..|heights|] == heights
    requires added != [] && added[0].box in boxes && SeedsLevel(added[0], containerBox, Sum(heights), sizes)
    ensures var levels' := levels + [added];
      forall i :: 0 <= i < |levels'| ==>
        levels'[i] != [] && levels'[i][0].box in boxes
        && SeedsLevel(levels'[i][0], containerBox, Sum(heights'[..i]), sizes)
  {
    var levels': seq<seq<Placement>> := levels + [added];
    forall i | 0 <= i < |levels'|
      ensures levels'[i] != [] && levels'[i][0].box in boxes
        && SeedsLevel(levels'[i][0], containerBox, Sum(heights'[..i]), sizes)
    {
      assert heights'[..i] == heights[..i];
    }
  }

  lemma FitsAppend(levels: seq<seq<Placement>>, added: seq<Placement>, boxes: seq<Box>, sizes: map<Box, Dimension>)
    requires forall i, k :: 0 <= i < |levels| && 0 < k < |levels[i]| ==>
      levels[i][k].box in boxes && Fits(levels[i][k], sizes)
    requires forall k :: 0 <= k < |added| ==> added[k].box in boxes
    requires forall k :: 0 < k < |added| ==> Fits(added[k], sizes)
    ensures var levels' := levels + [added];
      forall i, k :: 0 <= i < |levels'| && 0 < k < |levels'[i]| ==>
        levels'[i][k].box in boxes && Fits(levels'[i][k], sizes)
  {
    var levels': seq<seq<Placement>> := levels + [added];
    forall i, k | 0 <= i < |levels'| && 0 < k < |levels'[i]|
      ensures levels'[i][k].box in boxes && Fits(levels'[i][k], sizes)
    {
      if i < |levels| {
        assert levels'[i] == levels[i];
      }
    }
  }

  lemma HeightsAppend(levels: seq<seq<Placement>>, heights: seq<int>, heights': seq<int>,
                      added: seq<Placement>, sizes: map<Box, Dimension>)
    requires |levels| == |heights|
    requires forall i :: 0 <= i < |levels| ==>
      Recorded(levels[i], sizes) && heights[i] == Tallest(0, levels[i], sizes)
    requires |heights'| == |heights| + 1 && heights'[..|heights|] == heights
    requires Recorded(added, sizes) && heights'[|heights|] == Tallest(0, added, sizes)
    ensures var levels' := levels + [added];
      forall i :: 0 <= i < |levels'| ==>
        Recorded(levels'[i], sizes) && heights'[i] == Tallest(0, levels'[i], sizes)
  {
    var levels': seq<seq<Placement>> := levels + [added];
    forall i | 0 <= i < |levels'|
      ensures Recorded(levels'[i], sizes) && heights'[i] == Tallest(0, levels'[i], sizes)
    {
      if i < |levels| {
        assert levels'[i] == levels[i] && heights'[i] == heights[i];
      }
    }
  }

  /** Stacking judged by one record of the extents is judged alike by any other record of the same extents. */
  lemma StackedResized(levels: seq<seq<Placement>>, heights: seq<int>, containerBox: Dimension, boxes: seq<Box>,
                       sizes: map<Box, Dimension>, sizes': map<Box, Dimension>)
    requires Stacked(levels, heights, containerBox, boxes, sizes) && Sized(boxes, sizes) && Sized(boxes, sizes')
    ensures Stacked(levels, heights, containerBox, boxes, sizes')
  {
    forall b | b in boxes ensures b in sizes && b in sizes' && sizes[b] == sizes'[b] {
      var k :| 0 <= k < |boxes| && boxes[k] == b;
    }
    forall i | 0 <= i < |levels|
      ensures Recorded(levels[i], sizes') && heights[i] == Tallest(0, levels[i], sizes')
    {
      forall k | 0 <= k < |levels[i]| ensures levels[i][k].box in boxes {
        if k == 0 {
        }
      }
      TallestResized(0, levels[i], sizes, sizes');
    }
  }

  /**
   * Stacked levels do not overlap: every box placed in a level is at most as
   * tall as the level, and a level higher up opens at or above the top of a
   * lower one.
   */
  lemma LevelsDoNotOverlap(levels: seq<seq<Placement>>, heights: seq<int>, containerBox: Dimension,
                           boxes: seq<Box>, sizes: map<Box, Dimension>, i: nat, j: nat)
    requires Stacked(levels, heights, containerBox, boxes, sizes) && i < j < |levels|
    ensures forall k :: 0 <= k < |levels[i]| ==> sizes[levels[i][k].box].height <= heights[i]
    ensures levels[i][0].space.z + heights[i] <= levels[j][0].space.z
  {
    forall k | 0 <= k < |heights| ensures 0 <= heights[k] {
      assert heights[k] == Tallest(0, levels[k], sizes);
    }
    SumGrows(heights, i, j);
  }

  /** A sum of non-negative terms grows with the prefix taken. */
  lemma {:induction false} SumGrows(s: seq<int>, i: nat, j: nat)
    requires i < j <= |s| && forall k :: 0 <= k < |s| ==> 0 <= s[k]
    ensures Sum(s[..i]) + s[i] <= Sum(s[..j])
    decreases j
  {
    assert s[..j][..j - 1] == s[..j - 1];
    if j > i + 1 {
      SumGrows(s, i, j - 1);
    }
  }

  /**
   * The level record `levels`/`heights` is `levels0`/`heights0` with the
   * current (last) level grown by the placements `added`, and its height
   * raised to the tallest of the boxes added; the levels below are as they were.
   */
  ghost predicate Grown(levels0: seq<seq<Placement>>, heights0: seq<int>, levels: seq<seq<Placement>>,
                        heights: seq<int>, added: seq<Placement>, sizes: map<Box, Dimension>)
  {
    Recorded(added, sizes) && levels0 != []
    && |levels| == |levels0| == |heights0| == |heights|
    && levels[..|levels| - 1] == levels0[..|levels| - 1]
    && heights[..|levels| - 1] == heights0[..|levels| - 1]
    && levels[|levels| - 1] == levels0[|levels| - 1] + added
    && heights[|levels| - 1] == Tallest(heights0[|levels| - 1], added, sizes)
  }

  /** Growing the current level by `a`, then by `b`, grows it by `a + b`. */
  lemma GrownTwice(levels0: seq<seq<Placement>>, heights0: seq<int>, levels1: seq<seq<Placement>>,
                   heights1: seq<int>, levels: seq<seq<Placement>>, heights: seq<int>,
                   a: seq<Placement>, b: seq<Placement>, sizes: map<Box, Dimension>)
    requires Grown(levels0, heights0, levels1, heights1, a, sizes)
    requires Grown(levels1, heights1, levels, heights, b, sizes)
    ensures Grown(levels0, heights0, levels, heights, a + b, sizes)
  {
    RecordedAppend(a, b, sizes);
    TallestAppend(heights0[|levels| - 1], a, b, sizes);
  }

  /** A level opened empty on top of `before` and then given `added`. */
  lemma NewLevel(before: seq<seq<Placement>>, heights: seq<int>, grown: seq<seq<Placement>>, grownHeights: seq<int>,
                 after: seq<seq<Placement>>, afterHeights: seq<int>, added: seq<Placement>, sizes: map<Box, Dimension>)
    requires grown == before + [[]] && grownHeights == heights + [0]
    requires Grown(grown, grownHeights, after, afterHeights, added, sizes)
    ensures after == before + [added] && afterHeights == heights + [Tallest(0, added, sizes)]
    ensures Flatten(after) == Flatten(before) + added
  {
    assert grown[..|grown| - 1] == before && grownHeights[..|grown| - 1] == heights;
    assert after[|after| - 1] == added by {
      assert grown[|grown| - 1] == [];
    }
    assert after == after[..|after| - 1] + [after[|after| - 1]];
    assert afterHeights == afterHeights[..|after| - 1] + [afterHeights[|after| - 1]];
  }

  /**
   * The boxes placed so far are the first `at` of the permutation; a level
   * that places the next box and those up to `next` leaves the first `next`.
   */
  lemma LevelAccounts(placed: seq<Placement>, added: seq<Placement>, permutation: seq<Box>, at: nat, next: nat)
    requires at < next <= |permutation|
    requires multiset(BoxesOf(placed)) == multiset(permutation[..at])
    requires multiset(BoxesOf(added)) == multiset([permutation[at]] + permutation[at + 1..next])
    ensures multiset(BoxesOf(placed + added)) == multiset(permutation[..next])
    ensures forall k :: 0 <= k < |added| ==> added[k].box in permutation
  {
    MultisetOfBoxes(placed, added);
    SliceHead(permutation, at, next);
    PrefixSplit(permutation, at, next);
    forall k | 0 <= k < |added| ensures added[k].box in permutation {
      BoxesOfIndex(added, k);
      MemberOfSlice(BoxesOf(added), k, permutation, at, next);
    }
  }

  lemma PrefixSplit(s: seq<Box>, i: nat, j: nat)
    requires i <= j <= |s|
    ensures multiset(s[..j]) == multiset(s[..i]) + multiset(s[i..j])
  {
    assert s[..j] == s[..i] + s[i..j];
  }

  /** Every box of a rearrangement of a slice is a box of the whole list. */
  lemma MemberOfSlice(xs: seq<Box>, k: nat, s: seq<Box>, i: nat, j: nat)
    requires k < |xs| && i <= j <= |s| && multiset(xs) == multiset(s[i..j])
    ensures xs[k] in s
  {
    assert xs[k] in multiset(xs);
    assert xs[k] in s[i..j];
  }

  /** A non-empty slice of the work list is its head, then the rest. */
  lemma SliceHead(s: seq<Box>, i: nat, k: nat)
    requires i < k <= |s|
    ensures s[i..k] == [s[i]] + s[i + 1..k]
  {
  }

  /** Placements that take the box at the front of the list and then those up to `next`. */
  lemma TakeHead(products: seq<Box>, sizes: map<Box, Dimension>, at: nat, next: nat, added: seq<Placement>)
    requires at < next <= |products| && |added| == next - at
    requires multiset(BoxesOf(added)) == multiset([products[at]] + products[at + 1..next])
    requires added != [] && Fits(added[0], sizes)
    requires forall k :: 0 < k < |added| ==> Fits(added[k], sizes)
    ensures multiset(BoxesOf(added)) == multiset(products[at..next])
    ensures forall k :: 0 <= k < |added| ==> Fits(added[k], sizes)
  {
    SliceHead(products, at, next);
    forall k | 0 <= k < |added| ensures Fits(added[k], sizes) {
      if k == 0 {
      }
    }
  }

  /** A slice of the work list is its head, then the rest up to j, then the rest after j. */
  lemma SliceParts(s: seq<Box>, i: nat, j: nat, k: nat)
    requires i < j <= k <= |s|
    ensures s[i..k] == [s[i]] + s[i + 1..j] + s[j..k]
  {
    assert s[i..k] == [s[i]] + s[i + 1..k];
    assert s[i + 1..k] == s[i + 1..j] + s[j..k];
  }

  lemma MultisetJoin(a: seq<Box>, b: seq<Box>, x: Box, c: seq<Box>, d: seq<Box>)
    requires multiset(a) == multiset(c) && multiset(b) == multiset([x] + d)
    ensures multiset(a + b) == multiset([x] + c + d)
  {
    calc {
      multiset(a + b);
      multiset(a) + multiset(b);
      multiset(c) + (multiset([x]) + multiset(d));
      multiset([x] + c + d);
    }
  }

  lemma MultisetOfBoxes(a: seq<Placement>, b: seq<Placement>)
    ensures multiset(BoxesOf(a + b)) == multiset(BoxesOf(a)) + multiset(BoxesOf(b))
  {
    BoxesOfAppend(a, b);
  }

  /** Placements that fit, followed by placements that fit. */
  lemma FitsJoin(side: seq<Placement>, main: seq<Placement>, sizes: map<Box, Dimension>)
    requires forall k :: 0 <= k < |side| ==> Fits(side[k], sizes)
    requires forall k :: 0 <= k < |main| ==> Fits(main[k], sizes)
    ensures forall k :: 0 <= k < |side + main| ==> Fits((side + main)[k], sizes)
  {
    forall k | 0 <= k < |side + main| ensures Fits((side + main)[k], sizes) {
      if k >= |side| {
        assert (side + main)[k] == main[k - |side|];
      }
    }
  }

  class BruteForcePackager {
    /** Whether boxes may be turned out of the plane (six orientations) or only about the vertical axis (two). */
    const rotate3D: bool
    /** `getFreespaces`, `Space.getRemainder` and `Space.isEmpty`. */
    const geometry: Splitter

    constructor (rotate3D: bool, geometry: Splitter)
      ensures this.rotate3D == rotate3D && this.geometry == geometry
    {
      this.rotate3D, this.geometry := rotate3D, geometry;
    }

    /**
     * `rotate`: advance the rotation counter in place. Returns -1, leaving the
     * counter as it was, when every digit is at or above the limit; otherwise
     * the index of the lowest digit below the limit, which is raised by one
     * while every digit below it is reset to 0 and every digit above it kept.
     */
    method Rotate(rotations: array<int>) returns (index: int)
      modifies rotations
      ensures -1 <= index < rotations.Length
      ensures index == -1 ==> rotations[..] == old(rotations[..])
      ensures Successor(old(rotations[..]), Limit(rotate3D))
        == if index == -1 then Exhausted else Advanced(index, rotations[..])
    {
      var limit := if rotate3D then 6 else 2;
      var i := 0;
      while i < rotations.Length
        invariant 0 <= i <= rotations.Length && rotations[..] == old(rotations[..])
        invariant forall k :: 0 <= k < i ==> rotations[k] >= limit
      {
        if rotations[i] < limit {
          rotations[i] := rotations[i] + 1;
          // reset all lower digits to zero
          var k := 0;
          while k < i
            invariant 0 <= k <= i
            invariant forall j :: 0 <= j < k ==> rotations[j] == 0
            invariant forall j :: k <= j < rotations.Length ==>
              rotations[j] == old(rotations[j]) + (if j == i then 1 else 0)
          {
            rotations[k] := 0;
            k := k + 1;
          }
          SuccessorLowest(old(rotations[..]), limit, i);
          assert rotations[..] == Zeros(i) + [old(rotations[i]) + 1] + old(rotations[..])[i + 1..];
          return i;
        }
        i := i + 1;
      }
      SuccessorExhausted(old(rotations[..]), limit);
      return -1;
    }

    /**
     * The rotation step of `pack` (the do-while loop after a failed attempt):
     * advance the counter, skipping turns that would repeat a tried state, and
     * turn the box at the advanced digit. The outcome is that of `Search`: -1
     * when the counter ran out, with no box turned; otherwise the index of the
     * one box that was turned, by the turn `Search` names.
     */
    method NextRotation(rotations: array<int>, permutation: seq<Box>) returns (index: int)
      requires rotations.Length == |permutation| && Digits(rotations[..], 8)
      modifies rotations, permutation
      ensures Digits(rotations[..], 8)
      ensures rotations[..] == Search(old(rotations[..]), old(Dims(permutation)), Limit(rotate3D)).digits
      ensures index == -1 <==> Search(old(rotations[..]), old(Dims(permutation)), Limit(rotate3D)).Done?
      ensures index == -1 ==> Dims(permutation) == old(Dims(permutation))
      ensures index != -1 ==>
        var step := Search(old(rotations[..]), old(Dims(permutation)), Limit(rotate3D));
        index == step.index && index < |permutation|
        && permutation[index].Dim() == Turned(old(permutation[index].Dim()), step.turn)
      ensures index != -1 ==> forall k :: 0 <= k < |permutation| && permutation[k] != permutation[index] ==>
        permutation[k].Dim() == old(permutation[k].Dim())
    {
      index := SeekRotation(rotations, permutation, Dims(permutation));
      if index != -1 {
        TurnBox(permutation[index], rotations[index]);
      }
    }

    /**
     * The counter part of the rotation step: advance, and advance again past
     * every skipped turn, until a box is due a turn (its index) or the counter
     * runs out (-1). No box is touched.
     */
    method SeekRotation(rotations: array<int>, permutation: seq<Box>, ghost shapes: seq<Dimension>)
      returns (index: int)
      requires rotations.Length == |permutation| && Digits(rotations[..], 8) && shapes == Dims(permutation)
      modifies rotations
      ensures Digits(rotations[..], 8)
      ensures var step := Search(old(rotations[..]), shapes, Limit(rotate3D));
        rotations[..] == step.digits && (index == -1 <==> step.Done?)
      ensures index != -1 ==>
        var step := Search(old(rotations[..]), shapes, Limit(rotate3D));
        index == step.index && index < |permutation|
        && step.turn == WantedTurn(rotations[index], shapes[index])
    {
      ghost var limit := Limit(rotate3D);
      ghost var goal := Search(rotations[..], shapes, limit);
      ghost var cur := rotations[..];
      while true
        invariant cur == rotations[..] && Digits(cur, 8) && Search(cur, shapes, limit) == goal
        decreases Pow(8, |cur|) - Value(cur, 8)
      {
        ghost var before := cur;
        ValueRange(before, 8);
        index := Rotate(rotations);
        if index == -1 {
          // done
          assert goal == Done(before);
          return;
        }
        ghost var t := rotations[..];
        var box := permutation[index];
        assert box.Dim() == shapes[index];
        if rotations[index] % 2 == 0 {
          if box.IsSquare2D() {
            // skip the turn about the vertical axis
            rotations[index] := rotations[index] + 1;
            cur := t[index := t[index] + 1];
            SkipSquare(before, shapes, limit, index, t);
            continue;
          }
        } else if box.IsSquare3D() {
          // skip the turns out of the plane as well
          rotations[index] := 6;
          cur := t[index := 6];
          SkipCube(before, shapes, limit, index, t);
          continue;
        }
        TurnPass(before, shapes, limit, index, t);
        return;
      }
    }

    /** The turn a box is due for the digit just advanced: about the vertical axis on an even digit, else out of the plane. */
    method TurnBox(box: Box, digit: int)
      modifies box
      ensures box.Dim() == Turned(old(box.Dim()), WantedTurn(digit, old(box.Dim())))
    {
      if digit % 2 == 0 {
        box.Rotate2D();
      } else if box.IsSquare2D() {
        box.Rotate3D();
      } else {
        box.Rotate2D3D();
      }
    }

    /** The upfront filter of `pack`: every box can fit the container in some orientation allowed. */
    method FitsUpfront(boxes: seq<Box>, containerBox: Dimension) returns (fits: bool)
      ensures fits <==> AllCanFit(boxes, containerBox, rotate3D)
    {
      for k := 0 to |boxes|
        invariant AllCanFit(boxes[..k], containerBox, rotate3D)
      {
        if !CanFit(boxes[k].Dim(), containerBox, rotate3D) {
          return false;
        }
      }
      assert boxes[..|boxes|] == boxes;
      return true;
    }

    /** The sanity check of an attempt: every box, as it stands, fits the container. */
    method AllFitInside3D(permutation: seq<Box>, containerBox: Dimension) returns (fits: bool)
      ensures fits <==> AllFit(permutation, containerBox)
    {
      for k := 0 to |permutation|
        invariant AllFit(permutation[..k], containerBox)
      {
        if !FitsInside3D(permutation[k].Dim(), containerBox) {
          return false;
        }
      }
      assert permutation[..|permutation|] == permutation;
      return true;
    }

    /**
     * What `fit2D` does, as a value, for boxes whose extents are recorded in
     * `sizes`. The work list is `products[at..]`: the list is shared by every
     * level of the recursion and `remove(0)` takes its head, so it is always a
     * suffix of the attempt's permutation. The result holds the placements
     * added to the current level (the given one first), where the list then
     * starts, and whether `fit2D` ran to the end (false: the unchecked
     * `get(0)` on an empty list, which leaves the list empty).
     */
    function Fill(products: seq<Box>, sizes: map<Box, Dimension>, at: nat, usedSpace: Box, freeSpace: Space)
      : (r: Filling)
      requires at <= |products| && Covers(sizes, products) && usedSpace in sizes
      decreases |products| - at, 2
      ensures at <= r.next <= |products|
      ensures r.added != [] && r.added[0] == Placement(freeSpace, usedSpace) && Recorded(r.added, sizes)
      ensures !r.ok ==> r.next == |products|
      ensures r.next == at <==>
        at == |products| || FirstSpace(sizes[products[at]], geometry.freeSpaces(freeSpace, sizes[usedSpace])).None?
    {
      var first := Placement(freeSpace, usedSpace);
      if at == |products| then Filling([first], at, true)
      else match FirstSpace(sizes[products[at]], geometry.freeSpaces(freeSpace, sizes[usedSpace]))
        case None => Filling([first], at, true)
        case Some(space) =>
          var rest := FillHead(products, sizes, at, space);
          TallestCons(0, first, rest.added, sizes);
          Filling([first] + rest.added, rest.next, rest.ok)
    }

    /**
     * The head of the list goes to the sibling space it fits first; before it
     * is placed there, the remainder of that space is filled from the rest of
     * the list.
     */
    function FillHead(products: seq<Box>, sizes: map<Box, Dimension>, at: nat, space: Space): (r: Filling)
      requires at < |products| && Covers(sizes, products)
      decreases |products| - at, 1
      ensures at < r.next <= |products| && Recorded(r.added, sizes)
      ensures !r.ok ==> r.next == |products|
    {
      var side := FillRemainder(products, sizes, at + 1, geometry.remainder(space));
      if !side.ok then side
      else
        var main := Fill(products, sizes, side.next, products[at], space);
        RecordedAppend(side.added, main.added, sizes);
        Filling(side.added + main.added, main.next, main.ok)
    }

    /** `FillHead` as its two steps: the remainder, then the selected space. */
    lemma HeadSteps(products: seq<Box>, sizes: map<Box, Dimension>, at: nat, space: Space)
      requires at < |products| && Covers(sizes, products)
      ensures var side := FillRemainder(products, sizes, at + 1, geometry.remainder(space));
        var r := FillHead(products, sizes, at, space);
        (!side.ok ==> r == side)
        && (side.ok ==>
              var main := Fill(products, sizes, side.next, products[at], space);
              r.added == side.added + main.added && r.next == main.next && r.ok == main.ok)
    {
    }

    /**
     * The remainder of the selected space: nothing when it is empty; otherwise
     * the box at the front of the list (`get(0)`, which fails on an empty list)
     * fills it when it fits, and is left in the list when it does not.
     */
    function FillRemainder(products: seq<Box>, sizes: map<Box, Dimension>, at: nat, remainder: Space): (r: Filling)
      requires 0 < at <= |products| && Covers(sizes, products)
      decreases |products| - at + 1, 0
      ensures at <= r.next <= |products| && Recorded(r.added, sizes)
      ensures !r.ok ==> r.next == |products|
    {
      if geometry.isEmpty(remainder) then Filling([], at, true)
      else if at == |products| then Filling([], at, false)
      else if FitsInside3D(sizes[products[at]], remainder.Dim()) then Fill(products, sizes, at + 1, products[at], remainder)
      else Filling([], at, true)
    }

    /**
     * What `fit2D` places, when it runs to the end: one placement per box it
     * takes from the front of the list, after the given one; the boxes of the
     * placements are the given box and the boxes taken, each exactly once; and
     * every box placed after the given one fits its space as it stands.
     */
    lemma {:induction false} FillAccounts(products: seq<Box>, sizes: map<Box, Dimension>, at: nat, usedSpace: Box,
                                          freeSpace: Space)
      requires at <= |products| && Covers(sizes, products) && usedSpace in sizes
      decreases |products| - at, 2
      ensures var r := Fill(products, sizes, at, usedSpace, freeSpace);
        r.ok ==>
          |r.added| == 1 + r.next - at
          && multiset(BoxesOf(r.added)) == multiset([usedSpace] + products[at..r.next])
          && forall k :: 0 < k < |r.added| ==> Fits(r.added[k], sizes)
    {
      if at < |products| {
        var spaces := geometry.freeSpaces(freeSpace, sizes[usedSpace]);
        var found := FirstSpace(sizes[products[at]], spaces);
        if found.Some? {
          var k :| FirstAdmitting(sizes[products[at]], spaces, k) && spaces[k] == Some(found.value);
          var first := Placement(freeSpace, usedSpace);
          var rest := FillHead(products, sizes, at, found.value);
          HeadAccounts(products, sizes, at, found.value);
          if rest.ok {
            MultisetOfBoxes([first], rest.added);
            forall k | 0 < k < |[first] + rest.added| ensures Fits(([first] + rest.added)[k], sizes) {
              assert ([first] + rest.added)[k] == rest.added[k - 1];
            }
          }
        }
      }
    }

    /** What the head and the remainder before it place: each box taken, once, each fitting its space. */
    lemma {:induction false} HeadAccounts(products: seq<Box>, sizes: map<Box, Dimension>, at: nat, space: Space)
      requires at < |products| && Covers(sizes, products) && FitsInside3D(sizes[products[at]], space.Dim())
      decreases |products| - at, 1
      ensures var r := FillHead(products, sizes, at, space);
        r.ok ==>
          |r.added| == r.next - at
          && multiset(BoxesOf(r.added)) == multiset(products[at..r.next])
          && forall k :: 0 <= k < |r.added| ==> Fits(r.added[k], sizes)
    {
      var side := FillRemainder(products, sizes, at + 1, geometry.remainder(space));
      RemainderAccounts(products, sizes, at + 1, geometry.remainder(space));
      if side.ok {
        var main := Fill(products, sizes, side.next, products[at], space);
        FillAccounts(products, sizes, side.next, products[at], space);
        if main.ok {
          FillJoin(products, sizes, at, side.next, main.next, side.added, main.added);
        }
      }
    }

    /** What the remainder takes: the box at the front, once, fitting it, and what fills the rest of it. */
    lemma {:induction false} RemainderAccounts(products: seq<Box>, sizes: map<Box, Dimension>, at: nat,
                                               remainder: Space)
      requires 0 < at <= |products| && Covers(sizes, products)
      decreases |products| - at + 1, 0
      ensures var r := FillRemainder(products, sizes, at, remainder);
        r.ok ==>
          |r.added| == r.next - at
          && multiset(BoxesOf(r.added)) == multiset(products[at..r.next])
          && forall k :: 0 <= k < |r.added| ==> Fits(r.added[k], sizes)
    {
      var r := FillRemainder(products, sizes, at, remainder);
      if !geometry.isEmpty(remainder) && at < |products| && FitsInside3D(sizes[products[at]], remainder.Dim()) {
        FillAccounts(products, sizes, at + 1, products[at], remainder);
        if r.ok {
          TakeHead(products, sizes, at, r.next, r.added);
        }
      } else if r.ok {
        assert r.added == [] && r.next == at;
        assert products[at..at] == [];
      }
    }

    /**
     * The remainder of the selected space is filled before the head of the
     * list is placed: when the box after the head fits a non-empty remainder,
     * its placement there comes first and the head's placement later;
     * otherwise the head's placement comes first.
     */
    lemma HeadOrder(products: seq<Box>, sizes: map<Box, Dimension>, at: nat, space: Space)
      requires at < |products| && Covers(sizes, products)
      ensures var r := FillHead(products, sizes, at, space);
        var remainder := geometry.remainder(space);
        r.ok ==>
          if !geometry.isEmpty(remainder) && at + 1 < |products|
             && FitsInside3D(sizes[products[at + 1]], remainder.Dim())
          then r.added[0] == Placement(remainder, products[at + 1])
               && exists j :: 0 < j < |r.added| && r.added[j] == Placement(space, products[at])
          else r.added[0] == Placement(space, products[at])
    {
      var side := FillRemainder(products, sizes, at + 1, geometry.remainder(space));
      if side.ok {
        var main := Fill(products, sizes, side.next, products[at], space);
        assert (side.added + main.added)[|side.added|] == main.added[0];
      }
    }

    /** The placements of the remainder, then those of the selected space. */
    lemma FillJoin(products: seq<Box>, sizes: map<Box, Dimension>, at: nat, mid: nat, end: nat,
                   side: seq<Placement>, main: seq<Placement>)
      requires at < mid <= end <= |products|
      requires |side| == mid - at - 1 && multiset(BoxesOf(side)) == multiset(products[at + 1..mid])
      requires forall k :: 0 <= k < |side| ==> Fits(side[k], sizes)
      requires main != [] && main[0] == Placement(main[0].space, products[at]) && Fits(main[0], sizes)
      requires |main| == 1 + end - mid && multiset(BoxesOf(main)) == multiset([products[at]] + products[mid..end])
      requires forall k :: 0 < k < |main| ==> Fits(main[k], sizes)
      ensures |side + main| == end - at
      ensures multiset(BoxesOf(side + main)) == multiset(products[at..end])
      ensures forall k :: 0 <= k < |side + main| ==> Fits((side + main)[k], sizes)
    {
      BoxesOfAppend(side, main);
      SliceParts(products, at, mid, end);
      MultisetJoin(BoxesOf(side), BoxesOf(main), products[at], products[at + 1..mid], products[mid..end]);
      FitsJoin(side, main, sizes);
    }

    /**
     * `fit2D`: place `usedSpace` in `freeSpace`, then keep filling the current
     * level from the work list `products[at..]`, returning where the list then
     * starts. The level gains exactly the placements `Fill` names, in order,
     * and the list is left as `Fill` leaves it; `ok` is false where the source
     * throws IndexOutOfBoundsException. `sizes` records the extents of the
     * boxes as they stand.
     */
    method Fit2D(products: seq<Box>, at: nat, holder: Container, usedSpace: Box, freeSpace: Space,
                 ghost sizes: map<Box, Dimension>)
      returns (next: nat, ok: bool)
      requires at <= |products| && holder.Valid() && holder.levels != []
      requires Sized(products, sizes) && usedSpace in sizes && sizes[usedSpace] == usedSpace.Dim()
      modifies holder
      decreases |products| - at, 2
      ensures holder.Valid() && |holder.levels| == |old(holder.levels)|
      ensures holder.levels[..|holder.levels| - 1] == old(holder.levels[..|holder.levels| - 1])
      ensures holder.levelHeights[..|holder.levels| - 1] == old(holder.levelHeights[..|holder.levels| - 1])
      ensures next == Fill(products, sizes, at, usedSpace, freeSpace).next
      ensures ok == Fill(products, sizes, at, usedSpace, freeSpace).ok
      ensures ok ==>
        Grown(old(holder.levels), old(holder.levelHeights), holder.levels, holder.levelHeights,
              Fill(products, sizes, at, usedSpace, freeSpace).added, sizes)
    {
      ghost var first := Placement(freeSpace, usedSpace);
      TallestCons(holder.levelHeights[|holder.levels| - 1], first, [], sizes);
      assert [first] + [] == [first];
      ghost var levels0, heights0 := holder.levels, holder.levelHeights;
      holder.Add(Placement(freeSpace, usedSpace));
      ghost var levels1, heights1 := holder.levels, holder.levelHeights;
      assert Grown(levels0, heights0, levels1, heights1, [first], sizes);
      if at == |products| {
        return at, true;
      }
      var spaces := geometry.freeSpaces(freeSpace, usedSpace.Dim());
      var nextPlacement := FirstSpacePlacement(products[at], spaces);
      if nextPlacement.None? {
        // no additional boxes
        return at, true;
      }
      next, ok := FitHead(products, at, holder, nextPlacement.value, sizes);
      if ok {
        GrownTwice(levels0, heights0, levels1, heights1, holder.levels, holder.levelHeights, [first],
                   FillHead(products, sizes, at, nextPlacement.value.space).added, sizes);
      }
    }

    /**
     * The rest of `fit2D` once the head of the list has a space: the head is
     * taken from the list, the remainder of its space is filled first, then
     * the head is placed in its space and the level filled on from there.
     */
    method FitHead(products: seq<Box>, at: nat, holder: Container, placement: Placement,
                   ghost sizes: map<Box, Dimension>)
      returns (next: nat, ok: bool)
      requires at < |products| && placement.box == products[at] && holder.Valid() && holder.levels != []
      requires Sized(products, sizes)
      modifies holder
      decreases |products| - at, 1
      ensures holder.Valid() && |holder.levels| == |old(holder.levels)|
      ensures holder.levels[..|holder.levels| - 1] == old(holder.levels[..|holder.levels| - 1])
      ensures holder.levelHeights[..|holder.levels| - 1] == old(holder.levelHeights[..|holder.levels| - 1])
      ensures next == FillHead(products, sizes, at, placement.space).next
      ensures ok == FillHead(products, sizes, at, placement.space).ok
      ensures ok ==>
        Grown(old(holder.levels), old(holder.levelHeights), holder.levels, holder.levelHeights,
              FillHead(products, sizes, at, placement.space).added, sizes)
    {
      // first the remainder of the selected space, usually the smaller one
      var remainder := geometry.remainder(placement.space);
      HeadSteps(products, sizes, at, placement.space);
      ghost var levels0, heights0 := holder.levels, holder.levelHeights;
      next, ok := FitRemainder(products, at + 1, holder, remainder, sizes);
      if !ok {
        return;
      }
      ghost var side := FillRemainder(products, sizes, at + 1, remainder);
      ghost var levels1, heights1 := holder.levels, holder.levelHeights;
      // then the selected space
      next, ok := Fit2D(products, next, holder, placement.box, placement.space, sizes);
      if ok {
        GrownTwice(levels0, heights0, levels1, heights1, holder.levels, holder.levelHeights, side.added,
                   Fill(products, sizes, side.next, products[at], placement.space).added, sizes);
      }
    }

    /**
     * The remainder part of `fit2D`: nothing when the remainder is empty;
     * otherwise the box at the front of the list (`get(0)`, which throws on an
     * empty list) is taken and fills it when it fits, and is left when not.
     */
    method FitRemainder(products: seq<Box>, at: nat, holder: Container, remainder: Space,
                        ghost sizes: map<Box, Dimension>)
      returns (next: nat, ok: bool)
      requires 0 < at <= |products| && holder.Valid() && holder.levels != []
      requires Sized(products, sizes)
      modifies holder
      decreases |products| - at + 1, 0
      ensures holder.Valid() && |holder.levels| == |old(holder.levels)|
      ensures holder.levels[..|holder.levels| - 1] == old(holder.levels[..|holder.levels| - 1])
      ensures holder.levelHeights[..|holder.levels| - 1] == old(holder.levelHeights[..|holder.levels| - 1])
      ensures next == FillRemainder(products, sizes, at, remainder).next
      ensures ok == FillRemainder(products, sizes, at, remainder).ok
      ensures ok ==>
        Grown(old(holder.levels), old(holder.levelHeights), holder.levels, holder.levelHeights,
              FillRemainder(products, sizes, at, remainder).added, sizes)
    {
      if geometry.isEmpty(remainder) {
        return at, true;
      }
      if at == |products| {
        // containerProducts.get(0) on an empty list
        return at, false;
      }
      var box := products[at];
      if FitsInside3D(box.Dim(), remainder.Dim()) {
        next, ok := Fit2D(products, at + 1, holder, box, remainder, sizes);
      } else {
        next, ok := at, true;
      }
    }

    /**
     * `pack`: the upfront filter, then the search over the given permutations
     * and, for each, the rotation combinations, until an attempt places every
     * box. `polls` is how many checks of the deadline find it not yet passed
     * (time only moves forward, so the deadline stops the search at the first
     * check after those).
     */
    method Pack(boxes: seq<Box>, containerBox: Dimension, permutations: seq<seq<Box>>, polls: nat)
      returns (result: PackResult)
      requires forall p :: p in permutations ==> multiset(p) == multiset(boxes)
      modifies boxes
      ensures !old(AllCanFit(boxes, containerBox, rotate3D)) ==>
        result == NoFit && forall b :: b in boxes ==> b.Dim() == old(b.Dim())
      ensures result.Packed? ==>
        old(AllCanFit(boxes, containerBox, rotate3D)) && fresh(result.container)
        && exists j :: 0 <= j < |permutations| && Packing(result.container, permutations[j], containerBox)
    {
      var fits := FitsUpfront(boxes, containerBox);
      if !fits {
        return NoFit;
      }
      var holder := new Container(containerBox);
      var left := polls;
      var j := 0;
      while j < |permutations|
        invariant 0 <= j <= |permutations|
        invariant fresh(holder) && holder.Valid() && holder.dimension == containerBox
      {
        if left == 0 {
          // the deadline has passed
          break;
        }
        left := left - 1;
        var permutation := permutations[j];
        forall k | 0 <= k < |permutation| ensures permutation[k] in boxes {
          assert permutation in permutations && permutation[k] in multiset(permutation);
        }
        var outcome;
        outcome, left := TryRotations(permutation, holder, containerBox, left);
        if outcome == Filled {
          return Packed(holder);
        } else if outcome == OutOfBounds {
          return IndexOutOfBounds;
        }
        j := j + 1;
      }
      return NoFit;
    }

    /**
     * The `permutation:` loop of `pack` for one permutation: from the first
     * rotation combination on, an attempt with the boxes as they stand, then
     * the next rotation, until an attempt places every box or ends in the
     * exception, the counter runs out, or the deadline passes (`Failed` for
     * the last two). `left` counts the checks of the deadline that find it not
     * yet passed; the count left over is returned.
     */
    method TryRotations(permutation: seq<Box>, holder: Container, containerBox: Dimension, left: nat)
      returns (outcome: Attempt, left': nat)
      requires holder.Valid() && holder.dimension == containerBox
      modifies holder, permutation
      ensures holder.Valid()
      ensures left' <= left
      ensures outcome == Filled ==> Packing(holder, permutation, containerBox)
    {
      var rotations := new int[|permutation|](_ => 0);
      left' := left;
      while true
        invariant fresh(rotations) && rotations.Length == |permutation| && Digits(rotations[..], 8)
        invariant holder.Valid() && left' <= left
        decreases left'
      {
        if left' == 0 {
          // the deadline has passed
          return Failed, left';
        }
        left' := left' - 1;
        outcome := TryFit(permutation, holder, containerBox);
        if outcome != Failed {
          return;
        }
        var index := NextRotation(rotations, permutation);
        if index == -1 {
          // every rotation combination of this permutation was tried
          return Failed, left';
        }
      }
    }

    /**
     * One pass of the level loop keeps its invariant: the level fit2D filled on
     * top of the others keeps the levels stacked, and the boxes placed are then
     * the first `next` of the permutation.
     */
    lemma LevelStep(permutation: seq<Box>, sizes: map<Box, Dimension>, containerBox: Dimension, at: nat,
                    levelSpace: Space, levels: seq<seq<Placement>>, heights: seq<int>,
                    grown: seq<seq<Placement>>, grownHeights: seq<int>,
                    after: seq<seq<Placement>>, afterHeights: seq<int>)
      requires at < |permutation| && Covers(sizes, permutation)
      requires Stacked(levels, heights, containerBox, permutation, sizes)
      requires multiset(BoxesOf(Flatten(levels))) == multiset(permutation[..at])
      requires SeedsLevel(Placement(levelSpace, permutation[at]), containerBox, Sum(heights), sizes)
      requires grown == levels + [[]] && grownHeights == heights + [0]
      requires var r := Fill(permutation, sizes, at + 1, permutation[at], levelSpace);
        r.ok && Grown(grown, grownHeights, after, afterHeights, r.added, sizes)
      ensures var r := Fill(permutation, sizes, at + 1, permutation[at], levelSpace);
        after == levels + [r.added] && afterHeights == heights + [Tallest(0, r.added, sizes)]
        && Stacked(after, afterHeights, containerBox, permutation, sizes)
        && multiset(BoxesOf(Flatten(after))) == multiset(permutation[..r.next])
    {
      var r := Fill(permutation, sizes, at + 1, permutation[at], levelSpace);
      FillAccounts(permutation, sizes, at + 1, permutation[at], levelSpace);
      NewLevel(levels, heights, grown, grownHeights, after, afterHeights, r.added, sizes);
      LevelAccounts(Flatten(levels), r.added, permutation, at, r.next);
      StackedAppend(levels, heights, afterHeights, r.added, containerBox, permutation, sizes);
    }

    /**
     * One pass of the level loop: the box at the front of the work list
     * `permutation[at..]` must fit the free space above the levels so far; it
     * opens a new level spanning the container's footprint with its height,
     * and fit2D fills the level from the list. `Filled` when the level is
     * filled, with the boxes placed then the first `next` of the permutation
     * and the levels still stacked.
     */
    method StackLevel(permutation: seq<Box>, at: nat, holder: Container, containerBox: Dimension,
                      ghost sizes: map<Box, Dimension>)
      returns (next: nat, outcome: Attempt)
      requires at < |permutation| && Sized(permutation, sizes)
      requires holder.Valid() && holder.dimension == containerBox
      requires multiset(BoxesOf(Flatten(holder.levels))) == multiset(permutation[..at])
      requires Stacked(holder.levels, holder.levelHeights, containerBox, permutation, sizes)
      modifies holder
      ensures holder.Valid() && holder.dimension == containerBox
      ensures outcome == Failed <==> !FitsInside3D(sizes[permutation[at]], old(holder.RemainingFreeSpace()))
      ensures var r := Fill(permutation, sizes, at + 1, permutation[at],
                            Space(containerBox.width, containerBox.depth, sizes[permutation[at]].height, 0, 0,
                                  old(holder.StackHeight())));
        outcome != Failed ==>
          next == r.next && (outcome == Filled <==> r.ok)
          && (r.ok ==>
                holder.levels == old(holder.levels) + [r.added]
                && holder.levelHeights == old(holder.levelHeights) + [Tallest(0, r.added, sizes)])
      ensures outcome == Filled ==>
        at < next <= |permutation|
        && multiset(BoxesOf(Flatten(holder.levels))) == multiset(permutation[..next])
        && Stacked(holder.levels, holder.levelHeights, containerBox, permutation, sizes)
    {
      ghost var levels, heights := holder.levels, holder.levelHeights;
      var box := permutation[at];
      var space := holder.RemainingFreeSpace();
      if !FitsInside3D(box.Dim(), space) {
        return at, Failed;
      }
      var levelSpace := Space(containerBox.width, containerBox.depth, box.height, 0, 0, holder.StackHeight());
      holder.AddLevel();
      ghost var grown, grownHeights := holder.levels, holder.levelHeights;
      var ok;
      next, ok := Fit2D(permutation, at + 1, holder, box, levelSpace, sizes);
      if !ok {
        return next, OutOfBounds;
      }
      LevelStep(permutation, sizes, containerBox, at, levelSpace, levels, heights, grown, grownHeights,
                holder.levels, holder.levelHeights);
      return next, Filled;
    }

    /**
     * One attempt (the `fit` block of `pack`) with the boxes as they stand:
     * the sanity check, then the level loop over the work list
     * `permutation[at..]`. Each level is opened by the box at the front of the
     * list, which must fit the free space above the levels so far; the level
     * spans the container's footprint with that box's height, and fit2D fills
     * it from the list.
     */
    method TryFit(permutation: seq<Box>, holder: Container, containerBox: Dimension)
      returns (outcome: Attempt)
      requires holder.Valid() && holder.dimension == containerBox
      modifies holder
      ensures holder.Valid()
      ensures outcome == Filled ==> Packing(holder, permutation, containerBox)
    {
      var sane := AllFitInside3D(permutation, containerBox);
      if !sane {
        return Failed;
      }
      ghost var sizes := SizesOf(permutation);
      holder.Clear();
      outcome := StackLevels(permutation, holder, containerBox, sizes);
      if outcome == Filled {
        StackedResized(holder.levels, holder.levelHeights, containerBox, permutation, sizes, SizesOf(permutation));
      }
    }

    /**
     * The level loop of an attempt, from an empty container: levels are
     * stacked until the work list `permutation[at..]` is empty; `Filled` when
     * every box of the permutation is placed, once, with the levels stacked.
     */
    method StackLevels(permutation: seq<Box>, holder: Container, containerBox: Dimension,
                       ghost sizes: map<Box, Dimension>)
      returns (outcome: Attempt)
      requires holder.Valid() && holder.dimension == containerBox && holder.levels == []
      requires Sized(permutation, sizes)
      modifies holder
      ensures holder.Valid() && holder.dimension == containerBox
      ensures outcome == Filled ==>
        multiset(BoxesOf(Flatten(holder.levels))) == multiset(permutation)
        && Stacked(holder.levels, holder.levelHeights, containerBox, permutation, sizes)
    {
      var at := 0;
      assert Flatten(holder.levels) == [];
      while at < |permutation|
        invariant holder.Valid() && holder.dimension == containerBox
        invariant at <= |permutation|
        invariant multiset(BoxesOf(Flatten(holder.levels))) == multiset(permutation[..at])
        invariant Stacked(holder.levels, holder.levelHeights, containerBox, permutation, sizes)
        decreases |permutation| - at
      {
        var next, level := StackLevel(permutation, at, holder, containerBox, sizes);
        if level != Filled {
          return level;
        }
        at := next;
      }
      assert permutation[..at] == permutation;
      return Filled;
    }
  }
}
