# Brute-force container packing, modelled in Dafny

This project models the brute-force single-container packer of the
3D box-packing library (`BruteForcePackager`). For one container it tries
every given permutation of the boxes and, for each, every rotation
combination reachable by a pruned odometer over per-box orientation digits.
An attempt stacks the boxes level by level; each level is filled by the
recursive shelf-fit `fit2D`. The first attempt that places every box wins.

Modules, one per concern:

- `Shapes` (`shapes.dfy`): dimensions and free spaces as values, the fit and
  squareness tests, the three rotation primitives as permutations of the
  extents, and the upfront `canFitInside3D`/`canFitInside2D` filter.
- `Odometer` (`odometer.dfy`): `Successor`, the specification of one call of
  `rotate`, and the enumeration it performs from all zeros, proved through the
  mixed-radix value of the digit vector.
- `Pruning` (`pruning.dfy`): `Search`, the specification of the rotation-step
  do-while loop of `pack` with its two pruning shortcuts, and its outcome.
- `Cargo` (`cargo.dfy`): the collaborators the packer relies on: the `Box`
  class turned in place, `Placement`, the `Container` class filled level by
  level, the space-splitting functions as a `Splitter` value, and
  `firstSpacePlacement`.
- `BruteForce` (`brute_force.dfy`): the class `BruteForcePackager` with
  `rotate` (an in-place array loop), the rotation step, the sanity check and
  upfront filter loops, `fit2D` (recursive methods that add to the container,
  proved against the function `Fill`), the level loop and `pack`.

How the imperative parts are shaped:

- The work list `containerProducts` is a copy of the permutation from which
  only `remove(0)` ever takes boxes. The model therefore represents it as an
  index `at` into the permutation: the list is always `permutation[at..]`.
- `fit2D` is split into three mutually recursive methods along its two
  recursive calls: `Fit2D`, `FitHead` (after `remove(0)`) and `FitRemainder`
  (the remainder branch). They mirror the functions `Fill`, `FillHead` and
  `FillRemainder`.
- `pack` is split along its loops:
  - `Pack` is the permutation loop;
  - `TryRotations` is the `permutation:` loop;
  - `TryFit` is the `fit` block: the sanity check, then the level loop;
  - `StackLevels` is the level loop, and `StackLevel` one pass of it;
  - `NextRotation` is the do-while rotation step, made of `SeekRotation`
    (the counter part) and `TurnBox` (the turn).
- While an attempt runs no box is turned. The specification functions
  therefore read the boxes' extents from a ghost snapshot `sizes`, which
  `Sized` ties to the boxes.
- The unchecked `containerProducts.get(0)` in the remainder branch of
  `fit2D` throws IndexOutOfBoundsException when the list is empty. This is an
  explicit outcome: `ok == false` from `Fit2D`, `OutOfBounds` from an attempt,
  and `IndexOutOfBounds` from `Pack`.

Behaviours of the code a reader may not expect; the model follows the code:

- A digit advances while it is below 6 (or 2), so a digit takes 7 (or 3)
  values; the limit is inclusive, not a radix of 6.
- When no sibling space admits the head of the list, `fit2D` simply returns:
  the level ends and the next box opens a new level. The attempt is not
  aborted.
- The remainder branch does throw on an empty work list, as described above.
- With 3D rotation off, the digit limit is 2, but digit 1 is odd: the
  rotation step then turns a box with `rotate3D` or `rotate2D3D`, out of the
  plane, just as with 3D rotation on. The upfront filter of that mode
  (`canFitInside2D`) compares only the footprint and assumes the height stays
  as it is; the sanity check of each attempt still rejects a turned box that
  is too tall. `Pruning.PlanarLimitTurnsOutOfPlane` shows one such turn.

## Model

Source paths are relative to the repository root.

| member | source | states |
|---|---|---|
| Shapes.Turned | src/main/java/com/github/skjolberg/packing/BruteForcePackager.java:138-149 | each rotation primitive keeps the multiset of the three extents, and a cube stays a cube |
| Shapes.CanFitIsOrientationFree | src/main/java/com/github/skjolberg/packing/BruteForcePackager.java:29-39 | a box that fits as it stands passes the upfront filter in either mode; turning a box never changes the 3D verdict, and turning it about the vertical axis never changes the 2D verdict |
| Odometer.SuccessorExhausted | src/main/java/com/github/skjolberg/packing/BruteForcePackager.java:159-175 | the counter runs out exactly when every digit is at or above the limit |
| Odometer.SuccessorAdvanced | src/main/java/com/github/skjolberg/packing/BruteForcePackager.java:161-170 | an advance raises the lowest digit below the limit by one, zeroes every digit below it (all of them at or above the limit) and keeps every digit above it |
| Odometer.SuccessorLowest | src/main/java/com/github/skjolberg/packing/BruteForcePackager.java:161-170 | conversely, the lowest digit below the limit determines the advanced counter completely |
| Odometer.SuccessorIncreases | src/main/java/com/github/skjolberg/packing/BruteForcePackager.java:161-170 | an advance keeps digits inside any base above the limit and strictly raises the value; in base limit + 1 it raises it by exactly one |
| Odometer.RunFromZeros | src/main/java/com/github/skjolberg/packing/BruteForcePackager.java:159-175 | from all zeros, each of the first (limit+1)^n - 1 calls succeeds and leaves the vector whose value is the number of calls, every digit within 0..limit |
| Odometer.RunVisits | src/main/java/com/github/skjolberg/packing/BruteForcePackager.java:159-175 | every digit vector over 0..limit is reached from all zeros, after as many calls as its value |
| Odometer.RunDistinct | src/main/java/com/github/skjolberg/packing/BruteForcePackager.java:159-175 | no vector is visited twice |
| Odometer.RunEnds | src/main/java/com/github/skjolberg/packing/BruteForcePackager.java:159-175 | exactly (limit+1)^n - 1 calls succeed: the last one reaches every digit at the limit, and the next call returns -1 |
| Pruning.SearchOutcome | src/main/java/com/github/skjolberg/packing/BruteForcePackager.java:122-153 | the rotation step either runs the counter out (every digit at or above the limit) or turns exactly one box at an advanced digit; it never turns a cube; it turns a square footprint only out of the plane; the turn is 2D on an even digit, 3D on an odd digit for a square footprint, and 2D3D on any other odd digit; the counter's value only rises and every digit stays below 8 |
| Pruning.SkipSquare | src/main/java/com/github/skjolberg/packing/BruteForcePackager.java:131-136 | an even digit on a square footprint is bumped by one, and the step goes on from the bumped counter, whose value is higher |
| Pruning.SkipCube | src/main/java/com/github/skjolberg/packing/BruteForcePackager.java:140-144 | an odd digit on a cube is set to 6, even when the limit is 2, and the step goes on from there with a higher value |
| Pruning.TurnPass | src/main/java/com/github/skjolberg/packing/BruteForcePackager.java:129-152 | a pass that is not skipped ends the step with the turn the digit asks for, at the advanced index |
| Shapes.SquareShortcuts | src/main/java/com/github/skjolberg/packing/BruteForcePackager.java:131-150 | the shortcuts of the rotation step skip only idle turns: the turn about the vertical axis leaves a box unchanged exactly when its footprint is square; for a square footprint, and only then, `rotate3D` gives what `rotate2D3D` would; and a cube, and only a cube, is left unchanged by every turn |
| Pruning.PlanarLimitTurnsOutOfPlane | src/main/java/com/github/skjolberg/packing/BruteForcePackager.java:139-150 | with the 2D digit limit of 2, the first pass on a single 1×2×3 box advances its digit to 1 and turns it with `rotate2D3D`, which changes its height |
| Pruning.SkipRaises | src/main/java/com/github/skjolberg/packing/BruteForcePackager.java:134-142 | a bump or a jump keeps every digit below 8 and raises the value of the counter, which bounds the number of passes |
| Cargo.Box.Rotate2D | src/main/java/com/github/skjolberg/packing/BruteForcePackager.java:138 | the box's new extents are its old ones turned about the vertical axis |
| Cargo.Box.Rotate3D | src/main/java/com/github/skjolberg/packing/BruteForcePackager.java:147 | the box's new extents are its old ones turned out of the plane |
| Cargo.Box.Rotate2D3D | src/main/java/com/github/skjolberg/packing/BruteForcePackager.java:149 | the box's new extents are its old ones moved one axis along |
| Cargo.Container.Clear | src/main/java/com/github/skjolberg/packing/BruteForcePackager.java:91 | the container holds no level and its stack height is 0 |
| Cargo.Container.AddLevel | src/main/java/com/github/skjolberg/packing/BruteForcePackager.java:113 | an empty level is opened on top of the others, and the stack height is unchanged |
| Cargo.Container.Add | src/main/java/com/github/skjolberg/packing/BruteForcePackager.java:181 | the placement is appended to the current level, whose height becomes that of its tallest box; every lower level is unchanged |
| Cargo.FirstSpace | src/main/java/com/github/skjolberg/packing/BruteForcePackager.java:219-228 | the first present space, in array order, that a box of the given extents fits as it stands; none exactly when no space admits it |
| Cargo.FirstSpacePlacement | src/main/java/com/github/skjolberg/packing/BruteForcePackager.java:219-228 | a placement of the given box in the first present space it fits, in array order; none exactly when no such space exists |
| BruteForce.BruteForcePackager.Rotate | src/main/java/com/github/skjolberg/packing/BruteForcePackager.java:159-175 | the array is advanced in place exactly as `Successor` says: -1 with the array unchanged when it runs out, otherwise the advanced index with the advanced array |
| BruteForce.BruteForcePackager.SeekRotation | src/main/java/com/github/skjolberg/packing/BruteForcePackager.java:122-144 | the counter loop of the rotation step leaves the array as `Search` does and returns -1 exactly when `Search` runs out, else the index and the turn `Search` picks, with no box touched |
| BruteForce.BruteForcePackager.TurnBox | src/main/java/com/github/skjolberg/packing/BruteForcePackager.java:131-150 | the box is turned by the turn its digit asks for |
| BruteForce.BruteForcePackager.NextRotation | src/main/java/com/github/skjolberg/packing/BruteForcePackager.java:122-153 | the whole rotation step: the array as `Search` leaves it; -1 exactly when the counter runs out, with every box unchanged; otherwise the one box at the returned index is turned by the turn `Search` names, and every other box is unchanged |
| BruteForce.BruteForcePackager.FitsUpfront | src/main/java/com/github/skjolberg/packing/BruteForcePackager.java:29-39 | the filter passes exactly when every box can fit the container in some allowed orientation (any of six with 3D rotation on, else about the vertical axis) |
| BruteForce.BruteForcePackager.AllFitInside3D | src/main/java/com/github/skjolberg/packing/BruteForcePackager.java:84-89 | the sanity check passes exactly when every box fits the container as it stands |
| BruteForce.BruteForcePackager.Fill | src/main/java/com/github/skjolberg/packing/BruteForcePackager.java:177-217 | `fit2D` adds the given placement first; it takes boxes only from the front of the list; it leaves the list unchanged exactly when the list is empty or no sibling space admits the head; and a throw leaves the list empty |
| BruteForce.BruteForcePackager.FillHead | src/main/java/com/github/skjolberg/packing/BruteForcePackager.java:198-216 | once a space is found, the head is taken from the list, so at least one box is consumed |
| BruteForce.BruteForcePackager.FillRemainder | src/main/java/com/github/skjolberg/packing/BruteForcePackager.java:203-213 | the remainder branch takes boxes only from the front of the list and never past its end, and a throw leaves the list empty |
| BruteForce.BruteForcePackager.FillAccounts | src/main/java/com/github/skjolberg/packing/BruteForcePackager.java:177-217 | when `fit2D` runs to the end, it adds one placement more than the boxes it takes; the boxes placed are the given box and the boxes taken, each exactly once; and every box placed after the given one fits its space as it stands |
| BruteForce.BruteForcePackager.HeadAccounts | src/main/java/com/github/skjolberg/packing/BruteForcePackager.java:198-216 | after the head is taken, one placement per box taken, each box once, each fitting its space |
| BruteForce.BruteForcePackager.RemainderAccounts | src/main/java/com/github/skjolberg/packing/BruteForcePackager.java:203-213 | the remainder places one placement per box it takes, each box once, each fitting its space |
| BruteForce.BruteForcePackager.HeadOrder | src/main/java/com/github/skjolberg/packing/BruteForcePackager.java:200-216 | remainder first: when the box after the head fits a non-empty remainder, its placement comes before the head's placement; otherwise the head's placement comes first |
| BruteForce.Tallest | src/main/java/com/github/skjolberg/packing/BruteForcePackager.java:181 | the height a level reaches when placements are added: at least its height before, and at least the height of every box added |
| BruteForce.TallestAppend | src/main/java/com/github/skjolberg/packing/BruteForcePackager.java:177-217 | adding two runs of placements one after the other raises the level's height as adding them together does |
| BruteForce.LevelsDoNotOverlap | src/main/java/com/github/skjolberg/packing/BruteForcePackager.java:95-116 | in stacked levels every box is at most as tall as its level, and a higher level opens at or above the top of every lower one, so levels do not overlap |
| BruteForce.BruteForcePackager.Fit2D | src/main/java/com/github/skjolberg/packing/BruteForcePackager.java:177-217 | the method appends to the current level exactly the placements `Fill` names, in order, and raises the level's height to the tallest of its old height and the boxes added; it leaves the work list and the outcome as `Fill` does; lower levels and their heights are unchanged |
| BruteForce.BruteForcePackager.FitHead | src/main/java/com/github/skjolberg/packing/BruteForcePackager.java:198-216 | as `Fit2D`, against `FillHead` |
| BruteForce.BruteForcePackager.FitRemainder | src/main/java/com/github/skjolberg/packing/BruteForcePackager.java:203-213 | as `Fit2D`, against `FillRemainder` |
| BruteForce.BruteForcePackager.LevelStep | src/main/java/com/github/skjolberg/packing/BruteForcePackager.java:95-116 | a level filled by `fit2D` on top of stacked levels is exactly one new level holding what `Fill` adds, as high as its tallest box; it keeps the levels stacked, and the boxes placed are then the first `next` of the permutation, each once |
| BruteForce.BruteForcePackager.StackLevel | src/main/java/com/github/skjolberg/packing/BruteForcePackager.java:95-116 | one pass of the level loop: it fails exactly when the head of the list does not fit the free space above the stack; otherwise it leaves the list as `Fill` does from a level space anchored at (0, 0, stack height) with the container's footprint and the head's height, and when `fit2D` runs to the end the container holds the old levels plus exactly that level, as high as its tallest box; on success the boxes placed are a longer prefix of the permutation, each once, and the levels stay stacked |
| BruteForce.BruteForcePackager.StackLevels | src/main/java/com/github/skjolberg/packing/BruteForcePackager.java:95-116 | the level loop from an empty container: on success every box of the permutation is placed exactly once and the levels are stacked |
| BruteForce.BruteForcePackager.TryFit | src/main/java/com/github/skjolberg/packing/BruteForcePackager.java:83-120 | a successful attempt leaves a packing: every box fits the container as it stands, every box of the permutation is placed exactly once, each level is seeded at the height the levels below it reach and is as high as its tallest box (so levels do not overlap), and every other box fits its space |
| BruteForce.BruteForcePackager.TryRotations | src/main/java/com/github/skjolberg/packing/BruteForcePackager.java:61-154 | the rotation loop of one permutation ends in a packing of that permutation when it reports success, and uses up at most the deadline checks it was given |
| BruteForce.BruteForcePackager.Pack | src/main/java/com/github/skjolberg/packing/BruteForcePackager.java:28-157 | when some box fails the upfront filter, `pack` returns no container and turns no box; a returned container is fresh and holds a packing of one of the given permutations, and the upfront filter passed |

## Left out

- The wall-clock deadline (`System.currentTimeMillis()`): `polls` counts how
  many checks of the deadline find it not yet passed. Time only moves forward,
  so every check after those finds it passed.
- `PermutationIterator` from Apache Commons Collections: the permutations are
  a given sequence. `Pack` requires each of them to be a rearrangement of the
  boxes; the model does not prove that the sequence lists every permutation.
- Commented-out debug printing, the constructors, the `Packager` superclass
  and container selection, and the thread-safety remark.
- The geometry of `getFreespaces`, `Space.getRemainder` and `Space.isEmpty`
  (defined in files not part of this model). They are function values of a
  `Splitter`, and nothing is assumed about them.
- `Box`, `Dimension`, `Space`, `Placement` and `Container` are not part of
  this model. They are stand-ins holding the least the packer relies on:
  - the rotation primitives are fixed permutations of the extents;
  - a container's stack height is the sum of its level heights, and a
    level's height is that of its tallest box;
  - the container's remaining free space is the full footprint above that
    height;
  - `Container.add` validates nothing.
- Java `int` overflow: extents and stack heights are unbounded integers.
  Rotation digits never exceed 7, so they cannot overflow.
- The work list as a separate `ArrayList`: it is modelled as the index
  `at` into the permutation, which is what removing only from its front
  leaves.
- BruteForce.BruteForcePackager.Pack: states what a returned container
  satisfies and that a failed upfront filter returns no container. It does
  not state that "no fit" after the search means no tried combination fitted,
  nor which combinations were tried before the deadline.
- BruteForce.BruteForcePackager.TryRotations: states only what its success
  means, not which rotation combinations it tried before failing.
- BruteForce.BruteForcePackager.TryFit: states what success means. It does
  not characterise when an attempt fails (sanity check or free height) or
  throws; `StackLevel` states both for one pass of the level loop.
