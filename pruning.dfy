/**
 * The rotation step of `pack`: advance the counter, then turn the box at the
 * advanced digit, skipping the turns that would reproduce a state already
 * tried. An even digit asks for a turn about the vertical axis, which a box
 * with a square footprint does not need: the digit is bumped past it and the
 * counter advanced again. An odd digit asks for a turn out of the plane; a cube
 * needs none, so its digit jumps to 6 and the counter advances again.
 *
 * Bumps and jumps can carry a digit past the limit (to limit + 1, or to 6 when
 * the limit is 2), but never past 7, so the state is a vector of digits below
 * 8 whose base-8 value rises at every pass; that value is the termination
 * measure of the repeated passes.
 */
module Pruning {
  import opened Shapes
  import opened Odometer

  /** Outcome of the rotation step: the counter ran out, or one box is turned. */
  datatype Step = Done(digits: seq<int>) | Rotated(index: nat, turn: Turn, digits: seq<int>)

  /**
   * The rotation step on counter `digits` for boxes whose current extents are
   * `shapes`, one per digit; the boxes do not change until the final turn.
   */
  function Search(digits: seq<int>, shapes: seq<Dimension>, limit: nat): Step
    requires |shapes| == |digits| && Digits(digits, 8) && limit <= 6
    decreases Pow(8, |digits|) - Value(digits, 8)
  {
    ValueRange(digits, 8);
    match Successor(digits, limit)
    case Exhausted => Done(digits)
    case Advanced(i, t) =>
      SuccessorAdvanced(digits, limit);
      SuccessorIncreases(digits, limit, 8);
      if t[i] % 2 == 0 then
        if IsSquare2D(shapes[i]) then
          SkipRaises(t, i, 1);
          Search(t[i := t[i] + 1], shapes, limit)
        else Rotated(i, TwoD, t)
      else if IsSquare3D(shapes[i]) then
        SkipRaises(t, i, 6 - t[i]);
        assert t[i := t[i] + (6 - t[i])] == t[i := 6];
        Search(t[i := 6], shapes, limit)
      else if IsSquare2D(shapes[i]) then Rotated(i, ThreeD, t)
      else Rotated(i, TwoDThreeD, t)
  }

  /**
   * What the rotation step achieves. It ends with the counter exhausted, or it
   * turns exactly one box: by a turn about the vertical axis on an even digit
   * (never for a square footprint), by `ThreeD` on an odd digit for a square
   * footprint, and by `TwoDThreeD` on an odd digit otherwise; a cube is never
   * turned. Either way the counter never goes back: its value strictly rises
   * when a box is turned, and every digit stays below 8.
   */
  lemma {:induction false} SearchOutcome(digits: seq<int>, shapes: seq<Dimension>, limit: nat)
    requires |shapes| == |digits| && Digits(digits, 8) && limit <= 6
    ensures var step := Search(digits, shapes, limit);
      |step.digits| == |digits| && Digits(step.digits, 8) && Value(step.digits, 8) >= Value(digits, 8)
    ensures Search(digits, shapes, limit).Done? ==> AllAtLeast(Search(digits, shapes, limit).digits, limit)
    ensures match Search(digits, shapes, limit)
      case Done(_) => true
      case Rotated(i, turn, t) =>
        i < |digits| && Value(t, 8) > Value(digits, 8) && 1 <= t[i] <= limit
        && (forall k :: 0 <= k < i ==> t[k] == 0)
        && !IsSquare3D(shapes[i])
        && (turn == TwoD <==> t[i] % 2 == 0)
        && (turn == TwoD ==> !IsSquare2D(shapes[i]))
        && (turn == ThreeD <==> t[i] % 2 == 1 && IsSquare2D(shapes[i]))
        && (turn == TwoDThreeD <==> t[i] % 2 == 1 && !IsSquare2D(shapes[i]))
    decreases Pow(8, |digits|) - Value(digits, 8)
  {
    ValueRange(digits, 8);
    SuccessorExhausted(digits, limit);
    match Successor(digits, limit)
    case Exhausted =>
    case Advanced(i, t) =>
      SuccessorAdvanced(digits, limit);
      if t[i] % 2 == 0 && IsSquare2D(shapes[i]) {
        SkipSquare(digits, shapes, limit, i, t);
        SearchOutcome(t[i := t[i] + 1], shapes, limit);
      } else if t[i] % 2 == 1 && IsSquare3D(shapes[i]) {
        SkipCube(digits, shapes, limit, i, t);
        SearchOutcome(t[i := 6], shapes, limit);
      } else {
        TurnPass(digits, shapes, limit, i, t);
        SuccessorIncreases(digits, limit, 8);
      }
  }

  /** Bumping or jumping digit i upwards, within the base, raises the value. */
  lemma SkipRaises(t: seq<int>, i: nat, c: int)
    requires Digits(t, 8) && i < |t| && 1 <= c && t[i] + c < 8
    ensures Digits(t[i := t[i] + c], 8)
    ensures Value(t, 8) < Value(t[i := t[i] + c], 8) < Pow(8, |t|)
  {
    ValueRaise(t, 8, i, c);
    PowPositive(8, i);
    MulLe(Pow(8, i), 1, c);
    ValueRange(t[i := t[i] + c], 8);
  }

  /** The turn an advanced digit asks of a box that is not skipped. */
  function WantedTurn(digit: int, shape: Dimension): Turn
  {
    if digit % 2 == 0 then TwoD else if IsSquare2D(shape) then ThreeD else TwoDThreeD
  }

  /**
   * A pass of the rotation step that skips the turn about the vertical axis
   * of a square footprint: the search goes on from the bumped counter, whose
   * value is higher and still below 8^n.
   */
  lemma SkipSquare(digits: seq<int>, shapes: seq<Dimension>, limit: nat, i: nat, t: seq<int>)
    requires |shapes| == |digits| && Digits(digits, 8) && limit <= 6
    requires Successor(digits, limit) == Advanced(i, t) && i < |t| == |digits|
    requires t[i] % 2 == 0 && IsSquare2D(shapes[i])
    ensures var u := t[i := t[i] + 1];
      Digits(u, 8) && Value(digits, 8) < Value(u, 8) < Pow(8, |u|)
      && Search(digits, shapes, limit) == Search(u, shapes, limit)
  {
    SuccessorAdvanced(digits, limit);
    SuccessorIncreases(digits, limit, 8);
    SkipRaises(t, i, 1);
  }

  /**
   * A pass of the rotation step that skips every turn of a cube: the search
   * goes on from the counter with the digit jumped to 6, whose value is higher
   * and still below 8^n.
   */
  lemma SkipCube(digits: seq<int>, shapes: seq<Dimension>, limit: nat, i: nat, t: seq<int>)
    requires |shapes| == |digits| && Digits(digits, 8) && limit <= 6
    requires Successor(digits, limit) == Advanced(i, t) && i < |t| == |digits|
    requires t[i] % 2 == 1 && IsSquare3D(shapes[i])
    ensures var u := t[i := 6];
      Digits(u, 8) && Value(digits, 8) < Value(u, 8) < Pow(8, |u|)
      && Search(digits, shapes, limit) == Search(u, shapes, limit)
  {
    SuccessorAdvanced(digits, limit);
    SuccessorIncreases(digits, limit, 8);
    SkipRaises(t, i, 6 - t[i]);
    assert t[i := t[i] + (6 - t[i])] == t[i := 6];
  }

  /** A pass of the rotation step that does not skip ends it with the turn the digit asks for. */
  lemma TurnPass(digits: seq<int>, shapes: seq<Dimension>, limit: nat, i: nat, t: seq<int>)
    requires |shapes| == |digits| && Digits(digits, 8) && limit <= 6
    requires Successor(digits, limit) == Advanced(i, t) && i < |t| == |digits|
    requires !(t[i] % 2 == 0 && IsSquare2D(shapes[i])) && !(t[i] % 2 == 1 && IsSquare3D(shapes[i]))
    ensures Digits(t, 8)
    ensures Search(digits, shapes, limit) == Rotated(i, WantedTurn(t[i], shapes[i]), t)
  {
    SuccessorAdvanced(digits, limit);
    SuccessorIncreases(digits, limit, 8);
  }

  /**
   * With turns out of the plane switched off (limit 2), digit 1 is still odd:
   * the first pass on a box with a footprint that is not square turns it out
   * of the plane, and its height changes.
   */
  lemma PlanarLimitTurnsOutOfPlane()
    ensures Search([0], [Dimension(1, 2, 3)], 2) == Rotated(0, TwoDThreeD, [1])
    ensures Turned(Dimension(1, 2, 3), TwoDThreeD).height != Dimension(1, 2, 3).height
  {
    assert Successor([0], 2) == Advanced(0, [1]) by {
      assert [0 + 1] + [0][1..] == [1];
    }
  }
}
