/**
 * The rotation counter of the brute-force packer: an array with one digit per
 * box, advanced like an odometer whose least significant digit is at index 0.
 * A digit may advance while it is below the limit, so a digit ranges over
 * 0..limit inclusive (limit + 1 values).
 *
 * `Successor` is the specification of one call of `rotate`, written as the
 * usual carry recursion rather than as the loop; the lemmas below connect the
 * two views and prove that repeated calls from all zeros enumerate every digit
 * vector exactly once, in increasing mixed-radix value.
 */
module Odometer {
  import opened Wrappers

  /** The largest digit value: 6 when boxes may be turned in three dimensions, else 2. */
  function Limit(rotate3D: bool): nat
  {
    if rotate3D then 6 else 2
  }

  /** Result of advancing the counter once. */
  datatype Tick = Exhausted | Advanced(index: nat, digits: seq<int>)

  /** Advance the counter: the carry ripples past digits already at or above the limit. */
  function Successor(s: seq<int>, limit: int): Tick
  {
    if s == [] then Exhausted
    else if s[0] < limit then Advanced(0, [s[0] + 1] + s[1..])
    else match Successor(s[1..], limit)
      case Exhausted => Exhausted
      case Advanced(i, t) => Advanced(i + 1, [0] + t)
  }

  predicate AllAtLeast(s: seq<int>, limit: int)
  {
    forall k :: 0 <= k < |s| ==> s[k] >= limit
  }

  function Zeros(n: nat): seq<int>
  {
    seq(n, _ => 0)
  }

  /** The counter is exhausted exactly when every digit is at or above the limit. */
  lemma {:induction false} SuccessorExhausted(s: seq<int>, limit: int)
    ensures Successor(s, limit).Exhausted? <==> AllAtLeast(s, limit)
  {
    if s != [] && s[0] >= limit {
      SuccessorExhausted(s[1..], limit);
      assert AllAtLeast(s[1..], limit) <==> AllAtLeast(s, limit) by {
        assert forall k :: 1 <= k < |s| ==> s[k] == s[1..][k - 1];
      }
    }
  }

  /**
   * When the counter advances, it advances the lowest digit below the limit by
   * one, zeroes every digit below it and keeps every digit above it.
   */
  lemma {:induction false} SuccessorAdvanced(s: seq<int>, limit: int)
    requires Successor(s, limit).Advanced?
    ensures var Advanced(i, t) := Successor(s, limit);
      i < |s| && |t| == |s| && s[i] < limit && t[i] == s[i] + 1
      && (forall k :: 0 <= k < i ==> s[k] >= limit && t[k] == 0)
      && (forall k :: i < k < |s| ==> t[k] == s[k])
  {
    if s[0] >= limit {
      SuccessorAdvanced(s[1..], limit);
    }
  }

  /** Conversely, the lowest digit below the limit determines the advance. */
  lemma {:induction false} SuccessorLowest(s: seq<int>, limit: int, i: nat)
    requires i < |s| && s[i] < limit
    requires forall k :: 0 <= k < i ==> s[k] >= limit
    ensures Successor(s, limit) == Advanced(i, Zeros(i) + [s[i] + 1] + s[i + 1..])
  {
    if i > 0 {
      SuccessorLowest(s[1..], limit, i - 1);
      assert s[1..][i - 1 + 1..] == s[i + 1..];
      assert [0] + (Zeros(i - 1) + [s[i] + 1] + s[i + 1..]) == Zeros(i) + [s[i] + 1] + s[i + 1..];
    }
  }

  function Pow(b: nat, n: nat): nat
  {
    if n == 0 then 1 else b * Pow(b, n - 1)
  }

  /** Every digit lies in 0..base-1. */
  predicate Digits(s: seq<int>, base: nat)
  {
    forall k :: 0 <= k < |s| ==> 0 <= s[k] < base
  }

  /** The number a digit vector denotes in the given base, index 0 least significant. */
  function Value(s: seq<int>, base: nat): int
  {
    if s == [] then 0 else s[0] + base * Value(s[1..], base)
  }

  lemma {:induction false} ValueRange(s: seq<int>, base: nat)
    requires Digits(s, base)
    ensures 0 <= Value(s, base) < Pow(base, |s|)
  {
    if s != [] {
      ValueRange(s[1..], base);
      NextPlace(s[0], Value(s[1..], base), base, Pow(base, |s| - 1));
    }
  }

  /** One more digit below the base still fits the next power: d + b*v < b*p when v < p. */
  lemma NextPlace(d: int, v: int, b: nat, p: int)
    requires 0 <= d < b && 0 <= v < p
    ensures 0 <= d + b * v < b * p
  {
    assert b * v + b <= b * p by {
      MulLe(b, v + 1, p);
    }
  }

  lemma MulLe(a: nat, x: int, y: int)
    requires x <= y
    ensures a * x <= a * y
  {
  }

  /** Distinct digit vectors of one length denote distinct numbers. */
  lemma {:induction false} ValueInjective(s: seq<int>, t: seq<int>, base: nat)
    requires Digits(s, base) && Digits(t, base) && |s| == |t|
    requires Value(s, base) == Value(t, base)
    ensures s == t
  {
    if s != [] {
      DigitSplit(s[0], Value(s[1..], base), t[0], Value(t[1..], base), base);
      ValueInjective(s[1..], t[1..], base);
      assert s == [s[0]] + s[1..] && t == [t[0]] + t[1..];
    }
  }

  /** The lowest digit and the rest of a number are determined by it. */
  lemma DigitSplit(a: int, x: int, b: int, y: int, base: nat)
    requires 0 <= a < base && 0 <= b < base
    requires a + base * x == b + base * y
    ensures a == b && x == y
  {
    if x < y {
      MulLe(base, x + 1, y);
    } else if y < x {
      MulLe(base, y + 1, x);
    }
  }

  /** Raising digit i by c raises the value by c * base^i. */
  lemma {:induction false} ValueRaise(s: seq<int>, base: nat, i: nat, c: int)
    requires i < |s|
    ensures Value(s[i := s[i] + c], base) == Value(s, base) + c * Pow(base, i)
  {
    var t := s[i := s[i] + c];
    if i == 0 {
      assert t[1..] == s[1..];
    } else {
      ValueRaise(s[1..], base, i - 1, c);
      assert t[1..] == s[1..][i - 1 := s[1..][i - 1] + c];
      ShiftPlace(base, Value(s[1..], base), c, Pow(base, i - 1));
    }
  }

  /** One place up: base * (v + c * p) == base * v + c * (base * p). */
  lemma ShiftPlace(base: int, v: int, c: int, p: int)
    ensures base * (v + c * p) == base * v + c * (base * p)
  {
    calc {
      base * (v + c * p);
      base * v + base * (c * p);
      { MulSwap(base, c, p); }
      base * v + c * (base * p);
    }
  }

  lemma MulSwap(a: int, b: int, p: int)
    ensures a * (b * p) == b * (a * p)
  {
  }

  /**
   * An advance keeps every digit inside the base when the limit is, and strictly
   * raises the value; in base limit + 1 over digits 0..limit it raises it by one.
   */
  lemma {:induction false} SuccessorIncreases(s: seq<int>, limit: nat, base: nat)
    requires Digits(s, base) && limit < base
    requires Successor(s, limit).Advanced?
    ensures Digits(Successor(s, limit).digits, base)
    ensures Value(Successor(s, limit).digits, base) > Value(s, base)
    ensures base == limit + 1 ==> Value(Successor(s, limit).digits, base) == Value(s, base) + 1
  {
    var s' := s[1..];
    if s[0] < limit {
      assert ([s[0] + 1] + s')[1..] == s';
    } else {
      SuccessorIncreases(s', limit, base);
      var t := Successor(s', limit).digits;
      assert Successor(s, limit).digits == [0] + t;
      assert ([0] + t)[1..] == t;
      CarryValue(s[0], Value(s', base), Value(t, base), base, limit);
    }
  }

  /** A carry: the lowest digit drops to 0 and the rest of the number grows. */
  lemma CarryValue(d: int, vs: int, vt: int, base: nat, limit: nat)
    requires limit <= d < base && vs < vt
    ensures 0 + base * vt > d + base * vs
    ensures base == limit + 1 && vt == vs + 1 ==> 0 + base * vt == d + base * vs + 1
  {
    MulLe(base, vs + 1, vt);
  }

  lemma {:induction false} ValueZeros(n: nat, base: nat)
    ensures Digits(Zeros(n), base) || base == 0
    ensures Value(Zeros(n), base) == 0
  {
    if n > 0 {
      assert Zeros(n)[1..] == Zeros(n - 1);
      ValueZeros(n - 1, base);
    }
  }

  /** The vector with every digit at the limit denotes base^n - 1 in base limit + 1. */
  lemma {:induction false} ValueAllAtLimit(s: seq<int>, limit: nat)
    requires forall k :: 0 <= k < |s| ==> s[k] == limit
    ensures Value(s, limit + 1) == Pow(limit + 1, |s|) - 1
  {
    if s != [] {
      ValueAllAtLimit(s[1..], limit);
      var p: int := Pow(limit + 1, |s| - 1);
      assert (limit + 1) * (p - 1) == (limit + 1) * p - (limit + 1);
    }
  }

  /** The state of the counter after a number of calls of `rotate`; None once a call has failed. */
  function Run(s: seq<int>, limit: int, calls: nat): Option<seq<int>>
  {
    if calls == 0 then Some(s)
    else match Run(s, limit, calls - 1)
      case None => None
      case Some(v) =>
        match Successor(v, limit)
        case Exhausted => None
        case Advanced(_, t) => Some(t)
  }

  /**
   * Started from all zeros, the k-th call (k below (limit+1)^n) still succeeds and
   * leaves the counter at the digit vector whose value is k, every digit within
   * 0..limit.
   */
  lemma {:induction false} RunFromZeros(n: nat, limit: nat, k: nat)
    requires k < Pow(limit + 1, n)
    ensures Run(Zeros(n), limit, k).Some?
    ensures var v := Run(Zeros(n), limit, k).value;
      |v| == n && Digits(v, limit + 1) && Value(v, limit + 1) == k
  {
    if k == 0 {
      ValueZeros(n, limit + 1);
    } else {
      RunFromZeros(n, limit, k - 1);
      var v := Run(Zeros(n), limit, k - 1).value;
      SuccessorExhausted(v, limit);
      if Successor(v, limit).Exhausted? {
        ValueAllAtLimit(v, limit);
        assert false;
      }
      SuccessorAdvanced(v, limit);
      SuccessorIncreases(v, limit, limit + 1);
    }
  }

  /** Every digit vector in 0..limit is visited, after as many calls as its value. */
  lemma RunVisits(v: seq<int>, limit: nat)
    requires Digits(v, limit + 1)
    ensures Value(v, limit + 1) >= 0
    ensures Run(Zeros(|v|), limit, Value(v, limit + 1)) == Some(v)
  {
    ValueRange(v, limit + 1);
    var k := Value(v, limit + 1);
    RunFromZeros(|v|, limit, k);
    ValueInjective(Run(Zeros(|v|), limit, k).value, v, limit + 1);
  }

  /** No digit vector is visited twice. */
  lemma RunDistinct(n: nat, limit: nat, j: nat, k: nat)
    requires j < k < Pow(limit + 1, n)
    ensures Run(Zeros(n), limit, j).Some? && Run(Zeros(n), limit, k).Some?
    ensures Run(Zeros(n), limit, j) != Run(Zeros(n), limit, k)
  {
    RunFromZeros(n, limit, j);
    RunFromZeros(n, limit, k);
  }

  /**
   * Exactly (limit+1)^n - 1 calls succeed: the one after them finds every digit
   * at the limit and returns -1.
   */
  lemma RunEnds(n: nat, limit: nat)
    ensures Pow(limit + 1, n) >= 1
    ensures Run(Zeros(n), limit, Pow(limit + 1, n) - 1).Some?
    ensures var v := Run(Zeros(n), limit, Pow(limit + 1, n) - 1).value;
      |v| == n && (forall k :: 0 <= k < n ==> v[k] == limit) && Successor(v, limit).Exhausted?
    ensures Run(Zeros(n), limit, Pow(limit + 1, n)) == None
  {
    PowPositive(limit + 1, n);
    var last := Pow(limit + 1, n) - 1;
    RunFromZeros(n, limit, last);
    var v := Run(Zeros(n), limit, last).value;
    var top := seq(n, _ => limit);
    ValueAllAtLimit(top, limit);
    ValueInjective(v, top, limit + 1);
    SuccessorExhausted(v, limit);
  }

  lemma {:induction false} PowPositive(b: nat, n: nat)
    requires b > 0
    ensures Pow(b, n) > 0
  {
    if n > 0 {
      PowPositive(b, n - 1);
    }
  }
}
