/** Unrolling a circular sequence number into a total order
    (kyproto/src/protocol/driver/util/seq.rs). The circular range is `2 * half`. */
module Sequencer {

  /** `n` with the bits below `range` cleared. */
  function Floor(n: nat, range: nat): (b: nat)
    requires 0 < range
    ensures b <= n < b + range
  {
    DivMod(n, range);
    n / range * range
  }

  lemma DivMod(n: nat, range: nat)
    requires 0 < range
    ensures n == n / range * range + n % range && 0 <= n % range < range
  {}

  /** The unrolled number for `value`, judged against the newest one seen. */
  function Unroll(half: nat, newest: nat, value: nat): nat
    requires 0 < half && value < 2 * half
  {
    var range := 2 * half;
    var s := Floor(newest, range) + value;
    if newest >= s + half then s + range
    else if s > newest + half && s >= range then s - range
    else s
  }

  function Newest(newest: nat, s: nat): nat {
    if s > newest then s else newest
  }

  /** A counter whose numbers are unrolled one by one, as they arrive. */
  class Unroller {
    const half: nat
    var newest: nat

    constructor (half: nat)
      ensures this.half == half && newest == 0
    {
      this.half := half;
      newest := 0;
    }

    method Seq(value: nat) returns (s: nat)
      requires 0 < half && value < 2 * half
      modifies this
      ensures s == Unroll(half, old(newest), value)
      ensures newest == Newest(old(newest), s)
    {
      var range := 2 * half;
      s := Floor(newest, range) + value;
      if newest >= s + half {
        s := s + range;
      } else if s > newest + half && s >= range {
        s := s - range;
      }
      if s > newest {
        newest := s;
      }
    }
  }

  /** Within half a range of the newest number: strictly on the past side. */
  predicate InWindow(half: nat, newest: nat, t: int) {
    newest - half < t <= newest + half
  }

  /** `m` whole turns of the circle. */
  function Turns(half: nat, m: int): int {
    m * (2 * half)
  }

  /** Apart by whole turns. */
  ghost predicate Congruent(half: nat, a: int, b: int) {
    exists m: int :: a == b + Turns(half, m)
  }

  lemma TurnsApart(half: nat, m: int, n: int)
    ensures Turns(half, m) - Turns(half, n) == Turns(half, m - n)
    ensures m >= 1 ==> Turns(half, m) >= 2 * half
    ensures m <= -1 ==> Turns(half, m) <= -2 * half
  {
    assert m >= 1 ==> (m - 1) * (2 * half) >= 0;
    assert m <= -1 ==> (-m - 1) * (2 * half) >= 0;
  }

  /** Two congruent numbers less than a turn apart are the same number. */
  lemma CloseCongruentEqual(half: nat, a: int, b: int)
    requires Congruent(half, a, b) && -2 * half < a - b < 2 * half
    ensures a == b
  {
    var m :| a == b + Turns(half, m);
    TurnsApart(half, m, 0);
  }

  lemma CongruentVia(half: nat, a: int, b: int, c: int)
    requires Congruent(half, a, c) && Congruent(half, b, c)
    ensures Congruent(half, a, b)
  {
    var m :| a == c + Turns(half, m);
    var n :| b == c + Turns(half, n);
    TurnsApart(half, m, n);
    assert a == b + Turns(half, m - n);
  }

  lemma CongruentShift(half: nat, a: int, b: int)
    requires Congruent(half, a, b)
    ensures Congruent(half, a - 2 * half, b)
  {
    var m :| a == b + Turns(half, m);
    TurnsApart(half, m, 1);
    assert Turns(half, 1) == 2 * half;
    assert a - 2 * half == b + Turns(half, m - 1);
  }

  lemma RemainderCongruent(half: nat, t: nat)
    requires 0 < half
    ensures t % (2 * half) < 2 * half && Congruent(half, t, t % (2 * half))
  {
    DivMod(t, 2 * half);
    assert t == t % (2 * half) + Turns(half, t / (2 * half));
  }

  lemma FloorCongruent(half: nat, newest: nat, value: nat)
    requires 0 < half
    ensures Congruent(half, Floor(newest, 2 * half) + value, value)
    ensures Congruent(half, Floor(newest, 2 * half) + value + 2 * half, value)
    ensures Congruent(half, Floor(newest, 2 * half) + value - 2 * half, value)
  {
    var q := newest / (2 * half);
    var s := Floor(newest, 2 * half) + value;
    assert s == value + Turns(half, q);
    TurnsApart(half, q, -1);
    assert Turns(half, -1) == -2 * half;
    assert s + 2 * half == value + Turns(half, q + 1);
    CongruentShift(half, s, value);
  }

  /** The result is congruent to the input. It is the one such number in the window, or a full
      turn above it when that number would be negative. */
  lemma UnrollIsNearest(half: nat, newest: nat, value: nat)
    requires 0 < half && value < 2 * half
    ensures var r := Unroll(half, newest, value);
            && Congruent(half, r, value)
            && (InWindow(half, newest, r) || (InWindow(half, newest, r - 2 * half) && r < 2 * half))
  {
    FloorCongruent(half, newest, value);
  }

  /** Unrolling the remainder of a number gives the number back exactly when it lies in the
      window, or lies above the window while its past alternative would be negative. */
  lemma UnrollExactIff(half: nat, newest: nat, t: nat)
    requires 0 < half
    ensures t % (2 * half) < 2 * half
    ensures Unroll(half, newest, t % (2 * half)) == t <==>
            InWindow(half, newest, t) || newest + half < t < 2 * half
  {
    RemainderCongruent(half, t);
    NearestIsExact(half, newest, t % (2 * half), t);
  }

  lemma NearestIsExact(half: nat, newest: nat, value: nat, t: nat)
    requires 0 < half && value < 2 * half && Congruent(half, t, value)
    ensures Unroll(half, newest, value) == t <==> InWindow(half, newest, t) || newest + half < t < 2 * half
  {
    var r := Unroll(half, newest, value);
    UnrollIsNearest(half, newest, value);
    CongruentVia(half, r, t, value);
    CongruentVia(half, t, r, value);
    CongruentShift(half, r, t);
    CongruentShift(half, t, r);
    if InWindow(half, newest, t) && InWindow(half, newest, r) {
      CloseCongruentEqual(half, r, t);
    } else if InWindow(half, newest, t) {
      CloseCongruentEqual(half, r - 2 * half, t);
      assert false;
    } else if newest + half < t < 2 * half && InWindow(half, newest, r) {
      CloseCongruentEqual(half, t - 2 * half, r);
      assert false;
    } else if newest + half < t < 2 * half {
      CloseCongruentEqual(half, r, t);
    }
  }

  // ----- Whole runs

  function UnrollAll(half: nat, newest: nat, values: seq<nat>): seq<nat>
    requires 0 < half && forall i | 0 <= i < |values| :: values[i] < 2 * half
    decreases |values|
  {
    if values == [] then []
    else
      var s := Unroll(half, newest, values[0]);
      [s] + UnrollAll(half, Newest(newest, s), values[1..])
  }

  function Remainders(half: nat, ts: seq<nat>): (vs: seq<nat>)
    requires 0 < half
    ensures |vs| == |ts| && forall i | 0 <= i < |vs| :: vs[i] < 2 * half
  {
    if ts == [] then [] else RemainderCongruent(half, ts[0]); [ts[0] % (2 * half)] + Remainders(half, ts[1..])
  }

  /** Every number lies in the window around the newest one before it. */
  ghost predicate Follows(half: nat, newest: nat, ts: seq<nat>)
    decreases |ts|
  {
    ts == [] || (InWindow(half, newest, ts[0]) && Follows(half, Newest(newest, ts[0]), ts[1..]))
  }

  /** A run of numbers that stays in the window is recovered, number by number. */
  lemma {:induction false} RunRecovered(half: nat, newest: nat, ts: seq<nat>)
    requires 0 < half && Follows(half, newest, ts)
    ensures UnrollAll(half, newest, Remainders(half, ts)) == ts
    decreases |ts|
  {
    if ts != [] {
      UnrollExactIff(half, newest, ts[0]);
      RunRecovered(half, Newest(newest, ts[0]), ts[1..]);
      assert Remainders(half, ts)[1..] == Remainders(half, ts[1..]);
      assert ts == [ts[0]] + ts[1..];
    }
  }

  /** One call moves the newest number by at most half a range, or into the first range: so
      64-bit numbers do not overflow for as many calls as there are half ranges in 2^64. */
  lemma {:induction false} NewestBound(half: nat, values: seq<nat>, newest: nat, calls: nat)
    requires 0 < half && forall i | 0 <= i < |values| :: values[i] < 2 * half
    requires newest < 2 * half + calls * half
    ensures forall s | s in UnrollAll(half, newest, values) :: s < 2 * half + (calls + |values|) * half
    decreases |values|
  {
    if values != [] {
      var s := Unroll(half, newest, values[0]);
      UnrollIsNearest(half, newest, values[0]);
      assert (calls + 1) * half == calls * half + half;
      NewestBound(half, values[1..], Newest(newest, s), calls + 1);
      assert (calls + 1) + |values[1..]| == calls + |values|;
      assert (calls + 1) * half <= (calls + |values|) * half;
    }
  }
}
