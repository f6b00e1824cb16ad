/**
 * Threshold classifiers. Every colour, icon, suggestion and severity band in the
 * application picks one of several labels by comparing a number against an
 * increasing list of cut points; the functions here count how many cut points a
 * value has passed, which is the reference the individual classifiers are
 * proved against.
 */
module Bands {

  /** The cut points are strictly increasing. */
  ghost predicate Increasing(cuts: seq<real>) {
    forall i, j :: 0 <= i < j < |cuts| ==> cuts[i] < cuts[j]
  }

  /** Number of cut points `c` with `c <= x`: the band of `x` when each test is a strict `x < c`. */
  function Reached(cuts: seq<real>, x: real): (n: nat)
    ensures n <= |cuts|
  {
    if cuts == [] then 0
    else (if cuts[0] <= x then 1 else 0) + Reached(cuts[1..], x)
  }

  /** Number of cut points `c` with `c < x`: the band of `x` when each test is a strict `x > c`. */
  function Exceeded(cuts: seq<real>, x: real): (n: nat)
    ensures n <= |cuts|
  {
    if cuts == [] then 0
    else (if cuts[0] < x then 1 else 0) + Exceeded(cuts[1..], x)
  }

  /** A larger value never falls in a lower band (for `<` tests). */
  lemma {:induction false} ReachedMonotone(cuts: seq<real>, x: real, y: real)
    requires x <= y
    ensures Reached(cuts, x) <= Reached(cuts, y)
  {
    if cuts != [] {
      ReachedMonotone(cuts[1..], x, y);
    }
  }

  /** A larger value never falls in a lower band (for `>` tests). */
  lemma {:induction false} ExceededMonotone(cuts: seq<real>, x: real, y: real)
    requires x <= y
    ensures Exceeded(cuts, x) <= Exceeded(cuts, y)
  {
    if cuts != [] {
      ExceededMonotone(cuts[1..], x, y);
    }
  }

  /**
   * With increasing cut points, `x` is in band `k` (for `<` tests) exactly when it
   * lies in the half-open interval between cut point `k - 1` and cut point `k`.
   */
  lemma {:induction false} ReachedInterval(cuts: seq<real>, x: real, k: nat)
    requires Increasing(cuts) && k <= |cuts|
    ensures Reached(cuts, x) == k <==>
      (k == 0 || cuts[k - 1] <= x) && (k == |cuts| || x < cuts[k])
  {
    if cuts != [] {
      var rest := cuts[1..];
      assert Increasing(rest) by {
        forall i, j | 0 <= i < j < |rest| ensures rest[i] < rest[j] {
          assert rest[i] == cuts[i + 1] && rest[j] == cuts[j + 1];
        }
      }
      if k == 0 {
        ReachedInterval(rest, x, 0);
        if x < cuts[0] {
          ReachedMonotone(rest, x, cuts[0]);
          ReachedInterval(rest, cuts[0], 0);
          if rest != [] {
            assert cuts[0] < rest[0];
          }
        }
      } else {
        ReachedInterval(rest, x, k - 1);
        if cuts[0] > x {
          ReachedInterval(rest, x, 0);
          if rest != [] {
            assert cuts[0] < rest[0];
          }
        }
        if k >= 2 {
          assert rest[k - 2] == cuts[k - 1];
          assert cuts[0] < cuts[k - 1];
        }
        if k < |cuts| {
          assert rest[k - 1] == cuts[k];
        }
      }
    }
  }

  /** `Reached` on two cut points, written out. */
  lemma Reached2(a: real, b: real, x: real)
    ensures Reached([a, b], x) == (if a <= x then 1 else 0) + (if b <= x then 1 else 0)
  {
    assert [a, b][1..] == [b] && [b][1..] == [];
  }

  /** `Reached` on three cut points, written out. */
  lemma Reached3(a: real, b: real, c: real, x: real)
    ensures Reached([a, b, c], x) == (if a <= x then 1 else 0) + (if b <= x then 1 else 0) + (if c <= x then 1 else 0)
  {
    assert [a, b, c][1..] == [b, c];
    Reached2(b, c, x);
  }

  /** `Exceeded` on two cut points, written out. */
  lemma Exceeded2(a: real, b: real, x: real)
    ensures Exceeded([a, b], x) == (if a < x then 1 else 0) + (if b < x then 1 else 0)
  {
    assert [a, b][1..] == [b] && [b][1..] == [];
  }

  /** `Exceeded` on three cut points, written out. */
  lemma Exceeded3(a: real, b: real, c: real, x: real)
    ensures Exceeded([a, b, c], x) == (if a < x then 1 else 0) + (if b < x then 1 else 0) + (if c < x then 1 else 0)
  {
    assert [a, b, c][1..] == [b, c];
    Exceeded2(b, c, x);
  }
}
