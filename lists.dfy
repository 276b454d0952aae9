/** Generic facts about lists used by the store and the backfill loops. */
module Lists {

  /** The lists joined end to end (`for x in xs: result.extend(x)`). */
  function Flatten<T>(xs: seq<seq<T>>): (r: seq<T>)
    ensures xs == [] ==> r == []
  {
    if xs == [] then [] else Flatten(xs[..|xs| - 1]) + xs[|xs| - 1]
  }

  lemma FlattenStep<T>(xs: seq<seq<T>>, k: nat)
    requires k < |xs|
    ensures Flatten(xs[..k + 1]) == Flatten(xs[..k]) + xs[k]
  {
    assert xs[..k + 1][..k] == xs[..k];
  }

  /** An element of the joined list comes from one of the lists, and every element of every list is in it. */
  lemma {:induction false} FlattenContents<T>(xs: seq<seq<T>>, x: T)
    ensures x in Flatten(xs) <==> exists k :: 0 <= k < |xs| && x in xs[k]
  {
    if xs != [] {
      var init := xs[..|xs| - 1];
      FlattenContents(init, x);
      if x in Flatten(xs) && x in Flatten(init) {
        var k :| 0 <= k < |init| && x in init[k];
        assert xs[k] == init[k];
      }
      if exists k :: 0 <= k < |xs| && x in xs[k] {
        var k :| 0 <= k < |xs| && x in xs[k];
        if k < |init| {
          assert init[k] == xs[k];
        }
      }
    }
  }

  lemma {:induction false} FlattenLength<T>(xs: seq<seq<T>>, bound: nat)
    requires forall k :: 0 <= k < |xs| ==> |xs[k]| <= bound
    ensures |Flatten(xs)| <= bound * |xs|
  {
    if xs != [] {
      FlattenLength(xs[..|xs| - 1], bound);
    }
  }

  /** Lists that are permutations of each other hold the same elements. */
  lemma SameMembers<T>(a: seq<T>, b: seq<T>)
    requires multiset(a) == multiset(b)
    ensures forall x :: x in a <==> x in b
  {
    forall x ensures x in a <==> x in b {
      assert x in a <==> x in multiset(a);
      assert x in b <==> x in multiset(b);
    }
  }

  /** The lists `f(lo)`, `f(lo + 1)`, ..., `f(lo + n - 1)` joined in that order: a walk over `n` periods. */
  function Walk<T>(lo: int, n: nat, f: int -> seq<T>): seq<T> {
    if n == 0 then [] else Walk(lo, n - 1, f) + f(lo + n - 1)
  }

  /** An element of the walk comes from one of its periods, and every period's elements are in it. */
  lemma {:induction false} WalkContents<T>(lo: int, n: nat, f: int -> seq<T>, x: T)
    ensures x in Walk(lo, n, f) <==> exists i :: lo <= i < lo + n && x in f(i)
  {
    if n > 0 {
      WalkContents(lo, n - 1, f, x);
    }
  }

  /** A walk whose periods give at most `bound` elements each has at most `bound * n`. */
  lemma {:induction false} WalkLength<T>(lo: int, n: nat, f: int -> seq<T>, bound: nat)
    requires forall i :: lo <= i < lo + n ==> |f(i)| <= bound
    ensures |Walk(lo, n, f)| <= bound * n
  {
    if n > 0 {
      WalkLength(lo, n - 1, f, bound);
    }
  }

  /** A walk whose period `i` gives nothing or `[i]` lists strictly increasing indices of its range. */
  lemma {:induction false} WalkIncreasing(lo: int, n: nat, f: int -> seq<int>)
    requires forall i :: lo <= i < lo + n ==> f(i) == [] || f(i) == [i]
    ensures forall a :: 0 <= a < |Walk(lo, n, f)| ==> lo <= Walk(lo, n, f)[a] < lo + n
    ensures forall a, b :: 0 <= a < b < |Walk(lo, n, f)| ==> Walk(lo, n, f)[a] < Walk(lo, n, f)[b]
  {
    if n > 0 {
      WalkIncreasing(lo, n - 1, f);
      var w := Walk(lo, n - 1, f);
      assert Walk(lo, n, f) == w + f(lo + n - 1);
    }
  }

  /**
   * Two walks over the same periods, where period `i` gives as many
   * elements to the first as the second, and the second gives nothing or
   * `[i]`: each element of the first is paired with its period.
   */
  lemma {:induction false} WalkAligned<T>(lo: int, n: nat, f: int -> seq<T>, g: int -> seq<int>, ok: (T, int) -> bool)
    requires forall i :: lo <= i < lo + n ==> |f(i)| == |g(i)| && (g(i) == [] || g(i) == [i]) && (f(i) != [] ==> ok(f(i)[0], i))
    ensures |Walk(lo, n, f)| == |Walk(lo, n, g)|
    ensures forall j :: 0 <= j < |Walk(lo, n, f)| ==> ok(Walk(lo, n, f)[j], Walk(lo, n, g)[j])
  {
    if n > 0 {
      WalkAligned(lo, n - 1, f, g, ok);
      var i := lo + n - 1;
      assert Walk(lo, n, f) == Walk(lo, n - 1, f) + f(i);
      assert Walk(lo, n, g) == Walk(lo, n - 1, g) + g(i);
    }
  }

  /** The positions where a list of flags is true. */
  function Positions(marks: seq<bool>): set<nat> {
    set i: nat | i < |marks| && marks[i]
  }

  /** One more flag adds its position exactly when it is true. */
  lemma PositionsStep(marks: seq<bool>)
    requires marks != []
    ensures |Positions(marks)| == |Positions(marks[..|marks| - 1])| + (if marks[|marks| - 1] then 1 else 0)
  {
    var n := |marks| - 1;
    var before := Positions(marks[..n]);
    assert n !in before;
    if marks[n] {
      assert Positions(marks) == before + {n};
    } else {
      assert Positions(marks) == before;
    }
  }
}
