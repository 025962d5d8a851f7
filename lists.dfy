/**
 * The two list operations the dashboard's selection handlers share:
 * `prev.filter(id => id !== x)` and `[...prev, x]`, together with the
 * facts about them that the toggle handlers rely on.
 */
module Lists {

  /** `xs.filter(y => y !== x)`: every occurrence of `x` dropped, the rest in order. */
  function Remove<T(==,!new)>(xs: seq<T>, x: T): (r: seq<T>)
    ensures forall y :: y in r <==> y in xs && y != x
    ensures |r| <= |xs|
  {
    if xs == [] then []
    else (if xs[0] == x then [] else [xs[0]]) + Remove(xs[1..], x)
  }

  /** No value occurs twice. */
  predicate NoDuplicates<T(==)>(xs: seq<T>) {
    forall i, j :: 0 <= i < j < |xs| ==> xs[i] != xs[j]
  }

  /** Filtering distributes over concatenation. */
  lemma {:induction false} RemoveAppend<T(!new)>(a: seq<T>, b: seq<T>, x: T)
    ensures Remove(a + b, x) == Remove(a, x) + Remove(b, x)
  {
    if a == [] {
      assert a + b == b;
    } else {
      assert (a + b)[1..] == a[1..] + b;
      RemoveAppend(a[1..], b, x);
    }
  }

  /** Filtering out a value that does not occur returns the very same list. */
  lemma {:induction false} RemoveAbsent<T(!new)>(xs: seq<T>, x: T)
    requires x !in xs
    ensures Remove(xs, x) == xs
  {
    if xs != [] {
      RemoveAbsent(xs[1..], x);
      assert [xs[0]] + xs[1..] == xs;
    }
  }

  /** Appending a fresh value and then filtering it out restores the list exactly. */
  lemma AppendThenRemove<T(!new)>(xs: seq<T>, x: T)
    requires x !in xs
    ensures Remove(xs + [x], x) == xs
  {
    RemoveAppend(xs, [x], x);
    RemoveAbsent(xs, x);
    assert Remove([x], x) == [] by {
      assert [x][1..] == [];
    }
  }

  /** Filtering keeps a duplicate-free list duplicate-free. */
  lemma {:induction false} RemoveKeepsNoDuplicates<T(!new)>(xs: seq<T>, x: T)
    requires NoDuplicates(xs)
    ensures NoDuplicates(Remove(xs, x))
  {
    if xs != [] {
      assert NoDuplicates(xs[1..]) by {
        forall i, j | 0 <= i < j < |xs[1..]| ensures xs[1..][i] != xs[1..][j] {
          assert xs[1..][i] == xs[i + 1] && xs[1..][j] == xs[j + 1];
        }
      }
      RemoveKeepsNoDuplicates(xs[1..], x);
      assert xs[0] !in xs[1..] by {
        forall k | 0 <= k < |xs[1..]| ensures xs[1..][k] != xs[0] {
          assert xs[1..][k] == xs[k + 1];
        }
      }
      var rest := Remove(xs[1..], x);
      var head: seq<T> := if xs[0] == x then [] else [xs[0]];
      forall i, j | 0 <= i < j < |head + rest| ensures (head + rest)[i] != (head + rest)[j] {
        if i < |head| {
          assert (head + rest)[i] == xs[0];
          assert (head + rest)[j] == rest[j - |head|];
          assert rest[j - |head|] in rest;
        } else {
          assert (head + rest)[i] == rest[i - |head|];
          assert (head + rest)[j] == rest[j - |head|];
        }
      }
    }
  }

  /** Appending a value that does not occur keeps a list duplicate-free. */
  lemma AppendKeepsNoDuplicates<T>(xs: seq<T>, x: T)
    requires NoDuplicates(xs) && x !in xs
    ensures NoDuplicates(xs + [x])
  {
    forall i, j | 0 <= i < j < |xs + [x]| ensures (xs + [x])[i] != (xs + [x])[j] {
      if j == |xs| {
        assert (xs + [x])[i] == xs[i];
        assert xs[i] in xs;
      } else {
        assert (xs + [x])[i] == xs[i] && (xs + [x])[j] == xs[j];
      }
    }
  }
}
