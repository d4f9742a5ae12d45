/** The in-place list updates the entities apply to their lists of
    identifiers: `if x not in xs: xs.append(x)` and
    `if x in xs: xs.remove(x)` (which deletes the first occurrence). */
module IdLists {

  /** No element occurs twice. */
  predicate NoDup(xs: seq<int>) {
    forall i, j :: 0 <= i < j < |xs| ==> xs[i] != xs[j]
  }

  /** `if x not in xs: xs.append(x)`, as the new value of the list. */
  function AddUnique(xs: seq<int>, x: int): (r: seq<int>)
    ensures x in r
    ensures forall y :: y in r <==> y in xs || y == x
    ensures |xs| <= |r| && r[..|xs|] == xs
    ensures |r| == if x in xs then |xs| else |xs| + 1
  {
    if x in xs then xs else xs + [x]
  }

  /** Adding twice is adding once. */
  lemma AddUniqueIdempotent(xs: seq<int>, x: int)
    ensures AddUnique(AddUnique(xs, x), x) == AddUnique(xs, x)
  {
  }

  /** Adding never introduces a duplicate. */
  lemma AddUniqueKeepsNoDup(xs: seq<int>, x: int)
    requires NoDup(xs)
    ensures NoDup(AddUnique(xs, x))
  {
  }

  /** `xs.remove(x)` on a list that holds `x`, and no change otherwise. */
  function RemoveFirst(xs: seq<int>, x: int): (r: seq<int>)
    ensures x in xs ==> |r| == |xs| - 1
    ensures x !in xs ==> r == xs
    ensures multiset(r) == multiset(xs) - multiset{x}
  {
    if xs == [] then []
    else if xs[0] == x then
      assert xs == [x] + xs[1..];
      xs[1..]
    else
      assert xs == [xs[0]] + xs[1..];
      var rest := RemoveFirst(xs[1..], x);
      assert multiset([xs[0]] + rest) == multiset{xs[0]} + multiset(rest);
      [xs[0]] + rest
  }

  /** The removed occurrence is the first one: with the list written as
      `antes + [x] + depois` and no `x` in `antes`, the result is
      `antes + depois`, in order. */
  lemma {:induction false} RemoveFirstCutsFirstOccurrence(antes: seq<int>, x: int, depois: seq<int>)
    requires x !in antes
    ensures RemoveFirst(antes + [x] + depois, x) == antes + depois
  {
    if antes == [] {
      assert antes + [x] + depois == [x] + depois;
    } else {
      var a, tail := antes[0], antes[1..] + [x] + depois;
      ConcatAfterHead(antes, [x] + depois);
      ConcatAfterHead(antes, depois);
      assert antes + [x] + depois == [a] + tail;
      RemoveFirstCutsFirstOccurrence(antes[1..], x, depois);
      assert ([a] + tail)[0] == a && ([a] + tail)[1..] == tail;
    }
  }

  /** A non-empty list followed by another is its head followed by the rest. */
  lemma ConcatAfterHead(s: seq<int>, d: seq<int>)
    requires s != []
    ensures s + d == [s[0]] + (s[1..] + d)
  {
    assert s == [s[0]] + s[1..];
  }

  /** Putting in front an element the list does not hold keeps it free of
      duplicates. */
  lemma NoDupCons(a: int, xs: seq<int>)
    requires NoDup(xs) && a !in xs
    ensures NoDup([a] + xs)
  {
    var r := [a] + xs;
    forall i, j | 0 <= i < j < |r| ensures r[i] != r[j] {
      assert r[j] == xs[j - 1];
      if i > 0 {
        assert r[i] == xs[i - 1];
      }
    }
  }

  /** Removing never introduces a duplicate; on a duplicate-free list the
      element is gone afterwards. */
  lemma {:induction false} RemoveFirstKeepsNoDup(xs: seq<int>, x: int)
    requires NoDup(xs)
    ensures NoDup(RemoveFirst(xs, x))
    ensures x !in RemoveFirst(xs, x)
  {
    if xs != [] {
      var t := xs[1..];
      assert NoDup(t) by {
        forall i, j | 0 <= i < j < |t| ensures t[i] != t[j] {
          assert t[i] == xs[i + 1] && t[j] == xs[j + 1];
        }
      }
      assert xs[0] !in t by {
        forall k | 0 <= k < |t| ensures t[k] != xs[0] {
          assert t[k] == xs[k + 1];
        }
      }
      RemoveFirstKeepsNoDup(t, x);
      if xs[0] != x {
        var r := RemoveFirst(t, x);
        forall y | y in r ensures y in t {
          assert multiset(r)[y] > 0;
        }
        NoDupCons(xs[0], r);
      }
    }
  }

  /** Adding an absent element and then removing it gives the list back. */
  lemma RemoveFirstUndoesAdd(xs: seq<int>, x: int)
    requires x !in xs
    ensures RemoveFirst(AddUnique(xs, x), x) == xs
  {
    assert AddUnique(xs, x) == xs + [x] + [];
    RemoveFirstCutsFirstOccurrence(xs, x, []);
    assert xs + [] == xs;
  }
}
