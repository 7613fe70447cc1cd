/** Small facts about sequences and sets used by the search proofs. */
module Seqs {

  /** No element occurs twice. */
  predicate Distinct<T(==)>(s: seq<T>) {
    forall i, j :: 0 <= i < j < |s| ==> s[i] != s[j]
  }

  /** The set of elements of `s`. */
  function Elems<T>(s: seq<T>): set<T> {
    set x | x in s
  }

  lemma {:induction false} DistinctCard<T>(s: seq<T>)
    requires Distinct(s)
    ensures |Elems(s)| == |s|
    decreases |s|
  {
    if |s| > 0 {
      var init := s[..|s| - 1];
      assert Distinct(init);
      DistinctCard(init);
      assert Elems(s) == Elems(init) + {s[|s| - 1]} by {
        forall x | x in Elems(s) ensures x in Elems(init) + {s[|s| - 1]} {
          var i :| 0 <= i < |s| && s[i] == x;
          if i < |s| - 1 { assert init[i] == x; }
        }
      }
    }
  }

  /** Appending an element that is not already present keeps the sequence distinct. */
  lemma DistinctAppend<T>(s: seq<T>, x: T)
    requires Distinct(s) && x !in s
    ensures Distinct(s + [x])
  {
  }

  /** The front part of a distinct sequence is distinct and shares no element with the rest. */
  lemma DistinctSplit<T>(a: seq<T>, b: seq<T>)
    requires Distinct(a + b)
    ensures Distinct(a)
    ensures forall x :: x in a ==> x !in b
  {
    forall i, j | 0 <= i < j < |a| ensures a[i] != a[j] {
      assert (a + b)[i] == a[i] && (a + b)[j] == a[j];
    }
    forall x | x in a ensures x !in b {
      var i :| 0 <= i < |a| && a[i] == x;
      forall j | 0 <= j < |b| ensures b[j] != x {
        assert (a + b)[i] == x && (a + b)[|a| + j] == b[j];
      }
    }
  }

  lemma ElemsAppend<T>(s: seq<T>, x: T)
    ensures Elems(s + [x]) == Elems(s) + {x}
  {
  }

  /** Index of the first occurrence of `x` in `s`, or `|s|` when `x` does not occur. */
  function Position<T(==)>(s: seq<T>, x: T): (p: nat)
    ensures p <= |s|
    ensures p < |s| <==> x in s
    ensures p < |s| ==> s[p] == x
    ensures forall i :: 0 <= i < p ==> s[i] != x
    decreases |s|
  {
    if |s| == 0 then 0
    else if s[0] == x then 0
    else 1 + Position(s[1..], x)
  }

  /** Positions of elements already present do not move when the sequence grows at the end. */
  lemma PositionAppend<T>(s: seq<T>, t: seq<T>, x: T)
    ensures x in s ==> Position(s + t, x) == Position(s, x)
    ensures x !in s ==> Position(s + t, x) >= |s|
  {
    if x in s {
      assert (s + t)[Position(s, x)] == x;
    }
  }

  /** Adding a member of `u` that was missing from `closed` shrinks what is left of `u`. */
  lemma CloseOneShrinks<T>(u: set<T>, closed: set<T>, x: T)
    requires x in u && x !in closed
    ensures |u - (closed + {x})| < |u - closed|
  {
    assert u - (closed + {x}) == (u - closed) - {x};
  }

  /** Adding members never enlarges what is left of `u`. */
  lemma DiffShrinks<T>(u: set<T>, a: set<T>, b: set<T>)
    requires a <= b
    ensures |u - b| <= |u - a|
  {
    assert u - a == (u - b) + ((u - a) - (u - b));
  }
}
