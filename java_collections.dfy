/**
 * Iteration over Java `HashMap` / `HashSet` contents, whose order Java leaves
 * unspecified: the model only knows that every element is visited exactly once.
 */
module JavaCollections {
  /** `order` lists every element of `s` exactly once. */
  predicate Enumerates<T>(order: seq<T>, s: set<T>) {
    (forall i :: 0 <= i < |order| ==> order[i] in s)
    && (forall x :: x in s ==> x in order)
    && (forall i, j :: 0 <= i < j < |order| ==> order[i] != order[j])
  }

  /** Some iteration order of a hash set or of a hash map's key set. */
  method IterationOrder<T>(s: set<T>) returns (order: seq<T>)
    ensures Enumerates(order, s)
  {
    order := [];
    var rest := s;
    while rest != {}
      invariant rest <= s
      invariant forall i :: 0 <= i < |order| ==> order[i] in s - rest
      invariant forall x :: x in s - rest ==> x in order
      invariant forall i, j :: 0 <= i < j < |order| ==> order[i] != order[j]
      decreases rest
    {
      var x :| x in rest;
      order := order + [x];
      rest := rest - {x};
    }
  }

  /** The first `i + 1` elements visited are the first `i`, then element `i`. */
  lemma VisitedSnoc<T>(order: seq<T>, i: int)
    requires 0 <= i < |order|
    ensures order[..i + 1] == order[..i] + [order[i]]
  {
  }

  /** Two pieces appended one after the other extend a sequence by both, in order. */
  lemma AppendTwice<T>(s: seq<T>, first: seq<T>, second: seq<T>)
    ensures s + first + second == s + (first + second)
  {
  }

  /** An enumeration of a set visits exactly the set. */
  lemma EnumerationCovers<T>(order: seq<T>, s: set<T>)
    requires Enumerates(order, s)
    ensures (set j | 0 <= j < |order| :: order[j]) == s
  {
    forall x | x in s
      ensures x in (set j | 0 <= j < |order| :: order[j])
    {
      var j :| 0 <= j < |order| && order[j] == x;
    }
  }

  /** An enumeration of a set has as many entries as the set. */
  lemma {:induction false} EnumerationLength<T>(order: seq<T>, s: set<T>)
    requires Enumerates(order, s)
    ensures |order| == |s|
    decreases |order|
  {
    if |order| > 0 {
      var x := order[|order| - 1];
      var init := order[..|order| - 1];
      assert Enumerates(init, s - {x}) by {
        forall y | y in s - {x}
          ensures y in init
        {
          var i :| 0 <= i < |order| && order[i] == y;
          assert i != |order| - 1;
        }
      }
      EnumerationLength(init, s - {x});
    } else {
      assert forall x :: x !in s;
      assert s == {};
    }
  }
}
