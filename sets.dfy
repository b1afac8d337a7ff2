/**
 * Iterating over a Java HashSet: the order is the set's own and is not
 * modelled, so an iteration picks any element not yet visited.
 */
module Sets {

  /** The next element of an iteration: any element not yet visited. */
  method Pick<T>(s: set<T>) returns (x: T)
    requires s != {}
    ensures x in s
  {
    x :| x in s;
  }

  /** order lists the elements of s, each once: one iteration order of s. */
  predicate Enumerates<T>(order: seq<T>, s: set<T>)
  {
    (forall i, j :: 0 <= i < j < |order| ==> order[i] != order[j])
    && (forall i :: 0 <= i < |order| ==> order[i] in s)
    && (forall x :: x in s ==> x in order)
  }

  /** An iteration visits as many elements as the set has. */
  lemma {:induction false} EnumerationSize<T>(order: seq<T>, s: set<T>)
    requires Enumerates(order, s)
    ensures |order| == |s|
    decreases |order|
  {
    if order != [] {
      var last := order[|order| - 1];
      var init := order[..|order| - 1];
      forall x | x in s - {last} ensures x in init {
        var i :| 0 <= i < |order| && order[i] == x;
      }
      assert Enumerates(init, s - {last});
      EnumerationSize(init, s - {last});
    } else {
      assert forall x :: x !in s;
    }
  }
}
