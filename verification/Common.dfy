/** Definitions shared by the component models. */
module Common {

  /** Go's nil-able values: absent or present. */
  datatype Option<+T> = None | Some(value: T)

  /** A set that lies inside another is no larger. */
  lemma {:induction false} SubsetSize<T>(small: set<T>, large: set<T>)
    requires small <= large
    ensures |small| <= |large|
    ensures small != large ==> |small| < |large|
    decreases small
  {
    if small == {} {
      assert small != large ==> |large| > 0;
    } else {
      var x :| x in small;
      SubsetSize(small - {x}, large - {x});
    }
  }

  /** How often `x` occurs. */
  function Tally<T(==)>(items: seq<T>, x: T): nat {
    if items == [] then 0 else (if items[0] == x then 1 else 0) + Tally(items[1..], x)
  }

  lemma {:induction false} TallyAppends<T>(a: seq<T>, b: seq<T>, x: T)
    ensures Tally(a + b, x) == Tally(a, x) + Tally(b, x)
  {
    if a == [] {
      assert a + b == b;
    } else {
      TallyAppends(a[1..], b, x);
      assert (a + b)[1..] == a[1..] + b;
    }
  }

  /** Some order of all the keys of a map, each once: what ranging over the map may give. */
  predicate IsOrder<K(==)>(order: seq<K>, keys: set<K>) {
    && (forall i, j :: 0 <= i < j < |order| ==> order[i] != order[j])
    && (forall i :: 0 <= i < |order| ==> order[i] in keys)
    && (forall k :: k in keys ==> k in order)
  }
}
