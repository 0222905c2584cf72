/** The first ids of a set in order, and what merging several such lists, or the cuts of them, gives. */
module SortedIds {
  import opened Common

  /**
   Ids stand for strings: all that is used of them is their total order, whose least element 0 is the
   empty string, which no entity has for an id.
   */
  type Id = nat

  // ---------------------------------------------------------------------------------- sets in order

  function Above(ids: set<Id>, afterId: Id): set<Id> { set id | id in ids && id > afterId }

  predicate IsLeast(ids: set<Id>, id: Id) { id in ids && forall i | i in ids :: id <= i }

  lemma {:induction false} HasLeast(ids: set<Id>)
    requires ids != {}
    ensures exists least :: IsLeast(ids, least)
    decreases ids
  {
    var id :| id in ids;
    if ids == {id} {
      assert IsLeast(ids, id);
    } else {
      HasLeast(ids - {id});
      var other :| IsLeast(ids - {id}, other);
      assert forall i | i in ids :: i == id || i in ids - {id};
      assert IsLeast(ids, if id < other then id else other);
    }
  }

  function Least(ids: set<Id>): (least: Id)
    requires ids != {}
    ensures IsLeast(ids, least)
  {
    HasLeast(ids);
    var least :| least in ids && IsLeast(ids, least);
    least
  }

  /** The n smallest ids, ascending. */
  function FirstN(ids: set<Id>, n: nat): (first: seq<Id>)
    ensures |first| == if n < |ids| then n else |ids|
    ensures forall id :: id in first ==> id in ids
    decreases n
  {
    if n == 0 || ids == {} then [] else [Least(ids)] + FirstN(ids - {Least(ids)}, n - 1)
  }

  function Sorted(ids: set<Id>): seq<Id> { FirstN(ids, |ids|) }

  ghost predicate Ascending(s: seq<Id>) { forall i, j :: 0 <= i < j < |s| ==> s[i] < s[j] }

  /** FirstN is what it says: everything left out is larger than everything taken. */
  lemma {:induction false} FirstNIsFirst(ids: set<Id>, n: nat, x: Id)
    requires x in ids && x !in FirstN(ids, n)
    ensures n < |ids| && forall y :: y in FirstN(ids, n) ==> y < x
    decreases n
  {
    if n > 0 {
      var rest := FirstN(ids - {Least(ids)}, n - 1);
      assert FirstN(ids, n) == [Least(ids)] + rest;
      FirstNIsFirst(ids - {Least(ids)}, n - 1, x);
    }
  }

  lemma {:induction false} FirstNAscends(ids: set<Id>, n: nat)
    ensures Ascending(FirstN(ids, n))
    decreases n
  {
    if n > 0 && ids != {} {
      var least, rest := Least(ids), FirstN(ids - {Least(ids)}, n - 1);
      FirstNAscends(ids - {least}, n - 1);
      forall j | 0 <= j < |rest|
        ensures least < rest[j]
      {
        assert rest[j] in rest;
      }
      assert FirstN(ids, n) == [least] + rest;
    }
  }

  lemma SortedHasAll(ids: set<Id>)
    ensures Ascending(Sorted(ids))
    ensures forall id :: id in Sorted(ids) <==> id in ids
  {
    FirstNAscends(ids, |ids|);
    forall id | id in ids
      ensures id in Sorted(ids)
    {
      if id !in Sorted(ids) {
        FirstNIsFirst(ids, |ids|, id);
      }
    }
  }

  /** An ascending sequence is determined by its elements. */
  lemma {:induction false} AscendingIsSorted(s: seq<Id>, ids: set<Id>)
    requires Ascending(s) && (forall id :: id in s <==> id in ids)
    ensures |s| == |ids| && s == Sorted(ids)
    decreases |s|
  {
    if s == [] {
      assert ids == {};
    } else {
      assert s[0] in ids && Least(ids) == s[0];
      var rest := ids - {s[0]};
      TailHasRest(s, ids);
      AscendingIsSorted(s[1..], rest);
      assert |ids| == |rest| + 1;
    }
  }

  lemma TailHasRest(s: seq<Id>, ids: set<Id>)
    requires s != [] && Ascending(s) && (forall id :: id in s <==> id in ids)
    ensures forall id :: id in s[1..] <==> id in ids - {s[0]}
  {
    forall id
      ensures id in s[1..] <==> id in ids - {s[0]}
    {
      if id in s[1..] {
        var i :| 0 <= i < |s[1..]| && s[1..][i] == id;
        assert s[i + 1] == id && s[0] < s[i + 1];
      }
    }
  }

  lemma TakeOfSorted(ids: set<Id>, n: nat)
    requires n <= |ids|
    ensures Sorted(ids)[..n] == FirstN(ids, n)
  {
    TakeOfFirstN(ids, |ids|, n);
  }

  lemma {:induction false} TakeOfFirstN(ids: set<Id>, m: nat, n: nat)
    requires n <= m <= |ids|
    ensures FirstN(ids, m)[..n] == FirstN(ids, n)
    decreases n
  {
    if n > 0 {
      TakeOfFirstN(ids - {Least(ids)}, m - 1, n - 1);
      assert FirstN(ids, m)[..n] == [Least(ids)] + FirstN(ids - {Least(ids)}, m - 1)[..n - 1];
    }
  }

  lemma {:induction false} FirstNEnough(ids: set<Id>, n: nat)
    requires |ids| <= n
    ensures FirstN(ids, n) == Sorted(ids)
    decreases n
  {
    if n > 0 && ids != {} {
      FirstNEnough(ids - {Least(ids)}, n - 1);
    }
  }

  // ---------------------------------------------------------------------------------- merging lists

  function SetOf(s: seq<Id>): set<Id> { set id | id in s }

  function Below(ids: set<Id>, x: Id): set<Id> { set y | y in ids && y < x }

  ghost predicate Nondecreasing(s: seq<Id>) { forall i, j :: 0 <= i < j < |s| ==> s[i] <= s[j] }

  function Take(s: seq<Id>, n: nat): seq<Id> { if |s| <= n then s else s[..n] }

  /** Two ascending lists as one; an id that both hold is in it twice. */
  function Merge(a: seq<Id>, b: seq<Id>): (m: seq<Id>)
    ensures |m| == |a| + |b|
    ensures forall id :: id in m <==> id in a || id in b
    decreases |a| + |b|
  {
    if a == [] then b
    else if b == [] then a
    else if a[0] <= b[0] then assert a == [a[0]] + a[1..]; [a[0]] + Merge(a[1..], b)
    else assert b == [b[0]] + b[1..]; [b[0]] + Merge(a, b[1..])
  }

  /** How many entries are less than `x`. */
  function Ahead(s: seq<Id>, x: Id): nat {
    if s == [] then 0 else (if s[0] < x then 1 else 0) + Ahead(s[1..], x)
  }

  /** Merging loses, adds and reorders nothing. */
  lemma {:induction false} MergeCounts(a: seq<Id>, b: seq<Id>, x: Id)
    ensures Tally(Merge(a, b), x) == Tally(a, x) + Tally(b, x)
    ensures Ahead(Merge(a, b), x) == Ahead(a, x) + Ahead(b, x)
    decreases |a| + |b|
  {
    if a != [] && b != [] {
      if a[0] <= b[0] {
        MergeCounts(a[1..], b, x);
        assert Merge(a, b)[1..] == Merge(a[1..], b);
      } else {
        MergeCounts(a, b[1..], x);
        assert Merge(a, b)[1..] == Merge(a, b[1..]);
      }
    }
  }

  lemma HeadFirst(x: Id, s: seq<Id>)
    requires Nondecreasing(s) && forall id :: id in s ==> x <= id
    ensures Nondecreasing([x] + s)
  {
    forall i, j | 0 <= i < j < |[x] + s|
      ensures ([x] + s)[i] <= ([x] + s)[j]
    {
      assert ([x] + s)[j] == s[j - 1] && s[j - 1] in s;
    }
  }

  lemma TailSorted(s: seq<Id>)
    requires Nondecreasing(s) && s != []
    ensures Nondecreasing(s[1..]) && (forall id :: id in s ==> s[0] <= id)
  {
  }

  lemma {:induction false} MergeSorts(a: seq<Id>, b: seq<Id>)
    requires Nondecreasing(a) && Nondecreasing(b)
    ensures Nondecreasing(Merge(a, b))
    decreases |a| + |b|
  {
    if a != [] && b != [] {
      TailSorted(a);
      TailSorted(b);
      if a[0] <= b[0] {
        MergeSorts(a[1..], b);
        HeadFirst(a[0], Merge(a[1..], b));
      } else {
        MergeSorts(a, b[1..]);
        HeadFirst(b[0], Merge(a, b[1..]));
      }
    }
  }

  /** Cutting each of two lists first does not change the first n of what they merge to. */
  lemma {:induction false} CutThenMerge(a: seq<Id>, b: seq<Id>, n: nat)
    ensures Take(Merge(Take(a, n), Take(b, n)), n) == Take(Merge(a, b), n)
    decreases n, 0
  {
    if n > 0 && a != [] && b != [] {
      if a[0] <= b[0] {
        CutTails(a[1..], Take(a, n)[1..], b, Take(b, n), n - 1);
        TakeJoin(a[0], Merge(a[1..], b), n);
        TakeJoin(a[0], Merge(Take(a, n)[1..], Take(b, n)), n);
      } else {
        CutTails(a, Take(a, n), b[1..], Take(b, n)[1..], n - 1);
        TakeJoin(b[0], Merge(a, b[1..]), n);
        TakeJoin(b[0], Merge(Take(a, n), Take(b, n)[1..]), n);
      }
    }
  }

  lemma TakeJoin(x: Id, s: seq<Id>, n: nat)
    requires n > 0
    ensures Take([x] + s, n) == [x] + Take(s, n - 1)
  {
  }

  lemma {:induction false} CutTails(a: seq<Id>, c: seq<Id>, b: seq<Id>, d: seq<Id>, n: nat)
    requires Take(a, n) == Take(c, n) && Take(b, n) == Take(d, n)
    ensures Take(Merge(c, d), n) == Take(Merge(a, b), n)
    decreases n, 1
  {
    CutThenMerge(a, b, n);
    CutThenMerge(c, d, n);
  }

  lemma CutThreeThenMerge(a: seq<Id>, b: seq<Id>, c: seq<Id>, n: nat)
    ensures Take(Merge(Take(a, n), Merge(Take(b, n), Take(c, n))), n) == Take(Merge(a, Merge(b, c)), n)
  {
    CutThenMerge(b, c, n);
    CutTails(a, Take(a, n), Merge(b, c), Merge(Take(b, n), Take(c, n)), n);
  }

  lemma {:induction false} LargerAhead(s: seq<Id>, x: Id)
    requires forall i :: 0 <= i < |s| ==> x < s[i]
    ensures Ahead(s, x) == 0 && Tally(s, x) == 0
  {
    if s != [] {
      LargerAhead(s[1..], x);
    }
  }

  /** The second copy of an id is not among the first n. */
  ghost predicate CutOff(s: seq<Id>, n: nat, x: Id) { Tally(s, x) >= 2 ==> Ahead(s, x) + 2 > n }

  lemma HeadRepeats(s: seq<Id>)
    requires Nondecreasing(s) && |s| >= 2 && s[0] == s[1]
    ensures Tally(s, s[0]) >= 2 && Ahead(s, s[0]) == 0
  {
    assert s == [s[0], s[0]] + s[2..];
    assert s[1..] == [s[0]] + s[2..];
    NothingAhead(s, s[0]);
  }

  lemma {:induction false} NothingAhead(s: seq<Id>, x: Id)
    requires forall i :: 0 <= i < |s| ==> x <= s[i]
    ensures Ahead(s, x) == 0
  {
    if s != [] {
      NothingAhead(s[1..], x);
    }
  }

  lemma TakeAscends(s: seq<Id>, n: nat)
    requires Nondecreasing(s) && n >= 2 && |s| >= 2
    ensures Ascending(Take(s, n)) <==> s[0] < s[1] && Ascending(Take(s[1..], n - 1))
  {
    var t, u := Take(s, n), Take(s[1..], n - 1);
    assert t == [s[0]] + u && u[0] == s[1];
    if Ascending(t) {
      assert t[0] < t[1];
      assert forall i :: 0 <= i < |u| ==> u[i] == t[i + 1];
    }
  }

  ghost predicate RepeatsCutOff(s: seq<Id>, n: nat) { forall x :: x in s ==> CutOff(s, n, x) }

  lemma OneAhead(s: seq<Id>, n: nat, x: Id)
    requires Nondecreasing(s) && n >= 2 && s != [] && x in s[1..] && s[0] < x
    ensures CutOff(s, n, x) <==> CutOff(s[1..], n - 1, x)
  {
  }

  lemma TailRepeats(s: seq<Id>, n: nat)
    requires Nondecreasing(s) && n >= 2 && |s| >= 2 && s[0] < s[1]
    ensures RepeatsCutOff(s, n) <==> RepeatsCutOff(s[1..], n - 1)
  {
    assert s == [s[0]] + s[1..];
    forall x | x in s[1..]
      ensures CutOff(s, n, x) <==> CutOff(s[1..], n - 1, x)
    {
      OneAhead(s, n, x);
    }
    LargerAhead(s[1..], s[0]);
    assert CutOff(s, n, s[0]);
  }

  lemma HeadNotCutOff(s: seq<Id>, n: nat)
    requires Nondecreasing(s) && n >= 2 && |s| >= 2 && s[0] == s[1]
    ensures !RepeatsCutOff(s, n)
  {
    HeadRepeats(s);
    assert !CutOff(s, n, s[0]);
  }

  /**
   The first `n` of a sorted list hold no id twice exactly when every id that occurs twice has too many
   ahead of it.
   */
  lemma {:induction false} TakeRepeats(s: seq<Id>, n: nat)
    requires Nondecreasing(s)
    ensures Ascending(Take(s, n)) <==> RepeatsCutOff(s, n)
  {
    if n >= 2 && |s| >= 2 {
      TakeAscends(s, n);
      if s[0] == s[1] {
        HeadNotCutOff(s, n);
      } else {
        TailSorted(s);
        TakeRepeats(s[1..], n - 1);
        TailRepeats(s, n);
      }
    } else if n >= 2 && |s| == 1 {
      forall x | x in s
        ensures CutOff(s, n, x)
      {
        assert Tally(s[1..], x) == 0;
      }
    } else {
      assert forall x :: x in s ==> CutOff(s, n, x);
    }
  }

  // ---------------------------------------------------------------------------------- merging sets

  function Once(x: Id, ids: set<Id>): nat { if x in ids then 1 else 0 }

  lemma {:induction false} AscendingCounts(s: seq<Id>, ids: set<Id>, x: Id)
    requires Ascending(s) && (forall id :: id in s <==> id in ids)
    ensures Tally(s, x) == Once(x, ids) && Ahead(s, x) == |Below(ids, x)|
    decreases |s|
  {
    if s == [] {
      assert Below(ids, x) == {};
    } else {
      var rest := ids - {s[0]};
      TailHasRest(s, ids);
      AscendingCounts(s[1..], rest, x);
      assert s[0] in ids;
      assert Below(ids, x) == Below(rest, x) + (if s[0] < x then {s[0]} else {});
    }
  }

  lemma SortedCounts(ids: set<Id>, x: Id)
    ensures Tally(Sorted(ids), x) == Once(x, ids) && Ahead(Sorted(ids), x) == |Below(ids, x)|
  {
    SortedHasAll(ids);
    AscendingCounts(Sorted(ids), ids, x);
  }

  /** The ids of three sets in order, each as often as there are sets that hold it. */
  function MergeThree(a: set<Id>, b: set<Id>, c: set<Id>): seq<Id> { Merge(Sorted(a), Merge(Sorted(b), Sorted(c))) }

  lemma MergeThreeCounts(a: set<Id>, b: set<Id>, c: set<Id>, x: Id)
    ensures Tally(MergeThree(a, b, c), x) == Once(x, a) + Once(x, b) + Once(x, c)
    ensures Ahead(MergeThree(a, b, c), x) == |Below(a, x)| + |Below(b, x)| + |Below(c, x)|
  {
    SortedCounts(a, x);
    SortedCounts(b, x);
    SortedCounts(c, x);
    MergeCounts(Sorted(b), Sorted(c), x);
    MergeCounts(Sorted(a), Merge(Sorted(b), Sorted(c)), x);
  }

  lemma MergeThreeSorts(a: set<Id>, b: set<Id>, c: set<Id>)
    ensures Nondecreasing(MergeThree(a, b, c))
    ensures forall id :: id in MergeThree(a, b, c) <==> id in a + b + c
  {
    SortedHasAll(a);
    SortedHasAll(b);
    SortedHasAll(c);
    MergeSorts(Sorted(b), Sorted(c));
    MergeSorts(Sorted(a), Merge(Sorted(b), Sorted(c)));
  }

  /** Sets that share nothing merge to their sorted union. */
  lemma MergeOfDisjoint(a: set<Id>, b: set<Id>, c: set<Id>)
    requires a !! b !! c
    ensures MergeThree(a, b, c) == Sorted(a + b + c)
  {
    var m := MergeThree(a, b, c);
    MergeThreeSorts(a, b, c);
    forall x | x in m
      ensures CutOff(m, |m|, x)
    {
      MergeThreeCounts(a, b, c, x);
    }
    TakeRepeats(m, |m|);
    AscendingIsSorted(m, a + b + c);
  }

  lemma TakeIsFirstN(ids: set<Id>, n: nat)
    ensures Take(Sorted(ids), n) == FirstN(ids, n)
  {
    if n < |ids| {
      TakeOfSorted(ids, n);
    } else {
      FirstNEnough(ids, n);
    }
  }

  lemma CutSize(a: set<Id>, n: nat)
    ensures |SetOf(FirstN(a, n))| == |FirstN(a, n)|
    ensures SetOf(FirstN(a, n)) <= a
    ensures Sorted(SetOf(FirstN(a, n))) == FirstN(a, n)
  {
    FirstNAscends(a, n);
    AscendingIsSorted(FirstN(a, n), SetOf(FirstN(a, n)));
  }

  /** Cutting each of three sets first does not change the first n of what they merge to. */
  lemma CutSetsThenMerge(a: set<Id>, b: set<Id>, c: set<Id>, n: nat)
    ensures Take(MergeThree(SetOf(FirstN(a, n)), SetOf(FirstN(b, n)), SetOf(FirstN(c, n))), n)
         == Take(MergeThree(a, b, c), n)
  {
    CutSize(a, n);
    CutSize(b, n);
    CutSize(c, n);
    TakeIsFirstN(a, n);
    TakeIsFirstN(b, n);
    TakeIsFirstN(c, n);
    CutThreeThenMerge(Sorted(a), Sorted(b), Sorted(c), n);
  }
}
