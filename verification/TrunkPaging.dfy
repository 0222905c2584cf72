/**
 Paged listing of SIP trunks that live in up to three key spaces. Each key space is sorted and cut
 to a page by itself; the cuts are merged, filtered, sorted and cut again.
 */
module TrunkPaging {
  import opened Common
  import opened SortedIds

  datatype Trunk = Trunk(id: Id, data: string)

  type KeySpace = map<Id, string>

  /** A page request; 0 as `afterId` starts at the beginning, a limit that is not positive is unset. */
  datatype Page = Page(afterId: Id, limit: int)

  const DEFAULT_LIMIT := 1000

  // ---------------------------------------------------------------------------------- the code

  function IdsOf(items: seq<Trunk>): seq<Id> {
    seq(|items|, i requires 0 <= i < |items| => items[i].id)
  }

  /** The library's binary search: where an id is, or would be. */
  function Position(ids: seq<Id>, id: Id): (i: nat)
    ensures i <= |ids|
  {
    if ids == [] || id <= ids[0] then 0 else 1 + Position(ids[1..], id)
  }

  lemma {:induction false} PositionSplits(ids: seq<Id>, id: Id)
    requires Ascending(ids)
    ensures forall i :: 0 <= i < |ids| ==> (i < Position(ids, id) <==> ids[i] < id)
  {
    if ids != [] && id > ids[0] {
      assert forall i, j :: 0 <= i < j < |ids[1..]| ==> ids[1..][i] == ids[i+1] && ids[1..][j] == ids[j+1];
      PositionSplits(ids[1..], id);
      forall i | 0 <= i < |ids|
        ensures i < Position(ids, id) <==> ids[i] < id
      {
        assert i > 0 ==> ids[1..][i - 1] == ids[i];
      }
    }
  }

  /** The ids up to the searched one are those before its position, and the one there if that is it. */
  lemma PositionEnds(ids: seq<Id>, id: Id)
    requires Ascending(ids)
    ensures var i := Position(ids, id);
            var end := if i < |ids| && ids[i] == id then i + 1 else i;
            forall k :: 0 <= k < |ids| ==> (k < end <==> ids[k] <= id)
  {
    PositionSplits(ids, id);
  }

  /** The ids a page request selects from one key space. */
  function PageOf(ids: set<Id>, page: Option<Page>): seq<Id> {
    match page
    case None => Sorted(ids)
    case Some(p) => FirstN(Above(ids, p.afterId), if p.limit > 0 then p.limit else DEFAULT_LIMIT)
  }

  /** Sorts the ids of one key space, cuts out the page and loads it. */
  method RedisIterPage(space: KeySpace, page: Option<Page>) returns (items: seq<Trunk>)
    requires 0 !in space
    ensures IdsOf(items) == PageOf(space.Keys, page)
    ensures page.None? ==> IdsOf(items) == Sorted(space.Keys)
    ensures page.Some? && page.value.limit > 0 ==>
              IdsOf(items) == FirstN(Above(space.Keys, page.value.afterId), page.value.limit)
    ensures page.Some? && page.value.limit <= 0 ==> IdsOf(items) == FirstN(Above(space.Keys, page.value.afterId), 1000)
    ensures forall item :: item in items ==> item.id in space && space[item.id] == item.data
  {
    var ids := SelectIds(space.Keys, page);
    items := LoadBatch(space, ids);
    LoadsAll(space, ids);
  }

  method SelectIds(keys: set<Id>, page: Option<Page>) returns (ids: seq<Id>)
    requires 0 !in keys
    ensures ids == PageOf(keys, page)
    ensures forall id :: id in ids ==> id in keys
  {
    ids := Sorted(keys);
    if page.None? {
      return;
    }
    if |ids| == 0 {
      return;
    }
    ghost var above := Above(keys, page.value.afterId);
    if page.value.afterId != 0 {
      ids := DropUpTo(keys, ids, page.value.afterId);
      if |ids| == 0 {
        return;
      }
    } else {
      assert above == keys;
    }
    var limit := DEFAULT_LIMIT;
    if page.value.limit > 0 {
      limit := page.value.limit;
    }
    if |ids| > limit {
      TakeOfSorted(above, limit);
      ids := ids[..limit];
    } else {
      FirstNEnough(above, limit);
    }
  }

  method DropUpTo(ghost keys: set<Id>, sortedIds: seq<Id>, afterId: Id) returns (ids: seq<Id>)
    requires sortedIds == Sorted(keys)
    ensures ids == Sorted(Above(keys, afterId))
  {
    SortedHasAll(keys);
    var i := Position(sortedIds, afterId);
    PositionEnds(sortedIds, afterId);
    if i < |sortedIds| && sortedIds[i] == afterId {
      i := i + 1;
    }
    DropBelow(keys, afterId, i);
    ids := sortedIds[i..];
  }

  /** Dropping the sorted ids up to `afterId` leaves the sorted ids above it. */
  lemma DropBelow(ids: set<Id>, afterId: Id, i: nat)
    requires i <= |Sorted(ids)|
    requires forall k :: 0 <= k < |Sorted(ids)| ==> (k < i <==> Sorted(ids)[k] <= afterId)
    ensures Sorted(ids)[i..] == Sorted(Above(ids, afterId))
  {
    SortedHasAll(ids);
    SuffixIsAbove(Sorted(ids), ids, afterId, i);
    AscendingIsSorted(Sorted(ids)[i..], Above(ids, afterId));
  }

  lemma SuffixIsAbove(s: seq<Id>, ids: set<Id>, afterId: Id, i: nat)
    requires i <= |s| && Ascending(s) && (forall id :: id in s <==> id in ids)
    requires forall k :: 0 <= k < |s| ==> (k < i <==> s[k] <= afterId)
    ensures Ascending(s[i..])
    ensures forall id :: id in s[i..] <==> id in Above(ids, afterId)
  {
    forall id | id in Above(ids, afterId)
      ensures id in s[i..]
    {
      var k :| 0 <= k < |s| && s[k] == id;
      assert s[i..][k - i] == id;
    }
    forall id | id in s[i..]
      ensures id in Above(ids, afterId)
    {
      var k :| 0 <= k < |s[i..]| && s[i..][k] == id;
      assert s[k + i] == id && s[k + i] in s;
    }
  }

  /** The records found for a list of ids; an id that is gone by now is left out. */
  function Found(space: KeySpace, ids: seq<Id>): seq<Trunk> {
    if ids == [] then []
    else Found(space, ids[..|ids|-1]) + if ids[|ids|-1] in space then [Trunk(ids[|ids|-1], space[ids[|ids|-1]])] else []
  }

  lemma {:induction false} FoundAll(space: KeySpace, ids: seq<Id>)
    requires forall id :: id in ids ==> id in space
    ensures Found(space, ids) == seq(|ids|, i requires 0 <= i < |ids| => Trunk(ids[i], space[ids[i]]))
    decreases |ids|
  {
    if ids != [] {
      FoundAll(space, ids[..|ids|-1]);
    }
  }

  /** Those are, for each id as often as it is asked for, its record, if it has one. */
  lemma {:induction false} FoundExactly(space: KeySpace, ids: seq<Id>, t: Trunk)
    ensures Tally(Found(space, ids), t) == if t.id in space && space[t.id] == t.data then Tally(ids, t.id) else 0
    decreases |ids|
  {
    if ids != [] {
      var front, last := ids[..|ids|-1], ids[|ids|-1];
      FoundExactly(space, front, t);
      assert ids == front + [last];
      TallyAppends(front, [last], t.id);
      assert [last][1..] == [];
      var more := if last in space then [Trunk(last, space[last])] else [];
      TallyAppends(Found(space, front), more, t);
      assert more != [] ==> more[1..] == [];
    }
  }

  /** In the order asked for. */
  lemma {:induction false} FoundInOrder(space: KeySpace, ids: seq<Id>)
    requires Ascending(ids)
    ensures Ascending(IdsOf(Found(space, ids))) && forall id :: id in IdsOf(Found(space, ids)) ==> id in ids
    decreases |ids|
  {
    if ids != [] {
      var front, last := ids[..|ids|-1], ids[|ids|-1];
      FoundInOrder(space, front);
      var found := IdsOf(Found(space, front));
      forall i | 0 <= i < |found|
        ensures found[i] < last
      {
        assert found[i] in found;
      }
      assert IdsOf(Found(space, ids)) == found + if last in space then [last] else [];
    }
  }

  lemma LoadsAll(space: KeySpace, ids: seq<Id>)
    requires forall id :: id in ids ==> id in space
    ensures IdsOf(Found(space, ids)) == ids
    ensures forall item :: item in Found(space, ids) ==> item.id in space && space[item.id] == item.data
  {
    FoundAll(space, ids);
  }

  method LoadBatch(space: KeySpace, ids: seq<Id>) returns (items: seq<Trunk>)
    ensures items == Found(space, ids)
  {
    items := [];
    for i := 0 to |ids|
      invariant items == Found(space, ids[..i])
    {
      assert ids[..i + 1][..i] == ids[..i];
      if ids[i] in space {
        items := items + [Trunk(ids[i], space[ids[i]])];
      }
    }
    assert ids[..|ids|] == ids;
  }

  /** The loaded page of one key space. */
  function LoadedPage(space: KeySpace, page: Option<Page>): (items: seq<Trunk>)
    ensures IdsOf(items) == PageOf(space.Keys, page)
  {
    PageInside(space.Keys, page);
    var ids := PageOf(space.Keys, page);
    seq(|ids|, i requires 0 <= i < |ids| => Trunk(ids[i], space[ids[i]]))
  }

  lemma PageInside(ids: set<Id>, page: Option<Page>)
    ensures forall id :: id in PageOf(ids, page) ==> id in ids
  {
  }

  function Kept(items: seq<Trunk>, keep: Trunk -> bool): seq<Trunk> {
    if items == [] then []
    else Kept(items[..|items|-1], keep) + (if keep(items[|items|-1]) then [items[|items|-1]] else [])
  }

  /** The library's sort by id, as insertion. */
  function Insert(sorted: seq<Trunk>, item: Trunk): seq<Trunk> {
    if sorted == [] || item.id <= sorted[0].id then [item] + sorted else [sorted[0]] + Insert(sorted[1..], item)
  }

  function SortItems(items: seq<Trunk>): seq<Trunk> {
    if items == [] then [] else Insert(SortItems(items[1..]), items[0])
  }

  function SortPage(items: seq<Trunk>, page: Option<Page>): seq<Trunk> {
    var sorted := SortItems(items);
    if page.Some? && page.value.limit > 0 && |sorted| > page.value.limit then sorted[..page.value.limit] else sorted
  }

  function KeptPage(space: KeySpace, page: Option<Page>, keep: Trunk -> bool): seq<Trunk> {
    Kept(LoadedPage(space, page), keep)
  }

  /** The three key spaces of SIP trunks. */
  datatype Store = Store(legacy: KeySpace, inbound: KeySpace, outbound: KeySpace)
  {
    function Ids(): set<Id> { legacy.Keys + inbound.Keys + outbound.Keys }
  }

  function MergedPages(s: Store, page: Option<Page>, keep: Trunk -> bool): seq<Trunk> {
    KeptPage(s.legacy, page, keep) + KeptPage(s.inbound, page, keep) + KeptPage(s.outbound, page, keep)
  }

  function ListedTrunks(s: Store, page: Option<Page>, keep: Trunk -> bool): seq<Trunk> {
    SortPage(MergedPages(s, page, keep), page)
  }

  function ListedDirection(direction: KeySpace, legacy: KeySpace, page: Option<Page>, keep: Trunk -> bool): seq<Trunk> {
    SortPage(KeptPage(direction, page, keep) + KeptPage(legacy, page, keep), page)
  }

  /** What passes the filter of one key space's page. */
  method FilterPage(space: KeySpace, page: Option<Page>, keep: Trunk -> bool) returns (items: seq<Trunk>)
    requires 0 !in space
    ensures items == KeptPage(space, page, keep)
  {
    var loaded := RedisIterPage(space, page);
    assert loaded == LoadedPage(space, page) by {
      assert forall i :: 0 <= i < |loaded| ==> loaded[i] in loaded && loaded[i].id == IdsOf(loaded)[i];
    }
    items := [];
    for i := 0 to |loaded|
      invariant items == Kept(loaded[..i], keep)
    {
      assert loaded[..i + 1][..i] == loaded[..i];
      if keep(loaded[i]) {
        items := items + [loaded[i]];
      }
    }
    assert loaded[..|loaded|] == loaded;
  }

  method ListSIPTrunk(s: Store, page: Option<Page>, keep: Trunk -> bool) returns (items: seq<Trunk>)
    requires 0 !in s.legacy && 0 !in s.inbound && 0 !in s.outbound
    ensures items == ListedTrunks(s, page, keep)
  {
    items := FilterPage(s.legacy, page, keep);
    var inbound := FilterPage(s.inbound, page, keep);
    items := items + inbound;
    var outbound := FilterPage(s.outbound, page, keep);
    items := items + outbound;
    items := SortPage(items, page);
  }

  /** The inbound and the outbound listing: one direction's key space, then the legacy one. */
  method ListSIPDirectionTrunk(direction: KeySpace, legacy: KeySpace, page: Option<Page>, keep: Trunk -> bool)
      returns (items: seq<Trunk>)
    requires 0 !in direction && 0 !in legacy
    ensures items == ListedDirection(direction, legacy, page, keep)
  {
    items := FilterPage(direction, page, keep);
    var more := FilterPage(legacy, page, keep);
    items := items + more;
    items := SortPage(items, page);
  }

  // ---------------------------------------------------------------------------------- sorting

  ghost predicate AscendingItems(items: seq<Trunk>) {
    forall i, j :: 0 <= i < j < |items| ==> items[i].id < items[j].id
  }

  lemma {:induction false} InsertMerges(sorted: seq<Trunk>, item: Trunk)
    ensures IdsOf(Insert(sorted, item)) == Merge([item.id], IdsOf(sorted))
    decreases |sorted|
  {
    if sorted != [] && item.id > sorted[0].id {
      InsertMerges(sorted[1..], item);
      assert IdsOf(sorted)[1..] == IdsOf(sorted[1..]);
    }
  }

  lemma {:induction false} MergeOne(x: Id, p: seq<Id>, q: seq<Id>)
    requires p != [] ==> x <= p[0]
    ensures Merge([x], Merge(p, q)) == Merge([x] + p, q)
    decreases |q|
  {
    assert ([x] + p)[1..] == p && [x][1..] == [];
    if q != [] && q[0] < x {
      MergeOne(x, p, q[1..]);
      assert Merge(p, q) == [q[0]] + Merge(p, q[1..]);
      assert Merge(p, q)[1..] == Merge(p, q[1..]);
    }
  }

  /** Sorting merges what comes first, if that is in order already, into the rest sorted. */
  lemma {:induction false} SortMerges(p: seq<Trunk>, q: seq<Trunk>)
    requires Nondecreasing(IdsOf(p))
    ensures IdsOf(SortItems(p + q)) == Merge(IdsOf(p), IdsOf(SortItems(q)))
    decreases |p|
  {
    if p == [] {
      assert p + q == q;
    } else {
      assert (p + q)[1..] == p[1..] + q;
      assert IdsOf(p) == [p[0].id] + IdsOf(p[1..]);
      TailSorted(IdsOf(p));
      SortMerges(p[1..], q);
      InsertMerges(SortItems(p[1..] + q), p[0]);
      MergeOne(p[0].id, IdsOf(p[1..]), IdsOf(SortItems(q)));
    }
  }

  lemma SortThree(p: seq<Trunk>, q: seq<Trunk>, r: seq<Trunk>)
    requires Nondecreasing(IdsOf(p)) && Nondecreasing(IdsOf(q)) && Nondecreasing(IdsOf(r))
    ensures IdsOf(SortItems(p + q + r)) == Merge(IdsOf(p), Merge(IdsOf(q), IdsOf(r)))
  {
    assert p + q + r == p + (q + r);
    assert r + [] == r;
    SortMerges(r, []);
    SortMerges(q, r);
    SortMerges(p, q + r);
  }

  // ---------------------------------------------------------------------------------- a page of the listing

  /** The ids of one key space that its page holds. */
  function Cut(space: KeySpace, page: Page): set<Id>
    requires page.limit > 0
  {
    SetOf(FirstN(Above(space.Keys, page.afterId), page.limit))
  }

  /** The ids of one key space that pass the filter. */
  function KeptIds(space: KeySpace, keep: Trunk -> bool): set<Id> {
    set id | id in space && keep(Trunk(id, space[id]))
  }

  /** What is left of the page of one key space. */
  function CutKept(space: KeySpace, page: Page, keep: Trunk -> bool): set<Id>
    requires page.limit > 0
  {
    Cut(space, page) * KeptIds(space, keep)
  }

  lemma {:induction false} KeptAscends(items: seq<Trunk>, keep: Trunk -> bool)
    requires AscendingItems(items)
    ensures AscendingItems(Kept(items, keep))
    ensures forall t :: t in Kept(items, keep) <==> t in items && keep(t)
    decreases |items|
  {
    if items != [] {
      var front, last := items[..|items|-1], items[|items|-1];
      KeptAscends(front, keep);
      assert items == front + [last];
      forall i | 0 <= i < |Kept(front, keep)|
        ensures Kept(front, keep)[i].id < last.id
      {
        assert Kept(front, keep)[i] in front;
      }
    }
  }

  /** Filtering items filters their ids. */
  lemma KeptIdsAre(items: seq<Trunk>, space: KeySpace, keep: Trunk -> bool)
    requires AscendingItems(items) && forall t :: t in items ==> t.id in space && space[t.id] == t.data
    ensures Ascending(IdsOf(Kept(items, keep)))
    ensures forall id :: id in IdsOf(Kept(items, keep)) <==> id in IdsOf(items) && id in KeptIds(space, keep)
  {
    KeptAscends(items, keep);
    var kept := Kept(items, keep);
    forall id | id in IdsOf(kept)
      ensures id in IdsOf(items) && id in KeptIds(space, keep)
    {
      var i :| 0 <= i < |kept| && IdsOf(kept)[i] == id;
      assert kept[i] in kept;
      var j :| 0 <= j < |items| && items[j] == kept[i];
      assert IdsOf(items)[j] == id && kept[i] == Trunk(id, space[id]);
    }
    forall id | id in IdsOf(items) && id in KeptIds(space, keep)
      ensures id in IdsOf(kept)
    {
      var j :| 0 <= j < |items| && IdsOf(items)[j] == id;
      assert items[j] in items && items[j] == Trunk(id, space[id]);
      assert items[j] in kept;
      var i :| 0 <= i < |kept| && kept[i] == items[j];
      assert IdsOf(kept)[i] == id;
    }
  }

  lemma LoadedFacts(space: KeySpace, page: Option<Page>)
    ensures var loaded := LoadedPage(space, page);
            && AscendingItems(loaded)
            && (forall t :: t in loaded ==> t.id in space && space[t.id] == t.data)
            && (forall id :: id in IdsOf(loaded) <==> id in SetOf(PageOf(space.Keys, page)))
  {
    PageInside(space.Keys, page);
    FirstNAscends(space.Keys, |space.Keys|);
    if page.Some? {
      FirstNAscends(Above(space.Keys, page.value.afterId), if page.value.limit > 0 then page.value.limit
                                                          else DEFAULT_LIMIT);
    }
    var loaded := LoadedPage(space, page);
    assert forall i :: 0 <= i < |loaded| ==> loaded[i].id == IdsOf(loaded)[i];
  }

  lemma KeptPageIs(space: KeySpace, page: Option<Page>, keep: Trunk -> bool)
    ensures IdsOf(KeptPage(space, page, keep)) == Sorted(SetOf(PageOf(space.Keys, page)) * KeptIds(space, keep))
  {
    LoadedFacts(space, page);
    var loaded := LoadedPage(space, page);
    KeptIdsAre(loaded, space, keep);
    AscendingIsSorted(IdsOf(Kept(loaded, keep)), SetOf(PageOf(space.Keys, page)) * KeptIds(space, keep));
  }

  lemma PageHolds(space: KeySpace, page: Page, keep: Trunk -> bool)
    requires page.limit > 0
    ensures CutKept(space, page, keep) <= space.Keys
    ensures IdsOf(KeptPage(space, Some(page), keep)) == Sorted(CutKept(space, page, keep))
  {
    KeptPageIs(space, Some(page), keep);
  }

  /** What is left of the three pages together. */
  function StoreCutKept(s: Store, page: Page, keep: Trunk -> bool): set<Id>
    requires page.limit > 0
  {
    CutKept(s.legacy, page, keep) + CutKept(s.inbound, page, keep) + CutKept(s.outbound, page, keep)
  }

  /** The same in order, an id as often as key spaces give it. */
  function StoreMerge(s: Store, page: Page, keep: Trunk -> bool): seq<Id>
    requires page.limit > 0
  {
    MergeThree(CutKept(s.legacy, page, keep), CutKept(s.inbound, page, keep), CutKept(s.outbound, page, keep))
  }

  function ListedIds(s: Store, page: Page, keep: Trunk -> bool): seq<Id> { IdsOf(ListedTrunks(s, Some(page), keep)) }

  lemma SortPageTakes(items: seq<Trunk>, page: Page)
    requires page.limit > 0
    ensures IdsOf(SortPage(items, Some(page))) == Take(IdsOf(SortItems(items)), page.limit)
  {
    var sorted := SortItems(items);
    if |sorted| > page.limit {
      assert IdsOf(sorted[..page.limit]) == IdsOf(sorted)[..page.limit];
    }
  }

  lemma SortSets(p: seq<Trunk>, q: seq<Trunk>, r: seq<Trunk>, a: set<Id>, b: set<Id>, c: set<Id>)
    requires IdsOf(p) == Sorted(a) && IdsOf(q) == Sorted(b) && IdsOf(r) == Sorted(c)
    ensures IdsOf(SortItems(p + q + r)) == MergeThree(a, b, c)
  {
    SortedHasAll(a);
    SortedHasAll(b);
    SortedHasAll(c);
    SortThree(p, q, r);
  }

  /** Whatever the filter, a page is the first `limit` of what the cuts of the key spaces leave and the filter keeps. */
  lemma FilteredPage(s: Store, page: Page, keep: Trunk -> bool)
    requires page.limit > 0
    ensures ListedIds(s, page, keep) == Take(StoreMerge(s, page, keep), page.limit)
  {
    PageHolds(s.legacy, page, keep);
    PageHolds(s.inbound, page, keep);
    PageHolds(s.outbound, page, keep);
    SortSets(KeptPage(s.legacy, Some(page), keep), KeptPage(s.inbound, Some(page), keep),
             KeptPage(s.outbound, Some(page), keep),
             CutKept(s.legacy, page, keep), CutKept(s.inbound, page, keep), CutKept(s.outbound, page, keep));
    SortPageTakes(MergedPages(s, Some(page), keep), page);
  }

  /** The inbound and outbound listings are the full listing of a store with only two key spaces. */
  lemma DirectionIsStore(direction: KeySpace, legacy: KeySpace, page: Option<Page>, keep: Trunk -> bool)
    ensures ListedDirection(direction, legacy, page, keep) == ListedTrunks(Store(direction, legacy, map[]), page, keep)
  {
    var empty: KeySpace := map[];
    assert PageOf(empty.Keys, page) == [];
    assert LoadedPage(empty, page) == [];
    var merged := KeptPage(direction, page, keep) + KeptPage(legacy, page, keep);
    assert merged + [] == merged;
  }

  // ---------------------------------------------------------------------------------- no page, no limit

  lemma UncutListing(s: Store, page: Option<Page>, keep: Trunk -> bool, a: set<Id>, b: set<Id>, c: set<Id>)
    requires page.Some? ==> page.value.limit <= 0
    requires SetOf(PageOf(s.legacy.Keys, page)) == a && SetOf(PageOf(s.inbound.Keys, page)) == b
    requires SetOf(PageOf(s.outbound.Keys, page)) == c
    ensures IdsOf(ListedTrunks(s, page, keep))
         == MergeThree(a * KeptIds(s.legacy, keep), b * KeptIds(s.inbound, keep), c * KeptIds(s.outbound, keep))
  {
    KeptPageIs(s.legacy, page, keep);
    KeptPageIs(s.inbound, page, keep);
    KeptPageIs(s.outbound, page, keep);
    SortSets(KeptPage(s.legacy, page, keep), KeptPage(s.inbound, page, keep), KeptPage(s.outbound, page, keep),
             a * KeptIds(s.legacy, keep), b * KeptIds(s.inbound, keep), c * KeptIds(s.outbound, keep));
  }

  lemma AllOfSpace(space: KeySpace, keep: Trunk -> bool)
    ensures SetOf(PageOf(space.Keys, None)) == space.Keys && space.Keys * KeptIds(space, keep) == KeptIds(space, keep)
  {
    SortedHasAll(space.Keys);
  }

  /** Without a page a listing is all that the filter keeps, in order, an id as often as it has such records. */
  lemma UnpagedListsAll(s: Store, keep: Trunk -> bool)
    ensures IdsOf(ListedTrunks(s, None, keep))
         == MergeThree(KeptIds(s.legacy, keep), KeptIds(s.inbound, keep), KeptIds(s.outbound, keep))
  {
    AllOfSpace(s.legacy, keep);
    AllOfSpace(s.inbound, keep);
    AllOfSpace(s.outbound, keep);
    UncutListing(s, None, keep, s.legacy.Keys, s.inbound.Keys, s.outbound.Keys);
  }

  /** The first thousand ids of a key space above the after-id, as far as the filter keeps them. */
  function FirstThousandKept(space: KeySpace, afterId: Id, keep: Trunk -> bool): set<Id> {
    SetOf(FirstN(Above(space.Keys, afterId), 1000)) * KeptIds(space, keep)
  }

  /** With a page but no limit it is what the filter keeps of the first thousand of each key space, not cut again. */
  lemma UnlimitedListsThousands(s: Store, page: Page, keep: Trunk -> bool)
    requires page.limit <= 0
    ensures IdsOf(ListedTrunks(s, Some(page), keep))
         == MergeThree(FirstThousandKept(s.legacy, page.afterId, keep),
                       FirstThousandKept(s.inbound, page.afterId, keep),
                       FirstThousandKept(s.outbound, page.afterId, keep))
  {
    var after := page.afterId;
    UncutListing(s, Some(page), keep, SetOf(FirstN(Above(s.legacy.Keys, after), 1000)),
                 SetOf(FirstN(Above(s.inbound.Keys, after), 1000)), SetOf(FirstN(Above(s.outbound.Keys, after), 1000)));
  }

  lemma NothingSorted()
    ensures Sorted({}) == []
  {
  }

  /** The same for a direction and the legacy key space. */
  lemma UnpagedDirectionListsAll(direction: KeySpace, legacy: KeySpace, keep: Trunk -> bool)
    ensures IdsOf(ListedDirection(direction, legacy, None, keep))
         == Merge(Sorted(KeptIds(direction, keep)), Sorted(KeptIds(legacy, keep)))
  {
    DirectionIsStore(direction, legacy, None, keep);
    UnpagedListsAll(Store(direction, legacy, map[]), keep);
    assert KeptIds(map[], keep) == {};
    NothingSorted();
  }

  lemma UnlimitedDirectionListsThousands(direction: KeySpace, legacy: KeySpace, page: Page, keep: Trunk -> bool)
    requires page.limit <= 0
    ensures IdsOf(ListedDirection(direction, legacy, Some(page), keep))
         == Merge(Sorted(FirstThousandKept(direction, page.afterId, keep)),
                  Sorted(FirstThousandKept(legacy, page.afterId, keep)))
  {
    DirectionIsStore(direction, legacy, Some(page), keep);
    UnlimitedListsThousands(Store(direction, legacy, map[]), page, keep);
    assert FirstThousandKept(map[], page.afterId, keep) == {};
    NothingSorted();
  }

  // ---------------------------------------------------------------------------------- the records listed

  predicate IsRecord(space: KeySpace, t: Trunk) { t.id in space && space[t.id] == t.data }

  lemma {:induction false} InsertTallies(sorted: seq<Trunk>, item: Trunk, t: Trunk)
    ensures Tally(Insert(sorted, item), t) == Tally(sorted, t) + if t == item then 1 else 0
    decreases |sorted|
  {
    if sorted == [] || item.id <= sorted[0].id {
      assert ([item] + sorted)[1..] == sorted;
    } else {
      InsertTallies(sorted[1..], item, t);
      assert Insert(sorted, item)[1..] == Insert(sorted[1..], item);
    }
  }

  lemma {:induction false} SortTallies(items: seq<Trunk>, t: Trunk)
    ensures Tally(SortItems(items), t) == Tally(items, t)
    decreases |items|
  {
    if items != [] {
      SortTallies(items[1..], t);
      InsertTallies(SortItems(items[1..]), items[0], t);
    }
  }

  lemma {:induction false} TalliedIsIn(items: seq<Trunk>, t: Trunk)
    ensures t in items <==> Tally(items, t) > 0
  {
    if items != [] {
      TalliedIsIn(items[1..], t);
      assert items == [items[0]] + items[1..];
    }
  }

  lemma KeptAreRecords(space: KeySpace, page: Option<Page>, keep: Trunk -> bool, t: Trunk)
    requires t in KeptPage(space, page, keep)
    ensures IsRecord(space, t) && keep(t)
  {
    LoadedFacts(space, page);
    KeptAscends(LoadedPage(space, page), keep);
  }

  /** Every trunk listed is a record that the filter keeps, of one of the key spaces, as it is stored there. */
  lemma ListedAreRecords(s: Store, page: Option<Page>, keep: Trunk -> bool, t: Trunk)
    requires t in ListedTrunks(s, page, keep)
    ensures keep(t) && (IsRecord(s.legacy, t) || IsRecord(s.inbound, t) || IsRecord(s.outbound, t))
  {
    var merged := MergedPages(s, page, keep);
    assert t in SortItems(merged);
    TalliedIsIn(SortItems(merged), t);
    SortTallies(merged, t);
    TalliedIsIn(merged, t);
    if t in KeptPage(s.legacy, page, keep) {
      KeptAreRecords(s.legacy, page, keep, t);
    } else if t in KeptPage(s.inbound, page, keep) {
      KeptAreRecords(s.inbound, page, keep, t);
    } else {
      KeptAreRecords(s.outbound, page, keep, t);
    }
  }

  // ---------------------------------------------------------------------------------- the next page

  lemma AboveUnion(a: set<Id>, b: set<Id>, afterId: Id)
    ensures Above(a + b, afterId) == Above(a, afterId) + Above(b, afterId)
  {
  }

  predicate KeepsEverything(keep: Trunk -> bool, space: KeySpace) {
    forall id | id in space :: keep(Trunk(id, space[id]))
  }

  ghost predicate Plain(s: Store, keep: Trunk -> bool) {
    KeepsEverything(keep, s.legacy) && KeepsEverything(keep, s.inbound) && KeepsEverything(keep, s.outbound)
  }

  /** No trunk has a record in two key spaces. */
  ghost predicate Disjoint(s: Store) { s.legacy.Keys !! s.inbound.Keys !! s.outbound.Keys }

  lemma PlainCuts(space: KeySpace, page: Page, keep: Trunk -> bool)
    requires KeepsEverything(keep, space) && page.limit > 0
    ensures KeptIds(space, keep) == space.Keys
    ensures CutKept(space, page, keep) == Cut(space, page)
  {
    CutSize(Above(space.Keys, page.afterId), page.limit);
  }

  /** The ids of the three key spaces above the after-id in order, an id as often as it has records. */
  function MergeAbove(s: Store, afterId: Id): seq<Id> {
    MergeThree(Above(s.legacy.Keys, afterId), Above(s.inbound.Keys, afterId), Above(s.outbound.Keys, afterId))
  }

  /** With no filter, a page of the three key spaces is the next `limit` of their records' ids. */
  lemma TrunkPageIsNext(s: Store, page: Page, keep: Trunk -> bool)
    requires Plain(s, keep) && page.limit > 0
    ensures ListedIds(s, page, keep) == Take(MergeAbove(s, page.afterId), page.limit)
  {
    FilteredPage(s, page, keep);
    PlainCuts(s.legacy, page, keep);
    PlainCuts(s.inbound, page, keep);
    PlainCuts(s.outbound, page, keep);
    var after := page.afterId;
    var a, b, c := Above(s.legacy.Keys, after), Above(s.inbound.Keys, after), Above(s.outbound.Keys, after);
    CutSetsThenMerge(a, b, c, page.limit);
  }

  /** With one record for each trunk that is the next `limit` of their union. */
  lemma DistinctPageIsNext(s: Store, page: Page, keep: Trunk -> bool)
    requires Plain(s, keep) && Disjoint(s) && page.limit > 0
    ensures ListedIds(s, page, keep) == FirstN(Above(s.Ids(), page.afterId), page.limit)
  {
    var after := page.afterId;
    var a, b, c := Above(s.legacy.Keys, after), Above(s.inbound.Keys, after), Above(s.outbound.Keys, after);
    TrunkPageIsNext(s, page, keep);
    AboveUnion(s.legacy.Keys, s.inbound.Keys, after);
    AboveUnion(s.legacy.Keys + s.inbound.Keys, s.outbound.Keys, after);
    MergeOfDisjoint(a, b, c);
    TakeIsFirstN(a + b + c, page.limit);
  }

  /** The same for the two key spaces of a direction. */
  lemma DirectionPageIsNext(direction: KeySpace, legacy: KeySpace, page: Page, keep: Trunk -> bool)
    requires KeepsEverything(keep, direction) && KeepsEverything(keep, legacy) && page.limit > 0
    ensures IdsOf(ListedDirection(direction, legacy, Some(page), keep))
         == Take(Merge(Sorted(Above(direction.Keys, page.afterId)), Sorted(Above(legacy.Keys, page.afterId))),
                 page.limit)
  {
    DirectionIsStore(direction, legacy, Some(page), keep);
    TrunkPageIsNext(Store(direction, legacy, map[]), page, keep);
  }

  // ---------------------------------------------------------------------------------- chaining

  /** The pages a client gets that asks on with the last id of each page until one is empty. */
  function Pages(ids: set<Id>, afterId: Id, limit: nat): seq<seq<Id>>
    requires limit > 0
    decreases |Above(ids, afterId)|
  {
    var page := FirstN(Above(ids, afterId), limit);
    if page == [] then []
    else
      NextIsSmaller(ids, afterId, limit);
      [page] + Pages(ids, page[|page|-1], limit)
  }

  function Flatten(pages: seq<seq<Id>>): seq<Id> {
    if pages == [] then [] else pages[0] + Flatten(pages[1..])
  }

  /** A page, then everything above its last id: that is everything. */
  lemma PageThenRest(ids: set<Id>, limit: nat)
    requires limit > 0 && ids != {}
    ensures var page := FirstN(ids, limit);
            page != [] && Sorted(ids) == page + Sorted(Above(ids, page[|page|-1]))
  {
    var page := FirstN(ids, limit);
    TakeOfFirstN(ids, |ids|, |page|);
    FirstNExact(ids, limit);
    SortedHasAll(ids);
    SplitsAscending(Sorted(ids), |page|);
    DropBelow(ids, page[|page|-1], |page|);
  }

  lemma SplitsAscending(s: seq<Id>, n: nat)
    requires 0 < n <= |s| && Ascending(s)
    ensures forall k :: 0 <= k < |s| ==> (k < n <==> s[k] <= s[..n][n-1])
    ensures s == s[..n] + s[n..]
  {
  }

  lemma FirstNExact(ids: set<Id>, n: nat)
    ensures FirstN(ids, |FirstN(ids, n)|) == FirstN(ids, n)
  {
    if n > |ids| {
      FirstNEnough(ids, n);
    }
  }

  lemma AboveShrinks(ids: set<Id>, afterId: Id, last: Id)
    requires last in Above(ids, afterId)
    ensures Above(ids, last) == Above(Above(ids, afterId), last)
    ensures |Above(ids, last)| < |Above(ids, afterId)|
  {
    assert last !in Above(ids, last);
    SubsetSize(Above(ids, last), Above(ids, afterId));
  }

  lemma NextIsSmaller(ids: set<Id>, afterId: Id, limit: nat)
    requires limit > 0
    ensures var page := FirstN(Above(ids, afterId), limit);
            page != [] ==>
              && Above(ids, page[|page|-1]) == Above(Above(ids, afterId), page[|page|-1])
              && |Above(ids, page[|page|-1])| < |Above(ids, afterId)|
  {
    var page := FirstN(Above(ids, afterId), limit);
    if page != [] {
      assert page[|page|-1] in page;
      AboveShrinks(ids, afterId, page[|page|-1]);
    }
  }

  /** Chained pages end, and return every id after the start exactly once, in ascending order. */
  lemma {:induction false} ChainedPagesAreComplete(ids: set<Id>, afterId: Id, limit: nat)
    requires limit > 0
    ensures Flatten(Pages(ids, afterId, limit)) == Sorted(Above(ids, afterId))
    decreases |Above(ids, afterId)|
  {
    var above := Above(ids, afterId);
    var page := FirstN(above, limit);
    if page == [] {
      assert above == {};
    } else {
      NextIsSmaller(ids, afterId, limit);
      PageThenRest(above, limit);
      var rest := Pages(ids, page[|page|-1], limit);
      ChainedPagesAreComplete(ids, page[|page|-1], limit);
      assert ([page] + rest)[1..] == rest;
    }
  }

  /** All of a set comes after the last id of a page, which then is not empty. */
  ghost predicate Later(rest: set<Id>, ids: seq<Id>) {
    forall id :: id in rest ==> ids != [] && id > ids[|ids|-1]
  }

  lemma TakeFacts(m: seq<Id>, left: set<Id>, limit: nat)
    requires Nondecreasing(m) && (forall id :: id in m <==> id in left) && limit > 0
    ensures var ids := Take(m, limit);
            && Nondecreasing(ids) && SetOf(ids) <= left && Later(left - SetOf(ids), ids) && |ids| <= limit
            && (ids != [] ==> ids[|ids|-1] in left)
  {
    var ids := Take(m, limit);
    assert ids != [] ==> ids[|ids|-1] in ids;
    forall id | id in left - SetOf(ids)
      ensures ids != [] && id > ids[|ids|-1]
    {
      var k :| 0 <= k < |m| && m[k] == id;
      assert k >= |ids|;
      assert ids[|ids|-1] in SetOf(ids);
    }
  }

  /** A listed page is some of what is left of the cuts, in order, and the rest of that comes after it. */
  lemma PageFacts(s: Store, page: Page, keep: Trunk -> bool)
    requires page.limit > 0
    ensures var ids := ListedIds(s, page, keep);
            var left := StoreCutKept(s, page, keep);
            && Nondecreasing(ids) && SetOf(ids) <= left && Later(left - SetOf(ids), ids) && |ids| <= page.limit
            && (ids != [] ==> ids[|ids|-1] in left)
  {
    FilteredPage(s, page, keep);
    MergeThreeSorts(CutKept(s.legacy, page, keep), CutKept(s.inbound, page, keep), CutKept(s.outbound, page, keep));
    TakeFacts(StoreMerge(s, page, keep), StoreCutKept(s, page, keep), page.limit);
  }

  lemma CutIsAbove(space: KeySpace, page: Page, keep: Trunk -> bool)
    requires page.limit > 0
    ensures CutKept(space, page, keep) <= Above(space.Keys, page.afterId)
    ensures CutKept(space, page, keep) <= Above(KeptIds(space, keep), page.afterId)
  {
  }

  lemma LeftIsAbove(s: Store, page: Page, keep: Trunk -> bool)
    requires page.limit > 0
    ensures StoreCutKept(s, page, keep) <= Above(s.Ids(), page.afterId)
  {
    CutIsAbove(s.legacy, page, keep);
    CutIsAbove(s.inbound, page, keep);
    CutIsAbove(s.outbound, page, keep);
  }

  /** So asking on gets ahead. */
  lemma PageGetsAhead(s: Store, page: Page, keep: Trunk -> bool)
    requires page.limit > 0
    ensures var ids := ListedIds(s, page, keep);
            ids != [] ==> ids[|ids|-1] > page.afterId
                          && |Above(s.Ids(), ids[|ids|-1])| < |Above(s.Ids(), page.afterId)|
  {
    PageFacts(s, page, keep);
    LeftIsAbove(s, page, keep);
    var ids := ListedIds(s, page, keep);
    if ids != [] {
      SubsetSize(Above(s.Ids(), ids[|ids|-1]), Above(s.Ids(), page.afterId));
    }
  }

  /** The pages a client collects from the full listing, asking on until a page is empty. */
  function Chain(s: Store, afterId: Id, limit: nat, keep: Trunk -> bool): seq<seq<Id>>
    requires limit > 0
    decreases |Above(s.Ids(), afterId)|
  {
    PageGetsAhead(s, Page(afterId, limit), keep);
    var ids := ListedIds(s, Page(afterId, limit), keep);
    if ids == [] then [] else [ids] + Chain(s, ids[|ids|-1], limit, keep)
  }

  lemma {:induction false} ChainIsPages(s: Store, afterId: Id, limit: nat, keep: Trunk -> bool)
    requires Plain(s, keep) && Disjoint(s) && limit > 0
    ensures Chain(s, afterId, limit, keep) == Pages(s.Ids(), afterId, limit)
    decreases |Above(s.Ids(), afterId)|
  {
    DistinctPageIsNext(s, Page(afterId, limit), keep);
    NextIsSmaller(s.Ids(), afterId, limit);
    var page := FirstN(Above(s.Ids(), afterId), limit);
    if page != [] {
      ChainIsPages(s, page[|page|-1], limit, keep);
    }
  }

  /**
   With one record for each trunk and no filter, chaining lists every trunk above the start exactly once,
   ascending.
   */
  lemma DistinctChainSorts(s: Store, afterId: Id, limit: nat, keep: Trunk -> bool)
    requires Plain(s, keep) && Disjoint(s) && limit > 0
    ensures Flatten(Chain(s, afterId, limit, keep)) == Sorted(Above(s.Ids(), afterId))
  {
    ChainIsPages(s, afterId, limit, keep);
    ChainedPagesAreComplete(s.Ids(), afterId, limit);
  }

  // ---------------------------------------------------------------------------------- filtered pages

  function StoreKept(s: Store, keep: Trunk -> bool): set<Id> {
    KeptIds(s.legacy, keep) + KeptIds(s.inbound, keep) + KeptIds(s.outbound, keep)
  }

  /** No kept id above the after-id is left behind by asking on with the last listed id. */
  ghost predicate PassesNothing(s: Store, page: Page, keep: Trunk -> bool) {
    var ids := ListedIds(s, page, keep);
    Later(Above(StoreKept(s, keep), page.afterId) - SetOf(ids), ids)
  }

  /** What the filter keeps of a key space beyond its cut. */
  function Beyond(space: KeySpace, page: Page, keep: Trunk -> bool): set<Id>
    requires page.limit > 0
  {
    Above(KeptIds(space, keep), page.afterId) - Cut(space, page)
  }

  /**
   Of each key space what was cut off, and that no other key space has left, is later; an empty page has no
   such thing.
   */
  ghost predicate Clear(s: Store, page: Page, keep: Trunk -> bool)
    requires page.limit > 0
  {
    var ids, left := ListedIds(s, page, keep), StoreCutKept(s, page, keep);
    Later(Beyond(s.legacy, page, keep) - left, ids) && Later(Beyond(s.inbound, page, keep) - left, ids)
    && Later(Beyond(s.outbound, page, keep) - left, ids)
  }

  lemma KeptSplits(space: KeySpace, page: Page, keep: Trunk -> bool)
    requires page.limit > 0
    ensures Above(KeptIds(space, keep), page.afterId) == CutKept(space, page, keep) + Beyond(space, page, keep)
  {
    CutSize(Above(space.Keys, page.afterId), page.limit);
  }

  /** What the filter keeps is what is left of the cuts and what was cut off. */
  lemma StoreKeptSplits(s: Store, page: Page, keep: Trunk -> bool)
    requires page.limit > 0
    ensures Above(StoreKept(s, keep), page.afterId)
         == StoreCutKept(s, page, keep)
            + (Beyond(s.legacy, page, keep) + Beyond(s.inbound, page, keep) + Beyond(s.outbound, page, keep))
  {
    KeptSplits(s.legacy, page, keep);
    KeptSplits(s.inbound, page, keep);
    KeptSplits(s.outbound, page, keep);
    AboveUnion(KeptIds(s.legacy, keep), KeptIds(s.inbound, keep), page.afterId);
    AboveUnion(KeptIds(s.legacy, keep) + KeptIds(s.inbound, keep), KeptIds(s.outbound, keep), page.afterId);
    Rearranged(CutKept(s.legacy, page, keep), CutKept(s.inbound, page, keep), CutKept(s.outbound, page, keep),
               Beyond(s.legacy, page, keep), Beyond(s.inbound, page, keep), Beyond(s.outbound, page, keep));
  }

  lemma Rearranged(a: set<Id>, b: set<Id>, c: set<Id>, x: set<Id>, y: set<Id>, z: set<Id>)
    ensures (a + x) + (b + y) + (c + z) == (a + b + c) + (x + y + z)
  {
  }

  /**
   Of a page that holds some of `left` the rest comes later, so all of `left + beyond` does when the rest of
   `beyond` does.
   */
  lemma LaterExactly(left: set<Id>, beyond: set<Id>, ids: seq<Id>)
    requires SetOf(ids) <= left && Later(left - SetOf(ids), ids)
    ensures Later(left + beyond - SetOf(ids), ids) <==> Later(beyond - left, ids)
  {
    assert left + beyond - SetOf(ids) == (left - SetOf(ids)) + (beyond - left);
  }

  lemma LaterUnion(a: set<Id>, b: set<Id>, c: set<Id>, left: set<Id>, ids: seq<Id>)
    ensures Later(a + b + c - left, ids) <==> Later(a - left, ids) && Later(b - left, ids) && Later(c - left, ids)
  {
    assert a + b + c - left == (a - left) + (b - left) + (c - left);
  }

  /**
   Asking on from a page passes nothing over exactly when of every key space what the filter keeps beyond
   the cut, and no other cut has left, lies above the last listed id, or, after an empty page, there is no such thing.
   */
  lemma PassesNothingExactly(s: Store, page: Page, keep: Trunk -> bool)
    requires page.limit > 0
    ensures PassesNothing(s, page, keep) <==> Clear(s, page, keep)
  {
    var ids, left := ListedIds(s, page, keep), StoreCutKept(s, page, keep);
    var a, b, c := Beyond(s.legacy, page, keep), Beyond(s.inbound, page, keep), Beyond(s.outbound, page, keep);
    PageFacts(s, page, keep);
    StoreKeptSplits(s, page, keep);
    LaterExactly(left, a + b + c, ids);
    LaterUnion(a, b, c, left, ids);
  }

  /** Nothing within the cuts is dropped. */
  ghost predicate KeepsCuts(s: Store, page: Page, keep: Trunk -> bool)
    requires page.limit > 0
  {
    && Cut(s.legacy, page) <= KeptIds(s.legacy, keep)
    && Cut(s.inbound, page) <= KeptIds(s.inbound, keep)
    && Cut(s.outbound, page) <= KeptIds(s.outbound, keep)
  }

  lemma SameSizeSubset(small: set<Id>, large: set<Id>)
    requires small <= large && |small| >= |large|
    ensures small == large
  {
    SubsetSize(small, large);
  }

  lemma {:induction false} FewIds(s: seq<Id>)
    ensures |SetOf(s)| <= |s|
  {
    if s != [] {
      FewIds(s[1..]);
      assert s == [s[0]] + s[1..];
      assert SetOf(s) == SetOf(s[1..]) + {s[0]};
    }
  }

  /** What a full cut leaves behind comes after any page of that size taken from ids among which is the cut. */
  lemma FullCutIsBelow(all: set<Id>, limit: nat, left: set<Id>, ids: seq<Id>, id: Id)
    requires limit > 0 && SetOf(FirstN(all, limit)) <= left
    requires Nondecreasing(ids) && Later(left - SetOf(ids), ids) && |ids| <= limit
    requires id in all && id !in SetOf(FirstN(all, limit))
    ensures ids != [] && ids[|ids|-1] < id
  {
    var cut := SetOf(FirstN(all, limit));
    FirstNIsFirst(all, limit, id);
    CutSize(all, limit);
    FewIds(ids);
    if cut <= SetOf(ids) {
      SameSizeSubset(cut, SetOf(ids));
      assert ids != [];
      assert ids[|ids|-1] in SetOf(ids);
    } else {
      var y :| y in cut && y !in SetOf(ids);
      assert y in left - SetOf(ids);
    }
  }

  lemma KeptCutIsLater(space: KeySpace, page: Page, keep: Trunk -> bool, left: set<Id>, ids: seq<Id>)
    requires page.limit > 0 && Cut(space, page) <= left
    requires Nondecreasing(ids) && Later(left - SetOf(ids), ids) && |ids| <= page.limit
    ensures Later(Beyond(space, page, keep) - left, ids)
  {
    forall id | id in Beyond(space, page, keep) - left
      ensures ids != [] && ids[|ids|-1] < id
    {
      FullCutIsBelow(Above(space.Keys, page.afterId), page.limit, left, ids, id);
    }
  }

  /** In particular nothing is passed over when the filter drops nothing within the cuts. */
  lemma KeptCutsPassNothing(s: Store, page: Page, keep: Trunk -> bool)
    requires page.limit > 0 && KeepsCuts(s, page, keep)
    ensures PassesNothing(s, page, keep) && Clear(s, page, keep)
  {
    PageFacts(s, page, keep);
    var ids, left := ListedIds(s, page, keep), StoreCutKept(s, page, keep);
    KeptCutIsLater(s.legacy, page, keep, left, ids);
    KeptCutIsLater(s.inbound, page, keep, left, ids);
    KeptCutIsLater(s.outbound, page, keep, left, ids);
    PassesNothingExactly(s, page, keep);
  }

  /** Every page on the way of a chain is clear. */
  ghost predicate ClearChain(s: Store, afterId: Id, limit: nat, keep: Trunk -> bool)
    requires limit > 0
    decreases |Above(s.Ids(), afterId)|
  {
    PageGetsAhead(s, Page(afterId, limit), keep);
    var ids := ListedIds(s, Page(afterId, limit), keep);
    Clear(s, Page(afterId, limit), keep) && (ids != [] ==> ClearChain(s, ids[|ids|-1], limit, keep))
  }

  /** The ids a chain collects. */
  function Collected(s: Store, afterId: Id, limit: nat, keep: Trunk -> bool): seq<Id>
    requires limit > 0
  {
    Flatten(Chain(s, afterId, limit, keep))
  }

  lemma FlattenFirst(first: seq<Id>, rest: seq<seq<Id>>)
    ensures Flatten([first] + rest) == first + Flatten(rest)
  {
    assert ([first] + rest)[1..] == rest;
  }

  lemma CollectedSplits(s: Store, afterId: Id, limit: nat, keep: Trunk -> bool)
    requires limit > 0
    ensures var ids := ListedIds(s, Page(afterId, limit), keep);
            Collected(s, afterId, limit, keep)
            == if ids == [] then [] else ids + Collected(s, ids[|ids|-1], limit, keep)
  {
    var ids := ListedIds(s, Page(afterId, limit), keep);
    if ids != [] {
      FlattenFirst(ids, Chain(s, ids[|ids|-1], limit, keep));
    }
  }

  lemma JoinsNondecreasing(a: seq<Id>, b: seq<Id>)
    requires a != [] && Nondecreasing(a) && Nondecreasing(b) && SetOf(b) <= Above(SetOf(b), a[|a|-1])
    ensures Nondecreasing(a + b)
    ensures Ascending(a + b) <==> Ascending(a) && Ascending(b)
  {
    forall i, j | 0 <= i < |a| <= j < |a + b|
      ensures (a + b)[i] < (a + b)[j]
    {
      assert (a + b)[j] == b[j - |a|] && b[j - |a|] in SetOf(b);
    }
    if Ascending(a + b) {
      assert forall i :: 0 <= i < |a| ==> a[i] == (a + b)[i];
      assert forall i :: 0 <= i < |b| ==> b[i] == (a + b)[|a| + i];
    }
  }

  /** A page lists kept ids above its after-id, in order. */
  lemma PageIsKept(s: Store, page: Page, keep: Trunk -> bool)
    requires page.limit > 0
    ensures Nondecreasing(ListedIds(s, page, keep))
    ensures SetOf(ListedIds(s, page, keep)) <= Above(StoreKept(s, keep), page.afterId)
  {
    PageFacts(s, page, keep);
    StoreKeptSplits(s, page, keep);
  }

  lemma SetOfJoin(a: seq<Id>, b: seq<Id>)
    ensures SetOf(a + b) == SetOf(a) + SetOf(b)
    ensures forall id :: id in b <==> id in SetOf(b)
  {
  }

  /** Every id of a page is below all ids of the later pages. */
  ghost predicate PagesRise(pages: seq<seq<Id>>) {
    forall i, j :: 0 <= i < j < |pages| ==> forall x, y :: x in pages[i] && y in pages[j] ==> x < y
  }

  lemma {:induction false} InFlat(pages: seq<seq<Id>>, j: nat, y: Id)
    requires j < |pages| && y in pages[j]
    ensures y in Flatten(pages)
  {
    if j > 0 {
      InFlat(pages[1..], j - 1, y);
    }
  }

  lemma PageBelowRest(ids: seq<Id>, pages: seq<seq<Id>>)
    requires ids != [] && Nondecreasing(ids) && PagesRise(pages)
    requires forall y :: y in Flatten(pages) ==> y > ids[|ids|-1]
    ensures PagesRise([ids] + pages)
  {
    forall i, j, x, y | 0 <= i < j < |[ids] + pages| && x in ([ids] + pages)[i] && y in ([ids] + pages)[j]
      ensures x < y
    {
      assert ([ids] + pages)[j] == pages[j - 1];
      InFlat(pages, j - 1, y);
    }
  }

  /** Whatever the filter, a chain ends, collects only what it keeps, never goes down, and has no id in two pages. */
  lemma {:induction false} ChainIsSound(s: Store, afterId: Id, limit: nat, keep: Trunk -> bool)
    requires limit > 0
    ensures Nondecreasing(Collected(s, afterId, limit, keep))
    ensures SetOf(Collected(s, afterId, limit, keep)) <= Above(StoreKept(s, keep), afterId)
    ensures PagesRise(Chain(s, afterId, limit, keep))
    decreases |Above(s.Ids(), afterId)|
  {
    var ids := ListedIds(s, Page(afterId, limit), keep);
    PageGetsAhead(s, Page(afterId, limit), keep);
    PageIsKept(s, Page(afterId, limit), keep);
    CollectedSplits(s, afterId, limit, keep);
    if ids != [] {
      var rest := Collected(s, ids[|ids|-1], limit, keep);
      ChainIsSound(s, ids[|ids|-1], limit, keep);
      SetOfJoin(ids, rest);
      JoinsNondecreasing(ids, rest);
      PageBelowRest(ids, Chain(s, ids[|ids|-1], limit, keep));
    }
  }

  lemma NothingLater(rest: set<Id>)
    ensures Later(rest, []) <==> rest == {}
  {
    if rest != {} {
      var id :| id in rest;
    }
  }

  /**
   A page and what is collected after it are everything exactly when the page passes nothing over and the
   rest is complete.
   */
  lemma PageThenLater(kept: set<Id>, afterId: Id, ids: seq<Id>, rest: set<Id>)
    requires ids != [] && Nondecreasing(ids) && SetOf(ids) <= Above(kept, afterId)
    requires rest <= Above(kept, ids[|ids|-1])
    ensures SetOf(ids) + rest == Above(kept, afterId) <==>
            Later(Above(kept, afterId) - SetOf(ids), ids) && rest == Above(kept, ids[|ids|-1])
  {
    var last, todo := ids[|ids|-1], Above(kept, afterId);
    assert last in SetOf(ids);
    assert forall id :: id in SetOf(ids) ==> id <= last;
    if SetOf(ids) + rest == todo {
      assert forall id :: id in Above(kept, last) ==> id in todo;
    }
    if Later(todo - SetOf(ids), ids) && rest == Above(kept, last) {
      forall id | id in todo && id !in SetOf(ids)
        ensures id in rest
      {
        assert id in todo - SetOf(ids);
      }
    }
  }

  /** And it collects everything the filter keeps exactly when every page on its way is clear. */
  lemma {:induction false} FilteredChainExactly(s: Store, afterId: Id, limit: nat, keep: Trunk -> bool)
    requires limit > 0
    ensures SetOf(Collected(s, afterId, limit, keep)) == Above(StoreKept(s, keep), afterId) <==>
            ClearChain(s, afterId, limit, keep)
    decreases |Above(s.Ids(), afterId)|
  {
    var ids := ListedIds(s, Page(afterId, limit), keep);
    PageGetsAhead(s, Page(afterId, limit), keep);
    PassesNothingExactly(s, Page(afterId, limit), keep);
    CollectedSplits(s, afterId, limit, keep);
    if ids == [] {
      assert SetOf(ids) == {};
      assert Above(StoreKept(s, keep), afterId) - SetOf(ids) == Above(StoreKept(s, keep), afterId);
      NothingLater(Above(StoreKept(s, keep), afterId));
    } else {
      var rest := Collected(s, ids[|ids|-1], limit, keep);
      FilteredChainExactly(s, ids[|ids|-1], limit, keep);
      ChainIsSound(s, ids[|ids|-1], limit, keep);
      PageIsKept(s, Page(afterId, limit), keep);
      SetOfJoin(ids, rest);
      PageThenLater(StoreKept(s, keep), afterId, ids, SetOf(rest));
    }
  }

  lemma SmallCutIsAll(space: KeySpace, page: Page, keep: Trunk -> bool)
    requires page.limit >= |space| && page.limit > 0
    ensures Beyond(space, page, keep) == {}
  {
    var above := Above(space.Keys, page.afterId);
    SubsetSize(above, space.Keys);
    FirstNEnough(above, page.limit);
    SortedHasAll(above);
  }

  lemma SmallPageIsClear(s: Store, page: Page, keep: Trunk -> bool)
    requires page.limit > 0 && page.limit >= |s.legacy| && page.limit >= |s.inbound| && page.limit >= |s.outbound|
    ensures Clear(s, page, keep)
  {
    SmallCutIsAll(s.legacy, page, keep);
    SmallCutIsAll(s.inbound, page, keep);
    SmallCutIsAll(s.outbound, page, keep);
  }

  lemma ClearStep(s: Store, afterId: Id, limit: nat, keep: Trunk -> bool)
    requires limit > 0 && Clear(s, Page(afterId, limit), keep)
    requires var ids := ListedIds(s, Page(afterId, limit), keep); ids != [] ==> ClearChain(s, ids[|ids|-1], limit, keep)
    ensures ClearChain(s, afterId, limit, keep)
  {
  }

  ghost predicate ClearAnywhere(s: Store, limit: nat, keep: Trunk -> bool)
    requires limit > 0
  {
    forall a :: Clear(s, Page(a, limit), keep)
  }

  /** A chain whose every page would be clear, wherever it starts, is clear. */
  lemma {:induction false} ClearPagesClearChain(s: Store, afterId: Id, limit: nat, keep: Trunk -> bool)
    requires limit > 0 && ClearAnywhere(s, limit, keep)
    ensures ClearChain(s, afterId, limit, keep)
    decreases |Above(s.Ids(), afterId)|
  {
    var ids := ListedIds(s, Page(afterId, limit), keep);
    PageGetsAhead(s, Page(afterId, limit), keep);
    if ids != [] {
      ClearPagesClearChain(s, ids[|ids|-1], limit, keep);
    }
    ClearStep(s, afterId, limit, keep);
  }

  /** A limit that no key space exceeds skips nothing, whatever the filter. */
  lemma LargeLimitIsClear(s: Store, afterId: Id, limit: nat, keep: Trunk -> bool)
    requires limit > 0
    requires limit >= |s.legacy| && limit >= |s.inbound| && limit >= |s.outbound|
    ensures ClearChain(s, afterId, limit, keep)
  {
    forall a
      ensures Clear(s, Page(a, limit), keep)
    {
      SmallPageIsClear(s, Page(a, limit), keep);
    }
    ClearPagesClearChain(s, afterId, limit, keep);
  }

  lemma PlainIsClear(s: Store, page: Page, keep: Trunk -> bool)
    requires Plain(s, keep) && page.limit > 0
    ensures Clear(s, page, keep)
  {
    PlainCuts(s.legacy, page, keep);
    PlainCuts(s.inbound, page, keep);
    PlainCuts(s.outbound, page, keep);
    KeptCutsPassNothing(s, page, keep);
  }

  lemma PlainChainIsClear(s: Store, afterId: Id, limit: nat, keep: Trunk -> bool)
    requires Plain(s, keep) && limit > 0
    ensures ClearChain(s, afterId, limit, keep)
  {
    forall a
      ensures Clear(s, Page(a, limit), keep)
    {
      PlainIsClear(s, Page(a, limit), keep);
    }
    ClearPagesClearChain(s, afterId, limit, keep);
  }

  lemma PlainKept(s: Store, keep: Trunk -> bool)
    requires Plain(s, keep)
    ensures StoreKept(s, keep) == s.Ids()
  {
    PlainCuts(s.legacy, Page(0, 1), keep);
    PlainCuts(s.inbound, Page(0, 1), keep);
    PlainCuts(s.outbound, Page(0, 1), keep);
  }

  /**
   Chaining the full listing with no filter returns every trunk above the start of the three key spaces,
   in order, none in two pages.
   */
  lemma ChainedListingIsComplete(s: Store, afterId: Id, limit: nat, keep: Trunk -> bool)
    requires Plain(s, keep) && limit > 0
    ensures SetOf(Collected(s, afterId, limit, keep)) == Above(s.Ids(), afterId)
    ensures Nondecreasing(Collected(s, afterId, limit, keep)) && PagesRise(Chain(s, afterId, limit, keep))
  {
    PlainChainIsClear(s, afterId, limit, keep);
    FilteredChainExactly(s, afterId, limit, keep);
    PlainKept(s, keep);
    ChainIsSound(s, afterId, limit, keep);
  }

  // ---------------------------------------------------------------------------------- once or twice

  /** In how many key spaces a kept record of the id is within the cut. */
  function Copies(s: Store, page: Page, keep: Trunk -> bool, id: Id): nat
    requires page.limit > 0
  {
    Once(id, CutKept(s.legacy, page, keep)) + Once(id, CutKept(s.inbound, page, keep))
    + Once(id, CutKept(s.outbound, page, keep))
  }

  /** How many kept records within the cuts have a smaller id. */
  function Smaller(s: Store, page: Page, keep: Trunk -> bool, id: Id): nat
    requires page.limit > 0
  {
    |Below(CutKept(s.legacy, page, keep), id)| + |Below(CutKept(s.inbound, page, keep), id)|
    + |Below(CutKept(s.outbound, page, keep), id)|
  }

  /** Two kept records of the id are within the cuts, with room on the page for both. */
  ghost predicate HasRoom(s: Store, page: Page, keep: Trunk -> bool, id: Id)
    requires page.limit > 0
  {
    Copies(s, page, keep, id) >= 2 && Smaller(s, page, keep, id) + 2 <= page.limit
  }

  ghost predicate ListsTwice(s: Store, page: Page, keep: Trunk -> bool)
    requires page.limit > 0
  {
    exists id :: id in StoreCutKept(s, page, keep) && HasRoom(s, page, keep, id)
  }

  lemma RoomExactly(s: Store, page: Page, keep: Trunk -> bool, id: Id)
    requires page.limit > 0
    ensures CutOff(StoreMerge(s, page, keep), page.limit, id) <==> !HasRoom(s, page, keep, id)
  {
    MergeThreeCounts(CutKept(s.legacy, page, keep), CutKept(s.inbound, page, keep),
                     CutKept(s.outbound, page, keep), id);
  }

  lemma RoomForAll(s: Store, page: Page, keep: Trunk -> bool)
    requires page.limit > 0
    requires forall id :: id in StoreMerge(s, page, keep) <==> id in StoreCutKept(s, page, keep)
    ensures RepeatsCutOff(StoreMerge(s, page, keep), page.limit) <==> !ListsTwice(s, page, keep)
  {
    forall id
      ensures CutOff(StoreMerge(s, page, keep), page.limit, id) <==> !HasRoom(s, page, keep, id)
    {
      RoomExactly(s, page, keep, id);
    }
  }

  /** A page lists each of its ids once exactly when no id has two records that both fit on it. */
  lemma PageOnceExactly(s: Store, page: Page, keep: Trunk -> bool)
    requires page.limit > 0
    ensures Ascending(ListedIds(s, page, keep)) <==> !ListsTwice(s, page, keep)
  {
    var m := StoreMerge(s, page, keep);
    FilteredPage(s, page, keep);
    MergeThreeSorts(CutKept(s.legacy, page, keep), CutKept(s.inbound, page, keep), CutKept(s.outbound, page, keep));
    TakeRepeats(m, page.limit);
    RoomForAll(s, page, keep);
  }

  /** No page on the way of a chain lists an id twice. */
  ghost predicate OnceChain(s: Store, afterId: Id, limit: nat, keep: Trunk -> bool)
    requires limit > 0
    decreases |Above(s.Ids(), afterId)|
  {
    PageGetsAhead(s, Page(afterId, limit), keep);
    var ids := ListedIds(s, Page(afterId, limit), keep);
    !ListsTwice(s, Page(afterId, limit), keep) && (ids != [] ==> OnceChain(s, ids[|ids|-1], limit, keep))
  }

  /** A chain collects each id once exactly when no page on its way has room for two records of one id. */
  lemma {:induction false} EachOnceExactly(s: Store, afterId: Id, limit: nat, keep: Trunk -> bool)
    requires limit > 0
    ensures Ascending(Collected(s, afterId, limit, keep)) <==> OnceChain(s, afterId, limit, keep)
    decreases |Above(s.Ids(), afterId)|
  {
    var ids := ListedIds(s, Page(afterId, limit), keep);
    PageGetsAhead(s, Page(afterId, limit), keep);
    PageIsKept(s, Page(afterId, limit), keep);
    PageOnceExactly(s, Page(afterId, limit), keep);
    CollectedSplits(s, afterId, limit, keep);
    if ids != [] {
      EachOnceExactly(s, ids[|ids|-1], limit, keep);
      ChainIsSound(s, ids[|ids|-1], limit, keep);
      JoinsNondecreasing(ids, Collected(s, ids[|ids|-1], limit, keep));
    }
  }

  lemma OncePage(s: Store, page: Page, keep: Trunk -> bool)
    requires page.limit > 0 && (Disjoint(s) || page.limit == 1)
    ensures !ListsTwice(s, page, keep)
  {
    PageHolds(s.legacy, page, keep);
    PageHolds(s.inbound, page, keep);
    PageHolds(s.outbound, page, keep);
  }

  /** That is so with one record for each trunk, and with pages of one. */
  lemma {:induction false} OneRecordOnce(s: Store, afterId: Id, limit: nat, keep: Trunk -> bool)
    requires limit > 0 && (Disjoint(s) || limit == 1)
    ensures OnceChain(s, afterId, limit, keep)
    decreases |Above(s.Ids(), afterId)|
  {
    var ids := ListedIds(s, Page(afterId, limit), keep);
    PageGetsAhead(s, Page(afterId, limit), keep);
    OncePage(s, Page(afterId, limit), keep);
    if ids != [] {
      OneRecordOnce(s, ids[|ids|-1], limit, keep);
    }
  }

  lemma OneSorted(space: KeySpace)
    requires space.Keys == {5}
    ensures Sorted(Above(space.Keys, 0)) == [5]
  {
    assert Above(space.Keys, 0) == {5};
    AscendingIsSorted([5], {5});
  }

  lemma NoneSorted(space: KeySpace)
    requires space.Keys == {}
    ensures Sorted(Above(space.Keys, 0)) == []
  {
    assert Above(space.Keys, 0) == {};
  }

  /** The two kinds of trunk that can be updated. */
  datatype Direction = Inbound | Outbound

  /** The record that is loaded for an update: that of the direction's key space, else the legacy one. */
  function LoadTrunk(s: Store, d: Direction, id: Id): Option<string> {
    var space := if d.Inbound? then s.inbound else s.outbound;
    if id in space then Some(space[id]) else if id in s.legacy then Some(s.legacy[id]) else None
  }

  /** An update changes the record loaded, unless that is refused, and stores it in the key space of its direction. */
  function UpdateTrunk(s: Store, d: Direction, id: Id, change: string -> Option<string>): Store {
    match LoadTrunk(s, d, id)
    case None => s
    case Some(data) =>
      if change(data).None? then s
      else if d.Inbound? then s.(inbound := s.inbound[id := change(data).value])
      else s.(outbound := s.outbound[id := change(data).value])
  }

  /** An update is made on the direction's own record if there is one, and touches no other and no other key space. */
  lemma UpdateExactly(s: Store, id: Id, change: string -> Option<string>)
    ensures
      var t := UpdateTrunk(s, Inbound, id, change);
      && t.legacy == s.legacy && t.outbound == s.outbound
      && (id in s.inbound && change(s.inbound[id]).Some? ==>
            t.inbound == s.inbound[id := change(s.inbound[id]).value])
      && (id !in s.inbound && id in s.legacy && change(s.legacy[id]).Some? ==>
            t.inbound == s.inbound[id := change(s.legacy[id]).value])
      && (id !in s.inbound && id !in s.legacy ==> t == s)
    ensures
      var t := UpdateTrunk(s, Outbound, id, change);
      && t.legacy == s.legacy && t.inbound == s.inbound
      && (id in s.outbound && change(s.outbound[id]).Some? ==>
            t.outbound == s.outbound[id := change(s.outbound[id]).value])
      && (id !in s.outbound && id in s.legacy && change(s.legacy[id]).Some? ==>
            t.outbound == s.outbound[id := change(s.legacy[id]).value])
      && (id !in s.outbound && id !in s.legacy ==> t == s)
  {
  }

  /** Each trunk keeps its one record exactly unless it is a legacy one that the update is not refused for. */
  lemma UpdateKeepsOneRecordExactly(s: Store, d: Direction, id: Id, change: string -> Option<string>)
    requires Disjoint(s)
    ensures Disjoint(UpdateTrunk(s, d, id, change)) <==> !(id in s.legacy && change(s.legacy[id]).Some?)
  {
    var t := UpdateTrunk(s, d, id, change);
    if id in s.legacy && change(s.legacy[id]).Some? {
      assert id in t.legacy.Keys && (id in t.inbound.Keys || id in t.outbound.Keys);
    }
  }

  /** After an update of a legacy trunk a page of two gives it twice, and so does chaining. */
  lemma UpdatedTrunkTwice(s: Store, keep: Trunk -> bool)
    requires s == UpdateTrunk(Store(map[5 := "old"], map[], map[]), Inbound, 5, _ => Some("new")) && Plain(s, keep)
    ensures ListedIds(s, Page(0, 2), keep) == [5, 5] && !Ascending(Collected(s, 0, 2, keep))
  {
    OneSorted(s.legacy);
    OneSorted(s.inbound);
    NoneSorted(s.outbound);
    assert [5][1..] == [] && Merge([5], []) == [5] && Merge([5], [5]) == [5, 5];
    TrunkPageIsNext(s, Page(0, 2), keep);
    CollectedSplits(s, 0, 2, keep);
    StartsTwice(Collected(s, 0, 2, keep), Collected(s, 5, 2, keep));
  }

  lemma StartsTwice(all: seq<Id>, rest: seq<Id>)
    requires all == [5, 5] + rest
    ensures !Ascending(all)
  {
    assert all[0] == all[1];
  }

  lemma NotInRest(ids: seq<Id>, rest: seq<Id>, id: Id)
    requires ids != [] && id !in ids && id < ids[|ids|-1] && SetOf(rest) <= Above(SetOf(rest), ids[|ids|-1])
    ensures id !in ids + rest
  {
    SetOfJoin(ids, rest);
  }

  lemma CollectsAbove(s: Store, afterId: Id, limit: nat, keep: Trunk -> bool)
    requires limit > 0
    ensures SetOf(Collected(s, afterId, limit, keep)) <= Above(SetOf(Collected(s, afterId, limit, keep)), afterId)
  {
    ChainIsSound(s, afterId, limit, keep);
  }

  lemma PassedOverLater(s: Store, afterId: Id, limit: nat, keep: Trunk -> bool, ids: seq<Id>, id: Id)
    requires limit > 0 && ids == ListedIds(s, Page(afterId, limit), keep)
    requires ids != [] && id !in ids && id < ids[|ids|-1]
    ensures id !in Collected(s, afterId, limit, keep)
  {
    CollectsAbove(s, ids[|ids|-1], limit, keep);
    NotInRest(ids, Collected(s, ids[|ids|-1], limit, keep), id);
    CollectedSplits(s, afterId, limit, keep);
  }

  /** A kept id that a page passes over is not found by the rest of the chain either. */
  lemma PassedOverIsLost(s: Store, afterId: Id, limit: nat, keep: Trunk -> bool, id: Id)
    requires limit > 0
    requires var ids := ListedIds(s, Page(afterId, limit), keep); id !in ids && (ids != [] ==> id < ids[|ids|-1])
    ensures id !in Collected(s, afterId, limit, keep)
  {
    var ids := ListedIds(s, Page(afterId, limit), keep);
    if ids == [] {
      CollectedSplits(s, afterId, limit, keep);
    } else {
      PassedOverLater(s, afterId, limit, keep, ids, id);
    }
  }

  /** The example's one page: 2 was cut off behind 1, which the filter drops, and 3 is listed. */
  lemma FilteredPageSkips()
    ensures var legacy, inbound := map[1 := "drop", 2 := "keep"], map[3 := "keep"];
            var keep := (t: Trunk) => t.data == "keep";
            ListedDirection(inbound, legacy, Some(Page(0, 1)), keep) == [Trunk(3, "keep")]
  {
    var legacy, inbound := map[1 := "drop", 2 := "keep"], map[3 := "keep"];
    var keep := (t: Trunk) => t.data == "keep";
    assert Above(legacy.Keys, 0) == {1, 2} && Above(inbound.Keys, 0) == {3};
    assert 1 in {1, 2} && Least({1, 2}) == 1;
    assert 3 in {3} && Least({3}) == 3;
    assert FirstN({1, 2} - {1}, 0) == [] && FirstN({3} - {3}, 0) == [];
    assert FirstN({1, 2}, 1) == [1] && FirstN({3}, 1) == [3];
    assert LoadedPage(legacy, Some(Page(0, 1))) == [Trunk(1, "drop")];
    assert LoadedPage(inbound, Some(Page(0, 1))) == [Trunk(3, "keep")];
    assert [Trunk(1, "drop")][..0] == [] && [Trunk(3, "keep")][..0] == [];
    assert Kept([Trunk(1, "drop")], keep) == [] && Kept([Trunk(3, "keep")], keep) == [Trunk(3, "keep")];
    assert [Trunk(3, "keep")][1..] == [];
    assert SortItems([Trunk(3, "keep")]) == [Trunk(3, "keep")];
  }

  /**
   A kept trunk that chaining never finds: a filter drops what is in a cut, and a later id of another key
   space is listed.
   */
  lemma FilteredChainSkips()
    ensures var s := Store(map[3 := "keep"], map[1 := "drop", 2 := "keep"], map[]);
            var keep := (t: Trunk) => t.data == "keep";
            2 in StoreKept(s, keep) && 2 !in Collected(s, 0, 1, keep) && !ClearChain(s, 0, 1, keep)
  {
    var legacy, inbound := map[1 := "drop", 2 := "keep"], map[3 := "keep"];
    var keep := (t: Trunk) => t.data == "keep";
    var s := Store(inbound, legacy, map[]);
    FilteredPageSkips();
    DirectionIsStore(inbound, legacy, Some(Page(0, 1)), keep);
    assert ListedIds(s, Page(0, 1), keep) == [3];
    assert 2 in KeptIds(legacy, keep);
    PassedOverIsLost(s, 0, 1, keep, 2);
    assert 2 in Above(StoreKept(s, keep), 0);
    FilteredChainExactly(s, 0, 1, keep);
  }
}
