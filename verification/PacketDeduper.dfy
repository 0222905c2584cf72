/**
 Duplicate detection for user packets: the ids seen lately, as a linked list kept inside a map from
 each id to the one that came after it.
 */
module PacketDeduper {
  import opened Common

  /** A 16-byte id, read as a number; all that matters is equality and which one is zero. */
  type Uuid = nat

  const ZERO_UUID: Uuid := 0

  const MAX_SIZE := 100

  // ---------------------------------------------------------------------------------- reference

  /** The plain queue behind the map: the last 100 distinct ids, oldest first. */
  function Push(window: seq<Uuid>, id: Uuid): seq<Uuid> {
    if id in window then window
    else if |window| < MAX_SIZE then window + [id]
    else (window + [id])[|window| + 1 - MAX_SIZE..]
  }

  ghost predicate Distinct(window: seq<Uuid>) {
    forall i, j :: 0 <= i < j < |window| ==> window[i] != window[j]
  }

  // ---------------------------------------------------------------------------------- in place

  /** The keys of the successor map: every id of the window but the newest. */
  function KeysOf(window: seq<Uuid>): set<Uuid>
    requires window != []
  {
    set i | 0 <= i < |window| - 1 :: window[i]
  }

  lemma {:induction false} KeysSize(window: seq<Uuid>)
    requires window != [] && Distinct(window)
    ensures |KeysOf(window)| == |window| - 1
    decreases |window|
  {
    if |window| == 1 {
      assert KeysOf(window) == {};
    } else {
      var shorter, last := window[..|window|-1], window[|window|-2];
      KeysSize(shorter);
      assert shorter[..|shorter|-1] + [last] == window[..|window|-1];
      assert KeysOf(window) == KeysOf(shorter) + {last};
      assert last !in KeysOf(shorter);
    }
  }

  class UserPacketDeduper {
    var seen: map<Uuid, Uuid>
    var head: Uuid
    var tail: Uuid
    ghost var window: seq<Uuid>

    /** Following the map from the tail visits the window in order, without repeats, up to the head. */
    ghost predicate Valid()
      reads this
    {
      && 1 <= |window| <= MAX_SIZE && Distinct(window)
      && window[0] == tail && window[|window|-1] == head
      && seen.Keys == KeysOf(window)
      && (forall i :: 0 <= i < |window| - 1 ==> seen[window[i]] == window[i + 1])
    }

    constructor ()
      ensures Valid() && window == [ZERO_UUID]
    {
      seen, head, tail := map[], ZERO_UUID, ZERO_UUID;
      window := [ZERO_UUID];
    }

    /** A nonce that is not 16 bytes long is no id (None) and never a duplicate. */
    method IsDuplicate(nonce: Option<Uuid>) returns (duplicate: bool)
      requires Valid()
      modifies this
      ensures Valid()
      ensures duplicate <==> nonce.Some? && nonce.value in old(window)
      ensures window == if nonce.Some? then Push(old(window), nonce.value) else old(window)
    {
      if nonce.None? {
        return false;
      }
      var id := nonce.value;
      if head == id {
        return true;
      }
      if id in seen {
        return true;
      }
      assert id !in window;
      Link(id);
      KeysSize(window);
      if |seen| == MAX_SIZE {
        Unlink();
      }
      return false;
    }

    /** Hangs a new id behind the head. */
    method Link(id: Uuid)
      requires Valid() && id !in window
      modifies this
      ensures window == old(window) + [id] && Distinct(window)
      ensures window[0] == tail && head == id
      ensures seen.Keys == KeysOf(window)
      ensures forall i :: 0 <= i < |window| - 1 ==> seen[window[i]] == window[i + 1]
    {
      seen := seen[head := id];
      head := id;
      window := window + [id];
      assert window[..|window|-1] == old(window);
      assert old(window) == old(window)[..|old(window)|-1] + [old(head)];
    }

    /** Drops the oldest id. */
    method Unlink()
      requires |window| == MAX_SIZE + 1 && Distinct(window)
      requires window[0] == tail && window[|window|-1] == head
      requires seen.Keys == KeysOf(window)
      requires forall i :: 0 <= i < |window| - 1 ==> seen[window[i]] == window[i + 1]
      modifies this
      ensures Valid() && window == old(window)[1..]
    {
      var oldest := tail;
      assert oldest in window[..|window|-1];
      tail := seen[oldest];
      seen := seen - {oldest};
      window := window[1..];
      assert old(window)[..|old(window)|-1] == [oldest] + window[..|window|-1];
      assert oldest !in window;
    }
  }

  // ---------------------------------------------------------------------------------- theorems

  /** The window after a run of ids, starting with the zero id alone. */
  function WindowAfter(ids: seq<Uuid>): seq<Uuid> {
    if ids == [] then [ZERO_UUID] else Push(WindowAfter(ids[..|ids|-1]), ids[|ids|-1])
  }

  /** The ids that were not called duplicates, in order, after the zero id. */
  function FreshIds(ids: seq<Uuid>): seq<Uuid> {
    if ids == [] then [ZERO_UUID]
    else
      var before, id := ids[..|ids|-1], ids[|ids|-1];
      if id in WindowAfter(before) then FreshIds(before) else FreshIds(before) + [id]
  }

  function LastFew(s: seq<Uuid>): seq<Uuid> { if |s| <= MAX_SIZE then s else s[|s| - MAX_SIZE..] }

  /** The window is exactly the last 100 fresh ids, so eviction is oldest first. */
  lemma {:induction false} WindowIsLastFresh(ids: seq<Uuid>)
    ensures WindowAfter(ids) == LastFew(FreshIds(ids))
    decreases |ids|
  {
    if ids != [] {
      var before, id := ids[..|ids|-1], ids[|ids|-1];
      WindowIsLastFresh(before);
      if id !in WindowAfter(before) {
        PushLast(FreshIds(before), id);
      }
    }
  }

  lemma PushLast(f: seq<Uuid>, id: Uuid)
    requires id !in LastFew(f)
    ensures LastFew(f + [id]) == Push(LastFew(f), id)
  {
    if |f| >= MAX_SIZE {
      assert (f + [id])[|f| + 1 - MAX_SIZE..] == f[|f| + 1 - MAX_SIZE..] + [id];
      assert (f[|f| - MAX_SIZE..] + [id])[1..] == f[|f| + 1 - MAX_SIZE..] + [id];
    }
  }

  lemma RecentIsLast(f: seq<Uuid>, i: nat)
    requires |f| - MAX_SIZE <= i < |f|
    ensures f[i] in LastFew(f)
  {
    var w := LastFew(f);
    assert w[i - (|f| - |w|)] == f[i];
  }

  lemma LastIsRecent(f: seq<Uuid>, id: Uuid)
    requires id in LastFew(f)
    ensures exists i :: 0 <= i < |f| && |f| - MAX_SIZE <= i && f[i] == id
  {
    var w := LastFew(f);
    var k :| 0 <= k < |w| && w[k] == id;
    assert f[|f| - |w| + k] == id;
  }

  /** An id among the last 100 fresh ones is always recognised, and no other id is. */
  lemma DuplicateExactly(ids: seq<Uuid>, id: Uuid)
    ensures id in WindowAfter(ids) <==>
              exists i :: 0 <= i < |FreshIds(ids)| && |FreshIds(ids)| - MAX_SIZE <= i && FreshIds(ids)[i] == id
  {
    WindowIsLastFresh(ids);
    var f := FreshIds(ids);
    if id in LastFew(f) {
      LastIsRecent(f, id);
    } else {
      forall i | 0 <= i < |f| && |f| - MAX_SIZE <= i
        ensures f[i] != id
      {
        RecentIsLast(f, i);
      }
    }
  }

  /** An id that comes back is let through only after at least 99 other fresh ids. */
  lemma {:induction false} RepeatsAreFarApart(ids: seq<Uuid>, i: nat, j: nat)
    requires i < j < |FreshIds(ids)| && FreshIds(ids)[i] == FreshIds(ids)[j]
    ensures j - i >= MAX_SIZE
    decreases |ids|
  {
    if ids != [] {
      var before, id := ids[..|ids|-1], ids[|ids|-1];
      var f := FreshIds(before);
      if id in WindowAfter(before) || j < |f| {
        RepeatsAreFarApart(before, i, j);
      } else {
        if i >= |f| - MAX_SIZE {
          WindowIsLastFresh(before);
          RecentIsLast(f, i);
          assert false;
        }
      }
    }
  }
}
