/**
 The room's batch of participant updates: one cached update per identity, superseded sessions turned
 into disconnects, everything else sent at once or at the next tick.
 */
module UpdateBatcher {
  import opened Common

  type Identity = nat
  type Sid = nat

  datatype Lifecycle = Joining | Joined | Active | Disconnected

  datatype CloseReason = DuplicateIdentity | OtherReason(code: nat)

  datatype Info = Info(
    identity: Identity, sid: Sid, joinedAt: int, joinedAtMs: int,
    version: nat, isPublisher: bool, state: Lifecycle)

  /** `nr` is history: which of the accepted pushes this update came from. */
  datatype Update = Update(info: Info, synthesized: bool, reason: CloseReason, nr: nat)

  // ---------------------------------------------------------------------------------- session order

  function Sign(less: bool): int { if less then -1 else 1 }

  function CompareParticipant(a: Info, b: Info): int {
    if a.joinedAt != b.joinedAt then Sign(a.joinedAt < b.joinedAt)
    else if a.joinedAtMs != 0 && b.joinedAtMs != 0 && a.joinedAtMs != b.joinedAtMs then
      Sign(a.joinedAtMs < b.joinedAtMs)
    else if a.sid != b.sid then Sign(a.sid < b.sid)
    else 0
  }

  /** For any two infos: exactly one is the older, unless they agree on all that is compared. */
  lemma CompareTotal(a: Info, b: Info)
    ensures CompareParticipant(a, b) == -CompareParticipant(b, a)
    ensures CompareParticipant(a, b) == 0 <==>
            a.sid == b.sid && a.joinedAt == b.joinedAt
            && (a.joinedAtMs == b.joinedAtMs || a.joinedAtMs == 0 || b.joinedAtMs == 0)
  {
    if a.joinedAt == b.joinedAt {
      if a.joinedAtMs == 0 || b.joinedAtMs == 0 || a.joinedAtMs == b.joinedAtMs {
        assert a.sid != b.sid ==> CompareParticipant(a, b) == Sign(a.sid < b.sid);
      }
    }
  }

  /** The sid of `z`, which has no millisecond time, lies between those of two that disagree with their sids. */
  predicate Twisted(x: Info, z: Info, y: Info) {
    && x.joinedAt == y.joinedAt == z.joinedAt
    && z.joinedAtMs == 0 && x.joinedAtMs != 0 && y.joinedAtMs != 0
    && x.sid < z.sid < y.sid && y.joinedAtMs < x.joinedAtMs
  }

  /** Older-than is transitive on three sessions exactly when no missing millisecond time twists them. */
  lemma CompareTransitive(a: Info, b: Info, c: Info)
    requires a.sid != b.sid && b.sid != c.sid && a.sid != c.sid
    requires CompareParticipant(a, b) < 0 && CompareParticipant(b, c) < 0
    ensures CompareParticipant(a, c) < 0 <==> !Twisted(a, b, c) && !Twisted(b, c, a) && !Twisted(c, a, b)
  {
  }

  /** With every millisecond time present it is a strict total order. */
  lemma CompareTransitiveStamped(a: Info, b: Info, c: Info)
    requires a.joinedAtMs != 0 && b.joinedAtMs != 0 && c.joinedAtMs != 0
    requires CompareParticipant(a, b) <= 0 && CompareParticipant(b, c) <= 0
    ensures CompareParticipant(a, c) <= 0
    ensures CompareParticipant(a, b) < 0 || CompareParticipant(b, c) < 0 ==> CompareParticipant(a, c) < 0
  {
  }

  /** Three sessions each older than the next, in a circle. */
  lemma CompareCycles()
    ensures
      var a, b := Info(0, 1, 5, 2, 0, false, Active), Info(0, 2, 5, 0, 0, false, Active);
      var c := Info(0, 3, 5, 1, 0, false, Active);
      CompareParticipant(a, b) < 0 && CompareParticipant(b, c) < 0 && CompareParticipant(c, a) < 0
  {
    var a, b := Info(0, 1, 5, 2, 0, false, Active), Info(0, 2, 5, 0, 0, false, Active);
    var c := Info(0, 3, 5, 1, 0, false, Active);
    assert Twisted(a, b, c);
  }

  // ---------------------------------------------------------------------------------- steps

  /** The cache, and history: the infos accepted so far and the updates given out. */
  datatype State = State(cache: map<Identity, Update>, accepted: seq<Info>, out: seq<Update>)

  const INIT := State(map[], [], [])

  datatype Event =
    | Push(info: Info, reason: CloseReason, immediate: bool, current: Option<Info>)
    | Flush(order: seq<Identity>)

  /** Why a push is turned away: the cache, or the room, knows better. */
  predicate Rejected(cache: map<Identity, Update>, info: Info, current: Option<Info>) {
    if info.identity in cache then
      var known := cache[info.identity].info;
      if info.sid == known.sid then info.version < known.version
      else CompareParticipant(known, info) >= 0
    else
      current.Some? && CompareParticipant(current.value, info) > 0
  }

  /** What a superseded session becomes. */
  function AsDisconnect(u: Update): Update {
    u.(info := u.info.(state := Disconnected), synthesized := true)
  }

  function StepPush(s: State, info: Info, reason: CloseReason, immediate: bool, current: Option<Info>): State {
    if Rejected(s.cache, info, current) then s
    else
      var u := Update(info, false, reason, |s.accepted|);
      var superseded := info.identity in s.cache && s.cache[info.identity].info.sid != info.sid;
      var before := if superseded then [AsDisconnect(s.cache[info.identity])] else [];
      if immediate || info.isPublisher || superseded then
        State(s.cache - {info.identity}, s.accepted + [info], s.out + before + [u])
      else
        State(s.cache[info.identity := u], s.accepted + [info], s.out)
  }

  function StepFlush(s: State, order: seq<Identity>): State {
    if !IsOrder(order, s.cache.Keys) then s
    else
      s.(cache := map[], out := s.out + seq(|order|, i requires 0 <= i < |order| => s.cache[order[i]]))
  }

  function Step(s: State, e: Event): State {
    match e
    case Push(info, reason, immediate, current) => StepPush(s, info, reason, immediate, current)
    case Flush(order) => StepFlush(s, order)
  }

  function Run(s: State, events: seq<Event>): State
    decreases |events|
  {
    if events == [] then s else Run(Step(s, events[0]), events[1..])
  }

  // ---------------------------------------------------------------------------------- in place

  class Batch {
    var batchedUpdates: map<Identity, Update>
    var pushed: nat
    ghost var accepted: seq<Info>
    ghost var out: seq<Update>

    constructor ()
      ensures Valid() && Fields() == INIT
    {
      batchedUpdates, pushed := map[], 0;
      accepted, out := [], [];
    }

    ghost predicate Valid()
      reads this
    {
      pushed == |accepted|
    }

    ghost function Fields(): State
      reads this
    {
      State(batchedUpdates, accepted, out)
    }

    method PushAndDequeueUpdates(info: Info, reason: CloseReason, immediate: bool, current: Option<Info>)
      returns (updates: seq<Update>)
      requires Valid()
      modifies this
      ensures Valid() && Fields() == Step(old(Fields()), Push(info, reason, immediate, current))
      ensures out == old(out) + updates
    {
      updates := [];
      var shouldSend := immediate || info.isPublisher;
      if info.identity in batchedUpdates {
        var existing := batchedUpdates[info.identity];
        if info.sid == existing.info.sid {
          if info.version < existing.info.version {
            return;
          }
        } else if CompareParticipant(existing.info, info) < 0 {
          shouldSend := true;
          updates := updates + [AsDisconnect(existing)];
        } else {
          return;
        }
      } else if current.Some? && CompareParticipant(current.value, info) > 0 {
        return;
      }
      var u := Update(info, false, reason, pushed);
      if shouldSend {
        batchedUpdates := batchedUpdates - {info.identity};
        updates := updates + [u];
        out := out + updates;
        assert out == old(out) + updates[..|updates| - 1] + [u];
      } else {
        batchedUpdates := batchedUpdates[info.identity := u];
      }
      accepted := accepted + [info];
      pushed := pushed + 1;
    }

    /** The tick: takes the whole batch and leaves an empty one. */
    method TakeBatch() returns (updates: seq<Update>, order: seq<Identity>)
      requires Valid()
      modifies this
      ensures Valid() && Fields() == Step(old(Fields()), Flush(order))
      ensures IsOrder(order, old(batchedUpdates).Keys)
      ensures |updates| == |order| && forall i :: 0 <= i < |order| ==> updates[i] == old(batchedUpdates)[order[i]]
      ensures out == old(out) + updates && batchedUpdates == map[]
    {
      updates, order := [], [];
      var rest := batchedUpdates.Keys;
      while rest != {}
        invariant rest <= batchedUpdates.Keys
        invariant IsOrder(order, batchedUpdates.Keys - rest)
        invariant |updates| == |order|
        invariant forall i :: 0 <= i < |order| ==> order[i] in batchedUpdates && updates[i] == batchedUpdates[order[i]]
        decreases |rest|
      {
        var k :| k in rest;
        order, updates, rest := order + [k], updates + [batchedUpdates[k]], rest - {k};
      }
      assert batchedUpdates.Keys - rest == batchedUpdates.Keys;
      ghost var cache := batchedUpdates;
      assert updates == seq(|order|, i requires 0 <= i < |order| => cache[order[i]]);
      out := out + updates;
      batchedUpdates := map[];
    }
  }

  // ---------------------------------------------------------------------------------- invariant

  ghost predicate FromPush(s: State, u: Update) {
    && u.nr < |s.accepted|
    && u.info == if u.synthesized then s.accepted[u.nr].(state := Disconnected) else s.accepted[u.nr]
  }

  /** Every update held or given out is a push that was accepted. */
  ghost predicate OriginInv(s: State) {
    && (forall k :: k in s.cache ==>
          FromPush(s, s.cache[k]) && s.cache[k].info.identity == k && !s.cache[k].synthesized)
    && (forall i :: 0 <= i < |s.out| ==> FromPush(s, s.out[i]))
  }

  /** The updates of one identity go out in the order their pushes were accepted, the cached one after all of them. */
  ghost predicate OrderInv(s: State) {
    && (forall i, j :: 0 <= i < j < |s.out| && s.out[i].info.identity == s.out[j].info.identity ==>
          s.out[i].nr < s.out[j].nr)
    && (forall i :: 0 <= i < |s.out| && s.out[i].info.identity in s.cache ==>
          s.out[i].nr < s.cache[s.out[i].info.identity].nr)
  }

  /** The cached update is its identity's latest. */
  ghost predicate LatestInv(s: State) {
    forall n :: 0 <= n < |s.accepted| && s.accepted[n].identity in s.cache ==>
      n <= s.cache[s.accepted[n].identity].nr
  }

  /** An update that tells at least as much about the same session as push `n`, from that push or a later one. */
  predicate Carries(u: Update, info: Info, n: nat) {
    u.info.identity == info.identity && u.info.sid == info.sid && u.info.version >= info.version && u.nr >= n
  }

  ghost predicate GivenOut(s: State, n: nat)
    requires n < |s.accepted|
  {
    exists i :: 0 <= i < |s.out| && Carries(s.out[i], s.accepted[n], n)
  }

  ghost predicate Held(s: State, n: nat)
    requires n < |s.accepted|
  {
    s.accepted[n].identity in s.cache && Carries(s.cache[s.accepted[n].identity], s.accepted[n], n)
  }

  /** Nothing accepted is lost. */
  ghost predicate KeptInv(s: State) {
    forall n :: 0 <= n < |s.accepted| ==> Held(s, n) || GivenOut(s, n)
  }

  /** A superseded session comes out as a disconnect just before the session that superseded it. */
  ghost predicate SwitchInv(s: State) {
    forall i :: 0 <= i < |s.out| && s.out[i].synthesized ==>
      && i + 1 < |s.out| && !s.out[i + 1].synthesized
      && s.out[i + 1].info.identity == s.out[i].info.identity
      && CompareParticipant(s.out[i].info, s.out[i + 1].info) < 0
  }

  ghost predicate Inv(s: State) { OriginInv(s) && OrderInv(s) && LatestInv(s) && KeptInv(s) && SwitchInv(s) }

  /** Nothing cached under its identity, or an update of the same session at no higher version. */
  predicate NoNewer(cache: map<Identity, Update>, info: Info) {
    info.identity in cache ==>
      cache[info.identity].info.sid == info.sid && cache[info.identity].info.version <= info.version
  }

  /** What an accepted push does: it replaces, goes out, or goes out behind the session it supersedes. */
  lemma PushShape(s: State, e: Event)
    requires e.Push? && !Rejected(s.cache, e.info, e.current)
    ensures
      var s' := Step(s, e);
      var u := Update(e.info, false, e.reason, |s.accepted|);
      && s'.accepted == s.accepted + [e.info]
      && (forall k :: k != e.info.identity ==>
            (k in s'.cache <==> k in s.cache) && (k in s.cache ==> s'.cache[k] == s.cache[k]))
      && (|| (s'.out == s.out && e.info.identity in s'.cache && s'.cache[e.info.identity] == u
              && NoNewer(s.cache, e.info))
          || (s'.out == s.out + [u] && e.info.identity !in s'.cache
              && NoNewer(s.cache, e.info))
          || (e.info.identity in s.cache && e.info.identity !in s'.cache
              && s'.out == s.out + [AsDisconnect(s.cache[e.info.identity]), u]
              && CompareParticipant(s.cache[e.info.identity].info, e.info) < 0))
  {
  }

  lemma PushKeepsOrigin(s: State, e: Event)
    requires OriginInv(s) && e.Push?
    ensures OriginInv(Step(s, e))
  {
    if !Rejected(s.cache, e.info, e.current) {
      PushShape(s, e);
    }
  }

  lemma PushKeepsOrder(s: State, e: Event)
    requires OriginInv(s) && OrderInv(s) && e.Push?
    ensures OrderInv(Step(s, e))
  {
    if !Rejected(s.cache, e.info, e.current) {
      PushShape(s, e);
    }
  }

  lemma PushKeepsLatest(s: State, e: Event)
    requires LatestInv(s) && e.Push?
    ensures LatestInv(Step(s, e))
  {
    if !Rejected(s.cache, e.info, e.current) {
      PushShape(s, e);
    }
  }

  lemma PushKeepsKept(s: State, e: Event)
    requires OriginInv(s) && KeptInv(s) && e.Push?
    ensures KeptInv(Step(s, e))
  {
    if !Rejected(s.cache, e.info, e.current) {
      PushShape(s, e);
      var s' := Step(s, e);
      forall n | 0 <= n < |s'.accepted|
        ensures Held(s', n) || GivenOut(s', n)
      {
        PushKeepsOne(s, e, n);
      }
    }
  }

  lemma PushKeepsOne(s: State, e: Event, n: nat)
    requires OriginInv(s) && KeptInv(s) && e.Push? && !Rejected(s.cache, e.info, e.current)
    requires n < |Step(s, e).accepted|
    ensures Held(Step(s, e), n) || GivenOut(Step(s, e), n)
  {
    PushShape(s, e);
    var s' := Step(s, e);
    if n == |s.accepted| {
      assert s'.out != s.out ==> Carries(s'.out[|s'.out| - 1], e.info, n);
    } else if GivenOut(s, n) {
      var i :| 0 <= i < |s.out| && Carries(s.out[i], s.accepted[n], n);
      assert s'.out[i] == s.out[i];
    } else {
      assert Held(s, n);
      if s.accepted[n].identity == e.info.identity && s'.out != s.out {
        assert Carries(s'.out[|s.out|], s.accepted[n], n);
      }
    }
  }

  lemma PushKeepsSwitch(s: State, e: Event)
    requires OriginInv(s) && SwitchInv(s) && e.Push?
    ensures SwitchInv(Step(s, e))
  {
    if !Rejected(s.cache, e.info, e.current) {
      PushShape(s, e);
    }
  }

  lemma FlushShape(s: State, order: seq<Identity>, i: nat)
    requires IsOrder(order, s.cache.Keys) && i < |StepFlush(s, order).out|
    ensures
      var out := StepFlush(s, order).out;
      && |out| == |s.out| + |order|
      && out[i] == if i < |s.out| then s.out[i] else s.cache[order[i - |s.out|]]
  {
  }

  lemma FlushKeepsOrigin(s: State, order: seq<Identity>)
    requires OriginInv(s)
    ensures OriginInv(StepFlush(s, order))
  {
  }

  lemma FlushKeepsOrder(s: State, order: seq<Identity>)
    requires OriginInv(s) && OrderInv(s)
    ensures OrderInv(StepFlush(s, order))
  {
  }

  lemma FlushKeepsKept(s: State, order: seq<Identity>)
    requires OriginInv(s) && KeptInv(s) && IsOrder(order, s.cache.Keys)
    ensures forall n :: 0 <= n < |s.accepted| ==> GivenOut(StepFlush(s, order), n)
  {
    var s' := StepFlush(s, order);
    forall n | 0 <= n < |s.accepted|
      ensures GivenOut(s', n)
    {
      if GivenOut(s, n) {
        var i :| 0 <= i < |s.out| && Carries(s.out[i], s.accepted[n], n);
        FlushShape(s, order, i);
      } else {
        var i :| 0 <= i < |order| && order[i] == s.accepted[n].identity;
        FlushShape(s, order, |s.out| + i);
      }
    }
  }

  lemma FlushKeepsSwitch(s: State, order: seq<Identity>)
    requires OriginInv(s) && SwitchInv(s)
    ensures SwitchInv(StepFlush(s, order))
  {
  }

  lemma StepKeepsInv(s: State, e: Event)
    requires Inv(s)
    ensures Inv(Step(s, e))
  {
    match e
    case Push(_, _, _, _) =>
      PushKeepsOrigin(s, e);
      PushKeepsOrder(s, e);
      PushKeepsLatest(s, e);
      PushKeepsKept(s, e);
      PushKeepsSwitch(s, e);
    case Flush(order) =>
      FlushKeepsOrigin(s, order);
      FlushKeepsOrder(s, order);
      FlushKeepsSwitch(s, order);
      if IsOrder(order, s.cache.Keys) {
        FlushKeepsKept(s, order);
      }
  }

  lemma {:induction false} RunKeepsInv(s: State, events: seq<Event>)
    requires Inv(s)
    ensures Inv(Run(s, events))
    decreases |events|
  {
    if events != [] {
      StepKeepsInv(s, events[0]);
      RunKeepsInv(Step(s, events[0]), events[1..]);
    }
  }

  lemma ReachableInv(events: seq<Event>)
    ensures Inv(Run(INIT, events))
  {
    RunKeepsInv(INIT, events);
  }

  // ---------------------------------------------------------------------------------- what is promised

  /**
   After any run every accepted info has been given out or is held in an update of the same session at
   no lower version, and after a flush all have been given out.
   */
  lemma NothingLost(events: seq<Event>, order: seq<Identity>, n: nat)
    requires n < |Run(INIT, events).accepted|
    ensures
      var s := Run(INIT, events);
      && (Held(s, n) || GivenOut(s, n))
      && (IsOrder(order, s.cache.Keys) ==> GivenOut(StepFlush(s, order), n))
  {
    ReachableInv(events);
    var s := Run(INIT, events);
    if IsOrder(order, s.cache.Keys) {
      FlushKeepsKept(s, order);
    }
  }

  /** No accepted push is given out twice, or given out and still held; each comes out as it was, or as a disconnect. */
  lemma NothingRepeated(events: seq<Event>, i: nat, j: nat)
    requires i < |Run(INIT, events).out|
    ensures
      var s := Run(INIT, events);
      && FromPush(s, s.out[i])
      && (j < |s.out| && s.out[i].nr == s.out[j].nr ==> i == j)
      && (forall k :: k in s.cache ==> s.cache[k].nr != s.out[i].nr)
  {
    ReachableInv(events);
    var s := Run(INIT, events);
    forall k | k in s.cache
      ensures s.cache[k].nr != s.out[i].nr
    {
      assert FromPush(s, s.cache[k]);
    }
  }

  /** A session that comes out as a made-up disconnect is followed at once by the newer session that replaced it. */
  lemma SwitchesComeInPairs(events: seq<Event>, i: nat)
    requires i < |Run(INIT, events).out| && Run(INIT, events).out[i].synthesized
    ensures
      var out := Run(INIT, events).out;
      && out[i].info.state == Disconnected
      && i + 1 < |out| && !out[i + 1].synthesized
      && out[i + 1].info.identity == out[i].info.identity
      && CompareParticipant(out[i].info, out[i + 1].info) < 0
  {
    ReachableInv(events);
  }

  /**
   A push is turned away only when the cache or the room knows a higher version or a session not older;
   nothing then changes.
   */
  lemma PushOutcome(s: State, e: Event)
    requires Inv(s) && e.Push?
    ensures
      var s' := Step(s, e);
      if s' == s then
        || (e.info.identity in s.cache && s.cache[e.info.identity].info.sid == e.info.sid
            && s.cache[e.info.identity].info.version > e.info.version)
        || (e.info.identity in s.cache && s.cache[e.info.identity].info.sid != e.info.sid
            && CompareParticipant(e.info, s.cache[e.info.identity].info) < 0)
        || (e.info.identity !in s.cache && e.current.Some? && CompareParticipant(e.info, e.current.value) < 0)
      else
        && s'.accepted == s.accepted + [e.info]
        && (|| (e.info.identity in s'.cache && s'.cache[e.info.identity].info == e.info)
            || (|s'.out| > |s.out| && s'.out[|s'.out| - 1].info == e.info))
        && (e.immediate || e.info.isPublisher ==> e.info.identity !in s'.cache)
  {
    if Rejected(s.cache, e.info, e.current) {
      if e.info.identity in s.cache {
        CompareTotal(s.cache[e.info.identity].info, e.info);
      } else {
        CompareTotal(e.current.value, e.info);
      }
    } else {
      assert |Step(s, e).accepted| == |s.accepted| + 1;
      PushShape(s, e);
    }
  }

  /** Why a push is turned away, in its own terms. */
  predicate TurnedAway(s: State, e: Event)
    requires e.Push?
  {
    if e.info.identity in s.cache then
      var known := s.cache[e.info.identity].info;
      if known.sid == e.info.sid then known.version > e.info.version else CompareParticipant(e.info, known) <= 0
    else e.current.Some? && CompareParticipant(e.info, e.current.value) < 0
  }

  /**
   Exactly what a push does: turned away it changes nothing; accepted it is cached, unless it is to go out at
   once, is of a publisher or supersedes the cached session, and then it goes out with all that was cached.
   */
  lemma PushExactly(s: State, e: Event)
    requires e.Push?
    ensures
      var t, id := Step(s, e), e.info.identity;
      var u := Update(e.info, false, e.reason, |s.accepted|);
      var supersedes := id in s.cache && s.cache[id].info.sid != e.info.sid;
      if TurnedAway(s, e) then t == s
      else
        && t.accepted == s.accepted + [e.info]
        && (if e.immediate || e.info.isPublisher || supersedes then
              && t.cache == s.cache - {id}
              && t.out == s.out
                          + (if supersedes then
                               [s.cache[id].(info := s.cache[id].info.(state := Disconnected), synthesized := true)]
                             else [])
                          + [u]
            else t.cache == s.cache[id := u] && t.out == s.out)
  {
    if e.info.identity in s.cache {
      CompareTotal(s.cache[e.info.identity].info, e.info);
    } else if e.current.Some? {
      CompareTotal(e.current.value, e.info);
    }
  }

  /** Which of two sessions is older: the join time decides, then its milliseconds if both have them, then the sid. */
  lemma OlderExactly(a: Info, b: Info)
    ensures
      var byMs := a.joinedAtMs != 0 && b.joinedAtMs != 0 && a.joinedAtMs != b.joinedAtMs;
      CompareParticipant(a, b) < 0 <==>
        || a.joinedAt < b.joinedAt
        || (a.joinedAt == b.joinedAt && byMs && a.joinedAtMs < b.joinedAtMs)
        || (a.joinedAt == b.joinedAt && !byMs && a.sid < b.sid)
  {
  }

  // ---------------------------------------------------------------------------------- sessions

  predicate SameStamp(a: Info, b: Info) { a.joinedAt == b.joinedAt && a.joinedAtMs == b.joinedAtMs }

  /** Sessions carry millisecond join times and keep them. */
  ghost predicate Stamped(s: State, e: Event) {
    e.Push? ==>
      && e.info.joinedAtMs != 0
      && (forall n :: 0 <= n < |s.accepted| && s.accepted[n].sid == e.info.sid ==> SameStamp(s.accepted[n], e.info))
  }

  ghost predicate StampedRun(s: State, events: seq<Event>)
    decreases |events|
  {
    events != [] ==> Stamped(s, events[0]) && StampedRun(Step(s, events[0]), events[1..])
  }

  ghost predicate StampInv(s: State) {
    && (forall n :: 0 <= n < |s.accepted| ==> s.accepted[n].joinedAtMs != 0)
    && (forall m, n :: 0 <= m < |s.accepted| && 0 <= n < |s.accepted| && s.accepted[m].sid == s.accepted[n].sid ==>
          SameStamp(s.accepted[m], s.accepted[n]))
  }

  /** The accepted sessions of each identity are in order. */
  ghost predicate SessionsForward(s: State) {
    forall m, n :: 0 <= m < n < |s.accepted| && s.accepted[m].identity == s.accepted[n].identity ==>
      CompareParticipant(s.accepted[m], s.accepted[n]) <= 0
  }

  predicate NewerAt(s: State, n: nat, info: Info) {
    n < |s.accepted| && s.accepted[n].identity == info.identity && CompareParticipant(s.accepted[n], info) > 0
  }

  /** A newer session of the same identity was accepted before. */
  ghost predicate Outdated(s: State, info: Info) { exists n: nat :: NewerAt(s, n, info) }

  /**
   An outdated push gets through exactly when nothing is cached under its identity and the room has no
   participant of that identity, or none that is newer.
   */
  ghost predicate GoesBack(s: State, e: Event) {
    && e.Push? && Outdated(s, e.info)
    && e.info.identity !in s.cache
    && (e.current.None? || CompareParticipant(e.current.value, e.info) <= 0)
  }

  ghost predicate NeverGoesBack(s: State, events: seq<Event>)
    decreases |events|
  {
    events != [] ==> !GoesBack(s, events[0]) && NeverGoesBack(Step(s, events[0]), events[1..])
  }

  lemma StepKeepsStamps(s: State, e: Event)
    requires StampInv(s) && Stamped(s, e)
    ensures StampInv(Step(s, e))
  {
    if e.Push? && !Rejected(s.cache, e.info, e.current) {
      assert Step(s, e).accepted == s.accepted + [e.info];
    } else {
      assert Step(s, e).accepted == s.accepted;
    }
  }

  /** Sessions of the same id compare alike. */
  lemma SameSession(a: Info, b: Info, c: Info)
    requires a.sid == b.sid && SameStamp(a, b)
    ensures CompareParticipant(a, c) == CompareParticipant(b, c) && CompareParticipant(a, b) == 0
  {
  }

  /** What replaces or supersedes the cached session is not older than it. */
  lemma CachedIsNotNewer(s: State, e: Event)
    requires OriginInv(s) && Stamped(s, e)
    requires e.Push? && !Rejected(s.cache, e.info, e.current) && e.info.identity in s.cache
    ensures CompareParticipant(s.cache[e.info.identity].info, e.info) <= 0
  {
    var cached := s.cache[e.info.identity];
    assert FromPush(s, cached);
    if cached.info.sid == e.info.sid {
      assert SameStamp(s.accepted[cached.nr], e.info);
    }
  }

  lemma AcceptedIsNotNewer(s: State, n: nat, k: Identity)
    requires OriginInv(s) && LatestInv(s) && StampInv(s) && SessionsForward(s) && k in s.cache
    requires n < |s.accepted| && s.accepted[n].identity == k
    ensures CompareParticipant(s.accepted[n], s.cache[k].info) <= 0 && s.cache[k].info.joinedAtMs != 0
  {
    var cached := s.cache[k];
    assert FromPush(s, cached) && n <= cached.nr;
    if n == cached.nr {
      assert s.accepted[n] == cached.info;
    } else {
      assert s.accepted[cached.nr] == cached.info;
    }
  }

  /** An identity with a cached update accepts no outdated push. */
  lemma CachedStaysForward(s: State, e: Event, n: nat)
    requires Inv(s) && StampInv(s) && SessionsForward(s) && Stamped(s, e)
    requires e.Push? && !Rejected(s.cache, e.info, e.current) && e.info.identity in s.cache
    requires n < |s.accepted| && s.accepted[n].identity == e.info.identity
    ensures CompareParticipant(s.accepted[n], e.info) <= 0
  {
    CachedIsNotNewer(s, e);
    AcceptedIsNotNewer(s, n, e.info.identity);
    assert s.accepted[n].joinedAtMs != 0;
    CompareTransitiveStamped(s.accepted[n], s.cache[e.info.identity].info, e.info);
  }

  lemma OutdatedGetsThrough(s: State, e: Event)
    requires Inv(s) && StampInv(s) && SessionsForward(s) && Stamped(s, e) && e.Push?
    ensures !Rejected(s.cache, e.info, e.current) && Outdated(s, e.info) <==> GoesBack(s, e)
  {
    if !Rejected(s.cache, e.info, e.current) && Outdated(s, e.info) {
      var n: nat :| NewerAt(s, n, e.info);
      if e.info.identity in s.cache {
        CachedStaysForward(s, e, n);
        assert false;
      }
    }
  }

  /** A push breaks the order of the accepted sessions exactly when it goes back. */
  lemma PushForwardExactly(s: State, e: Event)
    requires Inv(s) && StampInv(s) && SessionsForward(s) && Stamped(s, e)
    ensures SessionsForward(Step(s, e)) <==> !GoesBack(s, e)
  {
    var s' := Step(s, e);
    if e.Push? {
      OutdatedGetsThrough(s, e);
      if Rejected(s.cache, e.info, e.current) {
        assert s' == s;
      } else {
        assert s'.accepted == s.accepted + [e.info];
        if Outdated(s, e.info) {
          var n: nat :| NewerAt(s, n, e.info);
          assert CompareParticipant(s'.accepted[n], s'.accepted[|s.accepted|]) > 0;
        } else {
          forall m | 0 <= m < |s.accepted| && s.accepted[m].identity == e.info.identity
            ensures CompareParticipant(s.accepted[m], e.info) <= 0
          {
            assert !NewerAt(s, m, e.info);
          }
        }
      }
    } else {
      assert s'.accepted == s.accepted;
    }
  }

  lemma BackwardStays(s: State, e: Event)
    requires !SessionsForward(s)
    ensures !SessionsForward(Step(s, e))
  {
    assert s.accepted <= Step(s, e).accepted;
    var m, n :| 0 <= m < n < |s.accepted| && s.accepted[m].identity == s.accepted[n].identity
      && CompareParticipant(s.accepted[m], s.accepted[n]) > 0;
    assert Step(s, e).accepted[m] == s.accepted[m] && Step(s, e).accepted[n] == s.accepted[n];
  }

  lemma {:induction false} RunForwardExactly(s: State, events: seq<Event>)
    requires Inv(s) && StampInv(s) && StampedRun(s, events)
    ensures StampInv(Run(s, events))
    ensures SessionsForward(s) ==> (SessionsForward(Run(s, events)) <==> NeverGoesBack(s, events))
    ensures !SessionsForward(s) ==> !SessionsForward(Run(s, events))
    decreases |events|
  {
    if events != [] {
      var e := events[0];
      StepKeepsInv(s, e);
      StepKeepsStamps(s, e);
      if SessionsForward(s) {
        PushForwardExactly(s, e);
      } else {
        BackwardStays(s, e);
      }
      RunForwardExactly(Step(s, e), events[1..]);
    }
  }

  predicate SeenBefore(s: State, i: nat, n: nat) {
    && i < |s.out| && n < |s.accepted| && s.out[i].nr < n && s.out[i].info.identity == s.accepted[n].identity
    && CompareParticipant(s.out[i].info, s.accepted[n]) > 0
  }

  /** Out of order means that a newer session had been given out before an older one was accepted. */
  ghost predicate BackInv(s: State) { SessionsForward(s) || exists i: nat, n: nat :: SeenBefore(s, i, n) }

  lemma GoingBackIsSeen(s: State, e: Event)
    requires Inv(s) && StampInv(s) && SessionsForward(s) && Stamped(s, e) && GoesBack(s, e)
    ensures exists i: nat, n: nat :: SeenBefore(Step(s, e), i, n)
  {
    OutdatedGetsThrough(s, e);
    var m: nat :| NewerAt(s, m, e.info);
    assert !Held(s, m);
    var i :| 0 <= i < |s.out| && Carries(s.out[i], s.accepted[m], m);
    assert FromPush(s, s.out[i]);
    SameSession(s.out[i].info, s.accepted[m], e.info);
    PushShape(s, e);
    assert Step(s, e).out[i] == s.out[i] && Step(s, e).accepted[|s.accepted|] == e.info;
    assert SeenBefore(Step(s, e), i, |s.accepted|);
  }

  lemma StepKeepsBack(s: State, e: Event)
    requires Inv(s) && StampInv(s) && Stamped(s, e) && BackInv(s)
    ensures BackInv(Step(s, e))
  {
    if SessionsForward(s) {
      PushForwardExactly(s, e);
      if GoesBack(s, e) {
        GoingBackIsSeen(s, e);
      }
    } else {
      var i: nat, n: nat :| SeenBefore(s, i, n);
      assert s.accepted <= Step(s, e).accepted && s.out <= Step(s, e).out;
      assert SeenBefore(Step(s, e), i, n);
    }
  }

  lemma {:induction false} RunKeepsBack(s: State, events: seq<Event>)
    requires Inv(s) && StampInv(s) && StampedRun(s, events) && BackInv(s)
    ensures BackInv(Run(s, events))
    decreases |events|
  {
    if events != [] {
      StepKeepsBack(s, events[0]);
      StepKeepsInv(s, events[0]);
      StepKeepsStamps(s, events[0]);
      RunKeepsBack(Step(s, events[0]), events[1..]);
    }
  }

  /** The sessions given out for each identity are in order. */
  ghost predicate OutForward(out: seq<Update>) {
    forall i, j :: 0 <= i < j < |out| && out[i].info.identity == out[j].info.identity ==>
      CompareParticipant(out[i].info, out[j].info) <= 0
  }

  lemma ForwardIsSeen(s: State)
    requires OriginInv(s) && OrderInv(s) && SessionsForward(s)
    ensures OutForward(s.out)
  {
    forall i, j | 0 <= i < j < |s.out| && s.out[i].info.identity == s.out[j].info.identity
      ensures CompareParticipant(s.out[i].info, s.out[j].info) <= 0
    {
      assert FromPush(s, s.out[i]) && FromPush(s, s.out[j]);
      assert CompareParticipant(s.accepted[s.out[i].nr], s.accepted[s.out[j].nr]) <= 0;
    }
  }

  lemma BackwardIsSeen(s: State, i: nat, n: nat)
    requires OriginInv(s) && OrderInv(s) && StampInv(s) && SeenBefore(s, i, n) && GivenOut(s, n)
    ensures !OutForward(s.out)
  {
    var j :| 0 <= j < |s.out| && Carries(s.out[j], s.accepted[n], n);
    assert FromPush(s, s.out[j]);
    SameSession(s.out[j].info, s.accepted[n], s.out[i].info);
    CompareTotal(s.out[i].info, s.out[j].info);
    CompareTotal(s.out[i].info, s.accepted[n]);
    assert i < j;
  }

  lemma FlushForwardExactly(s: State, order: seq<Identity>)
    requires Inv(s) && StampInv(s) && BackInv(s) && IsOrder(order, s.cache.Keys)
    ensures OutForward(StepFlush(s, order).out) <==> SessionsForward(s)
  {
    var flushed := StepFlush(s, order);
    StepKeepsInv(s, Flush(order));
    assert flushed.accepted == s.accepted && s.out <= flushed.out;
    if SessionsForward(s) {
      ForwardIsSeen(flushed);
    } else {
      var i: nat, n: nat :| SeenBefore(s, i, n);
      assert SeenBefore(flushed, i, n);
      FlushKeepsKept(s, order);
      BackwardIsSeen(flushed, i, n);
    }
  }

  /**
   Over any run of stamped sessions, and a last flush, the sessions given out for an identity never go
   back to an older one exactly when no push goes back.
   */
  lemma SessionsNeverGoBack(events: seq<Event>, order: seq<Identity>)
    requires StampedRun(INIT, events) && IsOrder(order, Run(INIT, events).cache.Keys)
    ensures OutForward(StepFlush(Run(INIT, events), order).out) <==> NeverGoesBack(INIT, events)
  {
    ReachableInv(events);
    RunForwardExactly(INIT, events);
    RunKeepsBack(INIT, events);
    FlushForwardExactly(Run(INIT, events), order);
  }

  /** A push does not go back when the room still has a participant not older than any accepted session, */
  lemma PresentDoesNotGoBack(s: State, e: Event)
    requires e.Push? && e.current.Some? && e.info.joinedAtMs != 0 && e.current.value.joinedAtMs != 0 && StampInv(s)
    requires forall n :: 0 <= n < |s.accepted| && s.accepted[n].identity == e.info.identity ==>
      CompareParticipant(s.accepted[n], e.current.value) <= 0
    ensures !GoesBack(s, e)
  {
    if GoesBack(s, e) {
      var n: nat :| NewerAt(s, n, e.info);
      CompareTransitiveStamped(s.accepted[n], e.current.value, e.info);
      assert false;
    }
  }

  /**
   nor when it is of the session accepted last for its identity: a participant that leaves, gone from the
   room already.
   */
  lemma LeavingDoesNotGoBack(s: State, e: Event, last: nat)
    requires e.Push? && StampInv(s) && Stamped(s, e) && SessionsForward(s)
    requires last < |s.accepted| && s.accepted[last].identity == e.info.identity && s.accepted[last].sid == e.info.sid
    requires forall n :: last < n < |s.accepted| ==> s.accepted[n].identity != e.info.identity
    ensures !GoesBack(s, e)
  {
    assert SameStamp(s.accepted[last], e.info);
    forall n: nat
      ensures !NewerAt(s, n, e.info)
    {
      if n < |s.accepted| && s.accepted[n].identity == e.info.identity {
        CompareTotal(s.accepted[n], s.accepted[last]);
        CompareTotal(s.accepted[n], e.info);
        SameSession(s.accepted[last], e.info, s.accepted[n]);
        CompareTotal(s.accepted[last], s.accepted[n]);
        CompareTotal(e.info, s.accepted[n]);
      }
    }
  }

  /**
   Sessions do go back: the newer session has joined and left, nothing is cached, and the older
   session's last update comes while the room has no participant of that identity.
   */
  lemma SessionsGoBack()
    ensures
      var older, newer := Info(0, 1, 5, 1, 0, true, Active), Info(0, 2, 6, 1, 0, true, Active);
      var pushes := [Push(newer, OtherReason(0), true, None), Push(older, OtherReason(0), true, None)];
      var out := Run(INIT, pushes).out;
      && StampedRun(INIT, pushes) && !NeverGoesBack(INIT, pushes)
      && |out| == 2 && out[0].info == newer && out[1].info == older && CompareParticipant(newer, older) > 0
  {
    var older, newer := Info(0, 1, 5, 1, 0, true, Active), Info(0, 2, 6, 1, 0, true, Active);
    var e0, e1 := Push(newer, OtherReason(0), true, None), Push(older, OtherReason(0), true, None);
    var s1 := Step(INIT, e0);
    assert s1.accepted == [newer] && s1.cache == map[] && |s1.out| == 1 && s1.out[0].info == newer;
    assert NewerAt(s1, 0, older);
    assert GoesBack(s1, e1);
    var s2 := Step(s1, e1);
    assert s2.out == s1.out + [] + [Update(older, false, OtherReason(0), 1)];
    assert [e0, e1][1..] == [e1] && [e1][1..] == [];
    assert Run(s1, [e1]) == s2;
  }

  // ---------------------------------------------------------------------------------- sending

  predicate IsCloseNotifySkippable(reason: CloseReason) { reason == DuplicateIdentity }

  function FullUpdates(updates: seq<Update>): seq<Info> {
    if updates == [] then [] else [updates[0].info] + FullUpdates(updates[1..])
  }

  /** For clients that reconnect by identity: without made-up disconnects and duplicate-identity closes. */
  function FilteredUpdates(updates: seq<Update>): seq<Info> {
    if updates == [] then []
    else (if updates[0].synthesized || IsCloseNotifySkippable(updates[0].reason) then [] else [updates[0].info])
         + FilteredUpdates(updates[1..])
  }

  lemma {:induction false} FullExtends(updates: seq<Update>, u: Update)
    ensures FullUpdates(updates + [u]) == FullUpdates(updates) + [u.info]
  {
    if updates == [] {
      assert [] + [u] == [u] && [u][1..] == [];
    } else {
      FullExtends(updates[1..], u);
      assert (updates + [u])[1..] == updates[1..] + [u];
    }
  }

  lemma {:induction false} FilteredExtends(updates: seq<Update>, u: Update)
    ensures FilteredUpdates(updates + [u]) ==
            FilteredUpdates(updates) + if u.synthesized || u.reason == DuplicateIdentity then [] else [u.info]
  {
    if updates == [] {
      assert [] + [u] == [u] && [u][1..] == [];
    } else {
      FilteredExtends(updates[1..], u);
      assert (updates + [u])[1..] == updates[1..] + [u];
    }
  }

  method FilterUpdates(updates: seq<Update>) returns (filtered: seq<Info>)
    ensures filtered == FilteredUpdates(updates)
  {
    filtered := [];
    for i := 0 to |updates|
      invariant filtered == FilteredUpdates(updates[..i])
    {
      assert updates[..i + 1] == updates[..i] + [updates[i]];
      FilteredExtends(updates[..i], updates[i]);
      if updates[i].synthesized || IsCloseNotifySkippable(updates[i].reason) {
        continue;
      }
      filtered := filtered + [updates[i].info];
    }
    assert updates[..|updates|] == updates;
  }

  method ListUpdates(updates: seq<Update>) returns (full: seq<Info>)
    ensures full == FullUpdates(updates)
  {
    full := [];
    for i := 0 to |updates|
      invariant full == FullUpdates(updates[..i])
    {
      assert updates[..i + 1] == updates[..i] + [updates[i]];
      FullExtends(updates[..i], updates[i]);
      full := full + [updates[i].info];
    }
    assert updates[..|updates|] == updates;
  }

  /** `byIdentity` says of each participant whether its client reconnects by identity; `sent` is what each is sent. */
  method SendParticipantUpdates(updates: seq<Update>, byIdentity: seq<bool>) returns (sent: seq<seq<Info>>)
    ensures updates == [] ==> sent == []
    ensures updates != [] ==> |sent| == |byIdentity|
    ensures updates != [] ==> forall p :: 0 <= p < |sent| ==>
      sent[p] == if byIdentity[p] then FilteredUpdates(updates) else FullUpdates(updates)
  {
    sent := [];
    if updates == [] {
      return;
    }
    var filtered := FilterUpdates(updates);
    var full := ListUpdates(updates);
    for p := 0 to |byIdentity|
      invariant |sent| == p
      invariant forall q :: 0 <= q < p ==> sent[q] == if byIdentity[q] then filtered else full
    {
      sent := sent + [if byIdentity[p] then filtered else full];
    }
  }

  /** A switch of session: old clients see the old session leave and the new one come, others only the new one. */
  lemma SwitchAsSent(s: State, e: Event)
    requires Inv(s) && e.Push?
    requires e.info.identity in s.cache && s.cache[e.info.identity].info.sid != e.info.sid
    requires Step(s, e) != s
    ensures
      var given := Step(s, e).out[|s.out|..];
      && FullUpdates(given) == [s.cache[e.info.identity].info.(state := Disconnected), e.info]
      && FilteredUpdates(given) == if e.reason == DuplicateIdentity then [] else [e.info]
  {
    PushShape(s, e);
    var old', u := AsDisconnect(s.cache[e.info.identity]), Update(e.info, false, e.reason, |s.accepted|);
    assert Step(s, e).out[|s.out|..] == [] + [old'] + [u];
    FullExtends([], old');
    FullExtends([] + [old'], u);
    FilteredExtends([], old');
    FilteredExtends([] + [old'], u);
  }
}
