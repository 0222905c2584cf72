/**
 One participant's subscriptions: what the participant wants (desired), what it has (a subscribed
 track), and the reconciler that moves the second towards the first while media tracks close on
 their own. Each entry of the subscription map is a value here; the manager reassigns it.
 */
module Subscriptions {
  import opened Common

  type TrackId = nat
  type ParticipantId = nat

  datatype Kind = Audio | Video

  /** A published media track; one published again under its old id is a different instance. */
  datatype MediaTrack = MediaTrack(id: TrackId, instance: nat, kind: Kind, publisher: ParticipantId)

  /**
   Where a subscribed track stands: in use; with its down track closing; or already deleted from the
   media track's list, its close callback still to run.
   */
  datatype Stage = Attached | Closing | Detached

  datatype SubscribedTrack = SubscribedTrack(track: MediaTrack, stage: Stage)

  datatype Subscription = Subscription(
    desired: bool, held: Option<SubscribedTrack>, kind: Option<Kind>, publisher: ParticipantId)
  {
    predicate NeedsSubscribe() { desired && held.None? }

    predicate NeedsUnsubscribe() { !desired && held.Some? }

    predicate NeedsCleanup() { !desired && held.None? }
  }

  const NEW_SUBSCRIPTION := Subscription(false, None, None, 0)

  /** A publisher started or stopped being subscribed to. */
  datatype Notice = Notice(publisher: ParticipantId, subscribed: bool)

  /** What the resolver says about a track id. */
  datatype Resolution = Unknown | Resolved(instance: nat, kind: Kind, publisher: ParticipantId, hasPermission: bool)

  /** The outside world as one reconcile meets it. */
  datatype World = World(
    canReconcile: bool, waitForUnsubscribes: bool, canSubscribe: bool, resolution: Resolution,
    addFails: bool, timedOut: bool)

  datatype SubscribeError = NoSubscribePermission | LimitExceeded | TrackNotFound | NoTrackPermission | AddFailed

  /**
   What the manager keeps about the tracks it holds: a counter and a limit per kind (a limit that is
   not positive does not limit), the track ids by publisher, and the notices issued so far.
   */
  datatype Books = Books(
    videoCount: int, audioCount: int, videoLimit: int, audioLimit: int,
    subscribedTo: map<ParticipantId, set<TrackId>>, notices: seq<Notice>)
  {
    function Count(kind: Kind): int { if kind.Video? then videoCount else audioCount }

    function Limit(kind: Kind): int { if kind.Video? then videoLimit else audioLimit }

    predicate HasCapacity(kind: Kind) { !(Limit(kind) > 0 && Count(kind) >= Limit(kind)) }

    function AddCount(kind: Kind, n: int): Books {
      if kind.Video? then this.(videoCount := videoCount + n) else this.(audioCount := audioCount + n)
    }

    /** Enters a track into the per-publisher index; the first one is announced. */
    function Index(publisher: ParticipantId, id: TrackId): Books {
      if publisher in subscribedTo then
        this.(subscribedTo := subscribedTo[publisher := subscribedTo[publisher] + {id}])
      else
        this.(subscribedTo := subscribedTo[publisher := {id}], notices := notices + [Notice(publisher, true)])
    }

    /** Takes a track out of the per-publisher index; the last one is announced. */
    function Unindex(publisher: ParticipantId, id: TrackId): Books {
      if publisher !in subscribedTo then this
      else
        var rest := subscribedTo[publisher] - {id};
        if rest == {} then
          this.(subscribedTo := subscribedTo - {publisher}, notices := notices + [Notice(publisher, false)])
        else
          this.(subscribedTo := subscribedTo[publisher := rest])
    }
  }

  /** The subscriptions, the media tracks that list this participant as a subscriber, and the books. */
  datatype State = State(subs: map<TrackId, Subscription>, listed: set<MediaTrack>, books: Books)

  // ---------------------------------------------------------------------------------- steps

  function SetDesired(s: State, id: TrackId, desired: bool): State {
    if id in s.subs then s.(subs := s.subs[id := s.subs[id].(desired := desired)]) else s
  }

  function SubscribeToTrack(s: State, id: TrackId): State {
    SetDesired(if id in s.subs then s else s.(subs := s.subs[id := NEW_SUBSCRIPTION]), id, true)
  }

  function UpdateSettings(s: State, id: TrackId): State {
    if id in s.subs then s else s.(subs := s.subs[id := NEW_SUBSCRIPTION])
  }

  function ClearAll(s: State): State {
    s.(subs := map id | id in s.subs :: s.subs[id].(desired := false))
  }

  /** Adding this participant to a media track that is not already listing it. */
  function Attach(s: State, id: TrackId, track: MediaTrack): State
    requires id in s.subs
  {
    State(s.subs[id := s.subs[id].(held := Some(SubscribedTrack(track, Attached)))], s.listed + {track},
          s.books.AddCount(track.kind, 1))
  }

  /** One attempt to subscribe; an error leaves at most the recorded kind and publisher behind. */
  function Subscribe(s: State, id: TrackId, w: World): (State, Option<SubscribeError>)
    requires id in s.subs
  {
    var sub := s.subs[id];
    if !w.canSubscribe then (s, Some(NoSubscribePermission))
    else if sub.kind.Some? && !s.books.HasCapacity(sub.kind.value) then (s, Some(LimitExceeded))
    else if w.resolution.Unknown? then (s, Some(TrackNotFound))
    else
      var track := MediaTrack(id, w.resolution.instance, w.resolution.kind, w.resolution.publisher);
      var s1 := s.(subs := s.subs[id := sub.(kind := if sub.kind.Some? then sub.kind else Some(track.kind))]);
      if !s.books.HasCapacity(track.kind) then (s1, Some(LimitExceeded))
      else
        var s2 := s1.(subs := s1.subs[id := s1.subs[id].(publisher := track.publisher)]);
        if !w.resolution.hasPermission then (s2, Some(NoTrackPermission))
        else if track in s.listed then (s2.(books := s2.books.Index(track.publisher, id)), None)
        else if w.addFails then (s2, Some(AddFailed))
        else
          var s3 := Attach(s2, id, track);
          (s3.(books := s3.books.Index(track.publisher, id)), None)
  }

  function StartClosing(s: State, id: TrackId): State {
    if id in s.subs && s.subs[id].held.Some? && s.subs[id].held.value.stage.Attached?
    then s.(subs := s.subs[id := s.subs[id].(held := Some(s.subs[id].held.value.(stage := Closing)))])
    else s
  }

  function Reconcile(s: State, id: TrackId, w: World): State {
    if !w.canReconcile || id !in s.subs then s
    else if s.subs[id].NeedsSubscribe() then
      if w.waitForUnsubscribes then s
      else
        var (t, err) := Subscribe(s, id, w);
        if err == Some(TrackNotFound) && w.timedOut then SetDesired(t, id, false) else t
    else if s.subs[id].NeedsUnsubscribe() then StartClosing(s, id)
    else if s.subs[id].NeedsCleanup() then s.(subs := s.subs - {id})
    else s
  }

  /** The media track forgets the subscriber, before the close callback runs. */
  function Detach(s: State, id: TrackId): State {
    if id in s.subs && s.subs[id].held.Some? && s.subs[id].held.value.stage.Closing?
    then
      var held := s.subs[id].held.value;
      s.(subs := s.subs[id := s.subs[id].(held := Some(held.(stage := Detached)))], listed := s.listed - {held.track})
    else s
  }

  /** The subscribed track is gone: give back its slot and its place in the index. */
  function HandleClose(s: State, id: TrackId): State {
    if id in s.subs && s.subs[id].held.Some? && s.subs[id].held.value.stage.Detached?
    then
      var sub := s.subs[id];
      s.(subs := s.subs[id := sub.(held := None)],
         books := s.books.AddCount(sub.held.value.track.kind, -1).Unindex(sub.publisher, id))
    else s
  }

  /**
   `TrackCloses` is a media track closing by itself: its publisher left, or took a permission back.
   `SourceRemoved` is the notice that a published track has gone for good.
   */
  datatype Event =
    | Want(id: TrackId)
    | Unwant(id: TrackId)
    | UnwantAll
    | Settings(id: TrackId)
    | Reconciles(id: TrackId, world: World)
    | SourceRemoved(id: TrackId)
    | TrackCloses(id: TrackId)
    | Detaches(id: TrackId)
    | Closed(id: TrackId)

  function Step(s: State, e: Event): State {
    match e
    case Want(id) => SubscribeToTrack(s, id)
    case Unwant(id) => SetDesired(s, id, false)
    case UnwantAll => ClearAll(s)
    case Settings(id) => UpdateSettings(s, id)
    case Reconciles(id, w) => Reconcile(s, id, w)
    case SourceRemoved(id) => SetDesired(s, id, false)
    case TrackCloses(id) => StartClosing(s, id)
    case Detaches(id) => Detach(s, id)
    case Closed(id) => HandleClose(s, id)
  }

  function Run(s: State, events: seq<Event>): State
    decreases |events|
  {
    if events == [] then s else Run(Step(s, events[0]), events[1..])
  }

  function Init(videoLimit: int, audioLimit: int): State {
    State(map[], {}, Books(0, 0, videoLimit, audioLimit, map[], []))
  }

  // ---------------------------------------------------------------------------------- in place

  datatype AddResult = Added | AlreadySubscribed | Failed

  /** The subscriber lists of all media tracks, as far as they concern this participant. */
  class MediaTracks {
    var listed: set<MediaTrack>

    constructor ()
      ensures listed == {}
    {
      listed := {};
    }

    method AddSubscriber(track: MediaTrack, fails: bool) returns (result: AddResult)
      modifies this
      ensures result == if track in old(listed) then AlreadySubscribed else if fails then Failed else Added
      ensures listed == if result.Added? then old(listed) + {track} else old(listed)
    {
      if track in listed {
        return AlreadySubscribed;
      }
      if fails {
        return Failed;
      }
      listed := listed + {track};
      return Added;
    }

    /** Deletes the list entry; the close callback of the subscribed track runs only afterwards. */
    method DownTrackClosed(track: MediaTrack)
      modifies this
      ensures listed == old(listed) - {track}
    {
      listed := listed - {track};
    }
  }

  class SubscriptionManager {
    const tracks: MediaTracks
    const videoLimit: int
    const audioLimit: int
    var subscriptions: map<TrackId, Subscription>
    var videoCount: int
    var audioCount: int
    var subscribedTo: map<ParticipantId, set<TrackId>>
    var notices: seq<Notice>

    constructor (tracks: MediaTracks, videoLimit: int, audioLimit: int)
      requires tracks.listed == {}
      ensures this.tracks == tracks && Fields() == Init(videoLimit, audioLimit)
    {
      this.tracks, this.videoLimit, this.audioLimit := tracks, videoLimit, audioLimit;
      subscriptions, videoCount, audioCount, subscribedTo, notices := map[], 0, 0, map[], [];
    }

    function Fields(): State
      reads this, tracks
    {
      State(subscriptions, tracks.listed, Books(videoCount, audioCount, videoLimit, audioLimit, subscribedTo, notices))
    }

    method SubscribeToTrack(id: TrackId)
      modifies this
      ensures Fields() == Step(old(Fields()), Want(id))
      ensures subscriptions.Keys == old(subscriptions).Keys + {id} && subscriptions[id].desired
      ensures id in old(subscriptions) ==> subscriptions[id] == old(subscriptions)[id].(desired := true)
    {
      if id !in subscriptions {
        subscriptions := subscriptions[id := NEW_SUBSCRIPTION];
      }
      subscriptions := subscriptions[id := subscriptions[id].(desired := true)];
    }

    method UnsubscribeFromTrack(id: TrackId)
      modifies this
      ensures Fields() == Step(old(Fields()), Unwant(id))
      ensures subscriptions.Keys == old(subscriptions).Keys && (id in subscriptions ==> !subscriptions[id].desired)
    {
      if id in subscriptions {
        subscriptions := subscriptions[id := subscriptions[id].(desired := false)];
      }
    }

    method ClearAllSubscriptions()
      modifies this
      ensures Fields() == Step(old(Fields()), UnwantAll)
      ensures subscriptions.Keys == old(subscriptions).Keys
      ensures forall id :: id in subscriptions ==> subscriptions[id] == old(subscriptions)[id].(desired := false)
    {
      subscriptions := map id | id in subscriptions :: subscriptions[id].(desired := false);
    }

    method HandleSourceTrackRemoved(id: TrackId)
      modifies this
      ensures Fields() == Step(old(Fields()), SourceRemoved(id))
      ensures subscriptions.Keys == old(subscriptions).Keys && (id in subscriptions ==> !subscriptions[id].desired)
    {
      if id in subscriptions {
        subscriptions := subscriptions[id := subscriptions[id].(desired := false)];
      }
    }

    method HasCapacityForSubscription(kind: Kind) returns (ok: bool)
      ensures ok == Fields().books.HasCapacity(kind)
      ensures kind == Video ==> (ok <==> videoLimit <= 0 || videoCount < videoLimit)
      ensures kind == Audio ==> (ok <==> audioLimit <= 0 || audioCount < audioLimit)
    {
      match kind {
        case Video => ok := !(videoLimit > 0 && videoCount >= videoLimit);
        case Audio => ok := !(audioLimit > 0 && audioCount >= audioLimit);
      }
    }

    /** One attempt to subscribe, in the order of checks that decides which error is reported. */
    method TrySubscribe(id: TrackId, w: World) returns (err: Option<SubscribeError>)
      requires id in subscriptions
      modifies this, tracks
      ensures (Fields(), err) == Subscribe(old(Fields()), id, w)
    {
      if !w.canSubscribe {
        return Some(NoSubscribePermission);
      }
      if subscriptions[id].kind.Some? {
        var known := HasCapacityForSubscription(subscriptions[id].kind.value);
        if !known {
          return Some(LimitExceeded);
        }
      }
      if w.resolution.Unknown? {
        return Some(TrackNotFound);
      }
      var track := MediaTrack(id, w.resolution.instance, w.resolution.kind, w.resolution.publisher);
      if subscriptions[id].kind.None? {
        subscriptions := subscriptions[id := subscriptions[id].(kind := Some(track.kind))];
      } else {
        assert subscriptions[id := subscriptions[id].(kind := subscriptions[id].kind)] == subscriptions;
      }
      var free := HasCapacityForSubscription(track.kind);
      if !free {
        return Some(LimitExceeded);
      }
      subscriptions := subscriptions[id := subscriptions[id].(publisher := track.publisher)];
      if !w.resolution.hasPermission {
        return Some(NoTrackPermission);
      }
      var added := tracks.AddSubscriber(track, w.addFails);
      if added.Failed? {
        return Some(AddFailed);
      }
      if added.Added? {
        subscriptions := subscriptions[id := subscriptions[id].(held := Some(SubscribedTrack(track, Attached)))];
        match track.kind {
          case Video => videoCount := videoCount + 1;
          case Audio => audioCount := audioCount + 1;
        }
      }
      IndexTrack(track.publisher, id);
      return None;
    }

    /** Marks the publisher as someone subscribed to. */
    method IndexTrack(publisher: ParticipantId, id: TrackId)
      modifies this`subscribedTo, this`notices
      ensures Fields().books == old(Fields()).books.Index(publisher, id)
    {
      if publisher in subscribedTo {
        subscribedTo := subscribedTo[publisher := subscribedTo[publisher] + {id}];
      } else {
        subscribedTo := subscribedTo[publisher := {id}];
        notices := notices + [Notice(publisher, true)];
      }
    }

    /** One round of the reconciler for one subscription. */
    method ReconcileSubscription(id: TrackId, w: World)
      modifies this, tracks
      ensures Fields() == Step(old(Fields()), Reconciles(id, w))
    {
      if !w.canReconcile || id !in subscriptions {
        return;
      }
      if subscriptions[id].NeedsSubscribe() {
        if w.waitForUnsubscribes {
          return;
        }
        var err := TrySubscribe(id, w);
        if err == Some(TrackNotFound) && w.timedOut {
          subscriptions := subscriptions[id := subscriptions[id].(desired := false)];
        }
        return;
      }
      if subscriptions[id].NeedsUnsubscribe() {
        if subscriptions[id].held.value.stage.Attached? {
          var held := subscriptions[id].held.value;
          subscriptions := subscriptions[id := subscriptions[id].(held := Some(held.(stage := Closing)))];
        }
        return;
      }
      if subscriptions[id].NeedsCleanup() {
        subscriptions := subscriptions - {id};
      }
    }

    /** The close callback of a subscribed track. */
    method HandleSubscribedTrackClose(id: TrackId)
      modifies this
      ensures Fields() == Step(old(Fields()), Closed(id))
    {
      if id !in subscriptions || subscriptions[id].held.None? || !subscriptions[id].held.value.stage.Detached? {
        return;
      }
      var track, publisher := subscriptions[id].held.value.track, subscriptions[id].publisher;
      subscriptions := subscriptions[id := subscriptions[id].(held := None)];
      match track.kind {
        case Video => videoCount := videoCount - 1;
        case Audio => audioCount := audioCount - 1;
      }
      if publisher in subscribedTo {
        subscribedTo := subscribedTo[publisher := subscribedTo[publisher] - {id}];
        if subscribedTo[publisher] == {} {
          subscribedTo := subscribedTo - {publisher};
          notices := notices + [Notice(publisher, false)];
        }
      }
    }
  }

  // ---------------------------------------------------------------------------------- what is asked for

  function Desired(s: State): set<TrackId> { set id | id in s.subs && s.subs[id].desired }

  /** A reconcile of a desired track that does not resolve and has been waited for long enough. */
  predicate GivesUp(s: State, e: Event, id: TrackId) {
    && e.Reconciles? && e.id == id && e.world.canReconcile && !e.world.waitForUnsubscribes
    && id in s.subs && s.subs[id].desired && s.subs[id].held.None?
    && e.world.canSubscribe && e.world.resolution.Unknown? && e.world.timedOut
    && (s.subs[id].kind.Some? ==> s.books.HasCapacity(s.subs[id].kind.value))
  }

  /** The events that make a track undesired. */
  predicate Revokes(s: State, e: Event, id: TrackId) {
    e == Unwant(id) || e == UnwantAll || e == SourceRemoved(id) || GivesUp(s, e, id)
  }

  /** What is desired changes by what is asked for, and otherwise only by giving up on one track. */
  lemma DesiredExactly(s: State, e: Event)
    ensures forall id :: id in Desired(Step(s, e)) <==> e == Want(id) || (id in Desired(s) && !Revokes(s, e, id))
  {
  }

  lemma AskingSetsDesired(s: State, id: TrackId)
    ensures Desired(Step(s, Want(id))) == Desired(s) + {id}
    ensures Desired(Step(s, Unwant(id))) == Desired(s) - {id}
    ensures Desired(Step(s, UnwantAll)) == {}
    ensures Desired(Step(s, SourceRemoved(id))) == Desired(s) - {id}
    ensures Desired(Step(s, Settings(id))) == Desired(s)
  {
    DesiredExactly(s, Want(id));
    DesiredExactly(s, Unwant(id));
    DesiredExactly(s, UnwantAll);
    DesiredExactly(s, SourceRemoved(id));
    DesiredExactly(s, Settings(id));
  }

  predicate Asks(e: Event) { e.Want? || e.Unwant? || e.UnwantAll? || e.Settings? || e.SourceRemoved? }

  /** Asking changes nothing but what is desired: entries appear, none goes, and no track is taken or given up. */
  lemma AskingHoldsNothing(s: State, e: Event)
    requires Asks(e)
    ensures var t := Step(s, e);
            && t.listed == s.listed && t.books == s.books && Holdings(t) == Holdings(s)
            && t.subs.Keys == s.subs.Keys + (if e.Want? || e.Settings? then {e.id} else {})
            && (forall id :: id in s.subs ==> t.subs[id] == s.subs[id].(desired := t.subs[id].desired))
            && (forall id :: id in t.subs && id !in s.subs ==> t.subs[id].held.None? && t.subs[id].kind.None?)
  {
  }

  lemma {:induction false} RunSplits(s: State, events: seq<Event>, n: nat)
    requires n < |events|
    ensures Run(s, events[..n + 1]) == Step(Run(s, events[..n]), events[n])
    decreases n
  {
    if n == 0 {
      assert events[..1][1..] == [];
    } else {
      RunSplits(Step(s, events[0]), events[1..], n - 1);
      assert events[..n + 1][1..] == events[1..][..n] && events[..n][1..] == events[1..][..n - 1];
    }
  }

  /** The track was asked for at `i`, and nothing has made it undesired up to `n`. */
  ghost predicate WantedSince(s: State, events: seq<Event>, id: TrackId, i: nat, n: nat)
    requires n <= |events|
  {
    && i < n && events[i] == Want(id)
    && (forall j :: i < j < n ==> !Revokes(Run(s, events[..j]), events[j], id))
  }

  /** Over every run from the start a track is desired exactly when the last event that speaks of it asked for it. */
  lemma {:induction false} DesiredSinceLastWant(
      videoLimit: int, audioLimit: int, events: seq<Event>, id: TrackId, n: nat)
    requires n <= |events|
    ensures var s := Init(videoLimit, audioLimit);
            id in Desired(Run(s, events[..n])) <==> exists i: nat :: WantedSince(s, events, id, i, n)
    decreases n
  {
    var s := Init(videoLimit, audioLimit);
    if n > 0 {
      var e, before := events[n - 1], Run(s, events[..n - 1]);
      DesiredSinceLastWant(videoLimit, audioLimit, events, id, n - 1);
      RunSplits(s, events, n - 1);
      DesiredExactly(before, e);
      if e == Want(id) {
        assert WantedSince(s, events, id, n - 1, n);
      } else {
        var m := n - 1;
        if id in Desired(before) && !Revokes(before, e, id) {
          var i: nat :| WantedSince(s, events, id, i, m);
          assert WantedSince(s, events, id, i, n);
        }
        if i: nat :| WantedSince(s, events, id, i, n) {
          assert WantedSince(s, events, id, i, m);
        }
      }
    }
  }

  // ---------------------------------------------------------------------------------- what a step does

  /** Where the track of an entry stands; none is held, or there is no entry. */
  function StageOf(s: State, id: TrackId): Option<Stage> {
    if id in s.subs && s.subs[id].held.Some? then Some(s.subs[id].held.value.stage) else None
  }

  /** A track held passes through its stages one by one, each left on its own event only. */
  lemma StageMoves(s: State, e: Event, id: TrackId)
    requires StageOf(s, id).Some?
    ensures var closes := e == TrackCloses(id)
                          || (e.Reconciles? && e.id == id && e.world.canReconcile && !s.subs[id].desired);
            StageOf(Step(s, e), id)
            == if s.subs[id].held.value.stage == Attached then Some(if closes then Closing else Attached)
               else if s.subs[id].held.value.stage == Closing then Some(if e == Detaches(id) then Detached else Closing)
               else if e == Closed(id) then None else Some(Detached)
  {
  }

  /** An entry goes exactly when it is reconciled while neither desired nor held. */
  lemma EntryGoesExactly(s: State, e: Event, id: TrackId)
    requires id in s.subs
    ensures id !in Step(s, e).subs <==>
            e.Reconciles? && e.id == id && e.world.canReconcile && !s.subs[id].desired && s.subs[id].held.None?
  {
  }

  /** Which check turns an attempt away, and what it leaves recorded. */
  lemma ErrorsInOrder(s: State, id: TrackId, w: World)
    requires id in s.subs
    ensures var sub, (t, err) := s.subs[id], Subscribe(s, id, w);
            var full := sub.kind.Some? && !s.books.HasCapacity(sub.kind.value);
            && (err == Some(NoSubscribePermission) <==> !w.canSubscribe)
            && (err == Some(TrackNotFound) <==> w.canSubscribe && !full && w.resolution.Unknown?)
            && (err == Some(LimitExceeded) <==>
                  w.canSubscribe
                  && (full || (w.resolution.Resolved? && !s.books.HasCapacity(w.resolution.kind))))
            && (err == Some(NoTrackPermission) <==>
                  && w.canSubscribe && !full && w.resolution.Resolved? && s.books.HasCapacity(w.resolution.kind)
                  && !w.resolution.hasPermission)
            && t.subs[id].kind == (if sub.kind.None? && w.canSubscribe && w.resolution.Resolved?
                                   then Some(w.resolution.kind) else sub.kind)
  {
  }

  // ---------------------------------------------------------------------------------- safety

  predicate Holds(s: State, id: TrackId) { id in s.subs && s.subs[id].held.Some? }

  /** The tracks held, by id: what counters, index and notices have to agree with. */
  function Holdings(s: State): map<TrackId, MediaTrack> {
    map id | id in s.subs && s.subs[id].held.Some? :: s.subs[id].held.value.track
  }

  function OfKind(held: map<TrackId, MediaTrack>, kind: Kind): set<TrackId> {
    set id | id in held && held[id].kind == kind
  }

  function From(held: map<TrackId, MediaTrack>, publisher: ParticipantId): set<TrackId> {
    set id | id in held && held[id].publisher == publisher
  }

  ghost predicate CountInv(held: map<TrackId, MediaTrack>, b: Books, kind: Kind) {
    && b.Count(kind) == |OfKind(held, kind)|
    && (b.Limit(kind) > 0 ==> b.Count(kind) <= b.Limit(kind))
  }

  ghost predicate IndexInv(held: map<TrackId, MediaTrack>, b: Books) {
    && (forall p :: p in b.subscribedTo <==> From(held, p) != {})
    && (forall p :: p in b.subscribedTo ==> b.subscribedTo[p] == From(held, p))
  }

  /** What the last notice about a publisher said; nothing said is "not subscribed". */
  ghost function LastNotice(notices: seq<Notice>, p: ParticipantId): bool {
    if notices == [] then false
    else if notices[|notices|-1].publisher == p then notices[|notices|-1].subscribed
    else LastNotice(notices[..|notices|-1], p)
  }

  /** Per publisher the notices go: subscribed, unsubscribed, subscribed, and so on. */
  ghost predicate Alternates(notices: seq<Notice>) {
    forall i :: 0 <= i < |notices| ==> notices[i].subscribed != LastNotice(notices[..i], notices[i].publisher)
  }

  ghost predicate NoticeInv(b: Books) {
    && Alternates(b.notices)
    && (forall p :: p in b.subscribedTo <==> LastNotice(b.notices, p))
  }

  ghost predicate BooksInv(held: map<TrackId, MediaTrack>, b: Books) {
    CountInv(held, b, Audio) && CountInv(held, b, Video) && IndexInv(held, b) && NoticeInv(b)
  }

  /** A subscribed track is listed on its media track until it is detached, and nothing else is listed. */
  ghost predicate ListedInv(s: State) {
    && (forall id :: Holds(s, id) ==>
          var held := s.subs[id].held.value;
          && held.track.id == id
          && s.subs[id].publisher == held.track.publisher
          && (held.track in s.listed <==> !held.stage.Detached?))
    && (forall k :: k in s.listed ==> Holds(s, k.id) && s.subs[k.id].held.value.track == k)
  }

  ghost predicate Inv(s: State) { ListedInv(s) && BooksInv(Holdings(s), s.books) }

  lemma NoticeAppended(notices: seq<Notice>, n: Notice)
    requires Alternates(notices) && n.subscribed != LastNotice(notices, n.publisher)
    ensures Alternates(notices + [n])
    ensures forall p :: LastNotice(notices + [n], p)
                     == if p == n.publisher then n.subscribed else LastNotice(notices, p)
  {
    var more := notices + [n];
    assert more[..|notices|] == notices;
    forall i | 0 <= i < |more|
      ensures more[i].subscribed != LastNotice(more[..i], more[i].publisher)
    {
      assert more[..i] == notices[..i];
    }
  }

  lemma AttachCounts(held: map<TrackId, MediaTrack>, b: Books, id: TrackId, track: MediaTrack, kind: Kind)
    requires CountInv(held, b, kind) && id !in held && b.HasCapacity(track.kind)
    ensures CountInv(held[id := track], b.AddCount(track.kind, 1), kind)
  {
    assert OfKind(held[id := track], kind)
        == if kind == track.kind then OfKind(held, kind) + {id} else OfKind(held, kind);
  }

  lemma CloseCounts(held: map<TrackId, MediaTrack>, b: Books, id: TrackId, kind: Kind)
    requires CountInv(held, b, kind) && id in held
    ensures CountInv(held - {id}, b.AddCount(held[id].kind, -1), kind)
  {
    assert OfKind(held - {id}, kind) == if kind == held[id].kind then OfKind(held, kind) - {id} else OfKind(held, kind);
    assert kind == held[id].kind ==> id in OfKind(held, kind);
  }

  lemma AttachIndex(held: map<TrackId, MediaTrack>, b: Books, id: TrackId, track: MediaTrack)
    requires IndexInv(held, b) && id !in held
    ensures IndexInv(held[id := track], b.Index(track.publisher, id))
  {
    var after := held[id := track];
    forall p
      ensures From(after, p) == if p == track.publisher then From(held, p) + {id} else From(held, p)
    {
    }
  }

  lemma CloseIndex(held: map<TrackId, MediaTrack>, b: Books, id: TrackId)
    requires IndexInv(held, b) && id in held
    ensures held[id].publisher in b.subscribedTo
    ensures IndexInv(held - {id}, b.Unindex(held[id].publisher, id))
  {
    var after, publisher := held - {id}, held[id].publisher;
    assert id in From(held, publisher);
    forall p
      ensures From(after, p) == if p == publisher then From(held, p) - {id} else From(held, p)
    {
    }
  }

  lemma AttachNotices(b: Books, publisher: ParticipantId, id: TrackId)
    requires NoticeInv(b)
    ensures NoticeInv(b.Index(publisher, id))
  {
    if publisher !in b.subscribedTo {
      NoticeAppended(b.notices, Notice(publisher, true));
    }
  }

  lemma CloseNotices(b: Books, publisher: ParticipantId, id: TrackId)
    requires NoticeInv(b) && publisher in b.subscribedTo
    ensures NoticeInv(b.Unindex(publisher, id))
  {
    if b.subscribedTo[publisher] - {id} == {} {
      NoticeAppended(b.notices, Notice(publisher, false));
    }
  }

  lemma AttachBooks(held: map<TrackId, MediaTrack>, b: Books, id: TrackId, track: MediaTrack)
    requires BooksInv(held, b) && id !in held && b.HasCapacity(track.kind)
    ensures BooksInv(held[id := track], b.AddCount(track.kind, 1).Index(track.publisher, id))
  {
    AttachCounts(held, b, id, track, Audio);
    AttachCounts(held, b, id, track, Video);
    AttachIndex(held, b.AddCount(track.kind, 1), id, track);
    AttachNotices(b.AddCount(track.kind, 1), track.publisher, id);
  }

  lemma CloseBooks(held: map<TrackId, MediaTrack>, b: Books, id: TrackId)
    requires BooksInv(held, b) && id in held
    ensures BooksInv(held - {id}, b.AddCount(held[id].kind, -1).Unindex(held[id].publisher, id))
  {
    CloseCounts(held, b, id, Audio);
    CloseCounts(held, b, id, Video);
    CloseIndex(held, b.AddCount(held[id].kind, -1), id);
    CloseNotices(b.AddCount(held[id].kind, -1), held[id].publisher, id);
  }

  /** A track that is not held is not listed either: subscribing never meets "already subscribed". */
  lemma NotHeldNotListed(s: State, id: TrackId, w: World)
    requires ListedInv(s) && id in s.subs && s.subs[id].held.None? && w.resolution.Resolved?
    ensures MediaTrack(id, w.resolution.instance, w.resolution.kind, w.resolution.publisher) !in s.listed
  {
  }

  /** Changing what is desired, and adding or removing entries that hold nothing, changes no holding. */
  lemma SameHoldings(s: State, t: State)
    requires Inv(s) && t.listed == s.listed && t.books == s.books
    requires forall id :: Holds(s, id) ==>
               id in t.subs && t.subs[id].held == s.subs[id].held && t.subs[id].publisher == s.subs[id].publisher
    requires forall id :: Holds(t, id) ==> Holds(s, id)
    ensures Inv(t)
  {
    assert Holdings(t) == Holdings(s);
  }

  predicate CanHold(s: State, id: TrackId, w: World)
    requires id in s.subs
  {
    && w.canSubscribe && w.resolution.Resolved? && w.resolution.hasPermission && !w.addFails
    && s.books.HasCapacity(w.resolution.kind)
    && (s.subs[id].kind.Some? ==> s.books.HasCapacity(s.subs[id].kind.value))
  }

  /** A subscribe attempt succeeds exactly when nothing is in its way, and touches one entry only. */
  lemma SubscribeOutcome(s: State, id: TrackId, w: World)
    requires ListedInv(s) && id in s.subs && s.subs[id].held.None?
    ensures var t := Subscribe(s, id, w).0;
            && t.subs.Keys == s.subs.Keys
            && (forall i :: i in s.subs && i != id ==> t.subs[i] == s.subs[i])
            && t.subs[id].desired == s.subs[id].desired
            && (t.subs[id].held.Some? <==> CanHold(s, id, w))
    ensures var t := Subscribe(s, id, w).0;
            if CanHold(s, id, w) then
              var track := MediaTrack(id, w.resolution.instance, w.resolution.kind, w.resolution.publisher);
              && t.subs[id].held == Some(SubscribedTrack(track, Attached))
              && t.subs[id].publisher == track.publisher
              && t.listed == s.listed + {track}
              && t.books == s.books.AddCount(track.kind, 1).Index(track.publisher, id)
            else
              t.listed == s.listed && t.books == s.books
    ensures Subscribe(s, id, w).1.None? <==> CanHold(s, id, w)
  {
    if w.resolution.Resolved? {
      NotHeldNotListed(s, id, w);
    }
  }

  lemma SubscribeKeepsInv(s: State, id: TrackId, w: World)
    requires Inv(s) && id in s.subs && s.subs[id].held.None?
    ensures Inv(Subscribe(s, id, w).0)
  {
    var t := Subscribe(s, id, w).0;
    SubscribeOutcome(s, id, w);
    if CanHold(s, id, w) {
      var track := MediaTrack(id, w.resolution.instance, w.resolution.kind, w.resolution.publisher);
      AttachKeepsInv(s, t, id, track);
    } else {
      SameHoldings(s, t);
    }
  }

  lemma AttachKeepsInv(s: State, t: State, id: TrackId, track: MediaTrack)
    requires Inv(s) && !Holds(s, id) && track.id == id && s.books.HasCapacity(track.kind)
    requires t.subs.Keys == s.subs.Keys + {id}
    requires forall i :: i in s.subs && i != id ==> t.subs[i] == s.subs[i]
    requires t.subs[id].held == Some(SubscribedTrack(track, Attached)) && t.subs[id].publisher == track.publisher
    requires t.listed == s.listed + {track} && t.books == s.books.AddCount(track.kind, 1).Index(track.publisher, id)
    ensures Inv(t)
  {
    AttachListed(s, t, id, track);
    AttachHoldings(s, t, id, track);
    AttachBooks(Holdings(s), s.books, id, track);
  }

  lemma AttachHoldings(s: State, t: State, id: TrackId, track: MediaTrack)
    requires t.subs.Keys == s.subs.Keys + {id}
    requires forall i :: i in s.subs && i != id ==> t.subs[i] == s.subs[i]
    requires t.subs[id].held == Some(SubscribedTrack(track, Attached))
    ensures Holdings(t) == Holdings(s)[id := track]
  {
  }

  lemma AttachListed(s: State, t: State, id: TrackId, track: MediaTrack)
    requires ListedInv(s) && !Holds(s, id) && track.id == id && t.listed == s.listed + {track}
    requires t.subs.Keys == s.subs.Keys + {id}
    requires forall i :: i in s.subs && i != id ==> t.subs[i] == s.subs[i]
    requires t.subs[id].held == Some(SubscribedTrack(track, Attached)) && t.subs[id].publisher == track.publisher
    ensures ListedInv(t)
  {
    assert forall k :: k in s.listed ==> Holds(s, k.id);
  }

  lemma HandleCloseKeepsInv(s: State, id: TrackId)
    requires Inv(s)
    ensures Inv(HandleClose(s, id))
  {
    if Holds(s, id) && s.subs[id].held.value.stage.Detached? {
      CloseListed(s, id);
      CloseHoldings(s, id);
      CloseBooks(Holdings(s), s.books, id);
    }
  }

  lemma CloseHoldings(s: State, id: TrackId)
    requires Holds(s, id) && s.subs[id].held.value.stage.Detached?
    ensures Holdings(HandleClose(s, id)) == Holdings(s) - {id}
  {
  }

  lemma CloseListed(s: State, id: TrackId)
    requires ListedInv(s)
    ensures ListedInv(HandleClose(s, id))
  {
    assert forall k :: k in s.listed ==> Holds(s, k.id) && s.subs[k.id].held.value.track == k;
  }

  lemma DetachKeepsInv(s: State, id: TrackId)
    requires Inv(s)
    ensures Inv(Detach(s, id))
  {
    var t := Detach(s, id);
    assert Holdings(t) == Holdings(s);
    assert ListedInv(t) by {
      assert forall k :: k in s.listed ==> Holds(s, k.id) && s.subs[k.id].held.value.track == k;
    }
  }

  lemma StartClosingKeepsInv(s: State, id: TrackId)
    requires Inv(s)
    ensures Inv(StartClosing(s, id))
  {
    var t := StartClosing(s, id);
    assert Holdings(t) == Holdings(s);
    assert ListedInv(t) by {
      assert forall k :: k in s.listed ==> Holds(s, k.id) && s.subs[k.id].held.value.track == k;
    }
  }

  lemma ReconcileKeepsInv(s: State, id: TrackId, w: World)
    requires Inv(s)
    ensures Inv(Reconcile(s, id, w))
  {
    var t := Reconcile(s, id, w);
    if w.canReconcile && id in s.subs {
      if s.subs[id].NeedsSubscribe() {
        SubscribeKeepsInv(s, id, w);
        var u := Subscribe(s, id, w).0;
        SameHoldings(u, SetDesired(u, id, false));
      } else if s.subs[id].NeedsUnsubscribe() {
        StartClosingKeepsInv(s, id);
      } else {
        SameHoldings(s, t);
      }
    }
  }

  lemma StepKeepsInv(s: State, e: Event)
    requires Inv(s)
    ensures Inv(Step(s, e))
  {
    match e
    case Want(id) => SameHoldings(s, SubscribeToTrack(s, id));
    case Unwant(id) => SameHoldings(s, SetDesired(s, id, false));
    case UnwantAll => SameHoldings(s, ClearAll(s));
    case Settings(id) => SameHoldings(s, UpdateSettings(s, id));
    case Reconciles(id, w) => ReconcileKeepsInv(s, id, w);
    case SourceRemoved(id) => SameHoldings(s, SetDesired(s, id, false));
    case TrackCloses(id) => StartClosingKeepsInv(s, id);
    case Detaches(id) => DetachKeepsInv(s, id);
    case Closed(id) => HandleCloseKeepsInv(s, id);
  }

  lemma {:induction false} RunKeepsInv(s: State, events: seq<Event>)
    requires Inv(s)
    ensures Inv(Run(s, events))
    decreases |events|
  {
    if events != [] {
      StepKeepsInv(s, events[0]);
      RunKeepsInv(Step(s, events[0]), events[1..]);
    }
  }

  lemma ReachableInv(videoLimit: int, audioLimit: int, events: seq<Event>)
    ensures Inv(Run(Init(videoLimit, audioLimit), events))
  {
    var s := Init(videoLimit, audioLimit);
    assert Holdings(s) == map[];
    assert OfKind(map[], Audio) == {} && OfKind(map[], Video) == {};
    assert forall p :: From(map[], p) == {};
    RunKeepsInv(s, events);
  }

  /** Counters, limits and the per-publisher index agree with the held tracks in every reachable state. */
  lemma BooksAgree(videoLimit: int, audioLimit: int, events: seq<Event>)
    ensures var s := Run(Init(videoLimit, audioLimit), events);
            && s.books.videoCount == |OfKind(Holdings(s), Video)|
            && s.books.audioCount == |OfKind(Holdings(s), Audio)|
            && (videoLimit > 0 ==> s.books.videoCount <= videoLimit)
            && (audioLimit > 0 ==> s.books.audioCount <= audioLimit)
            && (forall p :: p in s.books.subscribedTo <==> From(Holdings(s), p) != {})
            && (forall p :: p in s.books.subscribedTo ==> s.books.subscribedTo[p] == From(Holdings(s), p))
  {
    ReachableInv(videoLimit, audioLimit, events);
    KeepsLimits(Init(videoLimit, audioLimit), events);
  }

  lemma {:induction false} KeepsLimits(s: State, events: seq<Event>)
    ensures var t := Run(s, events);
            t.books.videoLimit == s.books.videoLimit && t.books.audioLimit == s.books.audioLimit
    decreases |events|
  {
    if events != [] {
      KeepsLimits(Step(s, events[0]), events[1..]);
    }
  }

  /** Per publisher the notices strictly alternate, and the last one tells whether a track is held. */
  lemma NoticesAlternate(videoLimit: int, audioLimit: int, events: seq<Event>, p: ParticipantId)
    ensures var s := Run(Init(videoLimit, audioLimit), events);
            Alternates(s.books.notices) && (LastNotice(s.books.notices, p) <==> From(Holdings(s), p) != {})
  {
    ReachableInv(videoLimit, audioLimit, events);
  }

  /** A subscribe attempt never asks a media track that still lists the participant. */
  lemma NeverSubscribedTwice(videoLimit: int, audioLimit: int, events: seq<Event>, id: TrackId, k: MediaTrack)
    requires var s := Run(Init(videoLimit, audioLimit), events);
             id in s.subs && s.subs[id].NeedsSubscribe() && k.id == id
    ensures k !in Run(Init(videoLimit, audioLimit), events).listed
  {
    ReachableInv(videoLimit, audioLimit, events);
  }

  // ---------------------------------------------------------------------------------- convergence

  predicate ResolvesAs(world: map<TrackId, Resolution>, id: TrackId, kind: Kind) {
    id in world && world[id].Resolved? && world[id].kind == kind
  }

  function Wanted(s: State, world: map<TrackId, Resolution>, kind: Kind): set<TrackId> {
    set id | id in s.subs && s.subs[id].desired && ResolvesAs(world, id, kind)
  }

  /** What is desired resolves, is permitted, keeps its kind, and fits within the limits. */
  ghost predicate Settled(s: State, world: map<TrackId, Resolution>) {
    && (forall id :: id in s.subs && s.subs[id].desired ==>
          && id in world && world[id].Resolved? && world[id].hasPermission
          && (s.subs[id].kind.Some? ==> s.subs[id].kind.value == world[id].kind)
          && (s.subs[id].held.Some? ==> s.subs[id].held.value.track.kind == world[id].kind))
    && (forall kind :: s.books.Limit(kind) > 0 ==> |Wanted(s, world, kind)| <= s.books.Limit(kind))
  }

  /** Only reconciles and closes that were asked for happen, and the resolver's answers stay the same. */
  predicate Quiet(world: map<TrackId, Resolution>, e: Event) {
    match e
    case Reconciles(id, w) =>
      w.canReconcile && w.canSubscribe && !w.addFails && (id in world ==> w.resolution == world[id])
    case Detaches(_) => true
    case Closed(_) => true
    case _ => false
  }

  /** How many steps a subscription is away from where it should be. */
  function Rank(sub: Subscription): nat {
    match sub.held
    case None => 1
    case Some(h) =>
      if h.stage.Closing? then 3
      else if h.stage.Detached? then 2
      else if sub.desired then 0 else 4
  }

  function RankOf(s: State, id: TrackId): nat { if id in s.subs then Rank(s.subs[id]) else 0 }

  function Level(s: State, k: nat): set<TrackId> { set id | id in s.subs && Rank(s.subs[id]) >= k }

  /** The sum of all ranks, as the sizes of the four level sets. */
  function Measure(s: State): nat { |Level(s, 1)| + |Level(s, 2)| + |Level(s, 3)| + |Level(s, 4)| }

  predicate Effective(s: State, e: Event) {
    match e
    case Reconciles(id, w) =>
      && id in s.subs
      && (s.subs[id].NeedsSubscribe() ==> !w.waitForUnsubscribes && CanHold(s, id, w))
      && (s.subs[id].held.Some? ==> !s.subs[id].desired && s.subs[id].held.value.stage.Attached?)
    case Detaches(id) => Holds(s, id) && s.subs[id].held.value.stage.Closing?
    case Closed(id) => Holds(s, id) && s.subs[id].held.value.stage.Detached?
    case _ => false
  }

  function EventId(e: Event): TrackId
    requires !e.UnwantAll?
  {
    e.id
  }

  /** Entries other than `id` are untouched, and so is what is desired; `id` may only go undesired. */
  ghost predicate OnlyTouches(s: State, t: State, id: TrackId) {
    && t.subs.Keys <= s.subs.Keys && s.subs.Keys - {id} <= t.subs.Keys
    && (forall i :: i in t.subs && i != id ==> t.subs[i] == s.subs[i])
    && (id in t.subs ==> t.subs[id].desired == s.subs[id].desired)
    && (id in s.subs && id !in t.subs ==> !s.subs[id].desired)
    && t.books.videoLimit == s.books.videoLimit && t.books.audioLimit == s.books.audioLimit
  }

  lemma QuietReconcile(s: State, world: map<TrackId, Resolution>, id: TrackId, w: World)
    requires ListedInv(s) && Settled(s, world) && Quiet(world, Reconciles(id, w))
    ensures OnlyTouches(s, Reconcile(s, id, w), id)
    ensures var t := Reconcile(s, id, w);
            if Effective(s, Reconciles(id, w)) then RankOf(t, id) < RankOf(s, id) else RankOf(t, id) == RankOf(s, id)
  {
    if id in s.subs && s.subs[id].NeedsSubscribe() {
      SubscribeOutcome(s, id, w);
    }
  }

  /** A quiet step touches one entry and lowers its rank exactly when it is effective. */
  lemma QuietStepRanks(s: State, world: map<TrackId, Resolution>, e: Event)
    requires ListedInv(s) && Settled(s, world) && Quiet(world, e)
    ensures OnlyTouches(s, Step(s, e), EventId(e))
    ensures var t := Step(s, e);
            if Effective(s, e) then RankOf(t, EventId(e)) < RankOf(s, EventId(e))
            else RankOf(t, EventId(e)) == RankOf(s, EventId(e))
  {
    match e
    case Reconciles(id, w) => QuietReconcile(s, world, id, w);
    case _ =>
  }

  lemma QuietStepSettled(s: State, world: map<TrackId, Resolution>, e: Event)
    requires Inv(s) && Settled(s, world) && Quiet(world, e)
    ensures Inv(Step(s, e)) && Settled(Step(s, e), world)
  {
    StepKeepsInv(s, e);
    QuietStepRanks(s, world, e);
    QuietStepKinds(s, world, e);
    KeepsSettled(s, Step(s, e), world, EventId(e));
  }

  lemma QuietStepKinds(s: State, world: map<TrackId, Resolution>, e: Event)
    requires ListedInv(s) && Settled(s, world) && Quiet(world, e)
    ensures var t, id := Step(s, e), EventId(e);
            id in t.subs && t.subs[id].desired ==>
              && id in s.subs && ResolvesAs(world, id, world[id].kind)
              && (t.subs[id].kind.Some? ==> t.subs[id].kind.value == world[id].kind)
              && (t.subs[id].held.Some? ==> t.subs[id].held.value.track.kind == world[id].kind)
  {
    if e.Reconciles? && e.id in s.subs && s.subs[e.id].NeedsSubscribe() {
      SubscribeOutcome(s, e.id, e.world);
    }
  }

  lemma KeepsSettled(s: State, t: State, world: map<TrackId, Resolution>, id: TrackId)
    requires Settled(s, world) && OnlyTouches(s, t, id)
    requires id in t.subs && t.subs[id].desired ==>
               && id in s.subs && ResolvesAs(world, id, world[id].kind)
               && (t.subs[id].kind.Some? ==> t.subs[id].kind.value == world[id].kind)
               && (t.subs[id].held.Some? ==> t.subs[id].held.value.track.kind == world[id].kind)
    ensures Settled(t, world)
  {
    forall kind: Kind
      ensures Wanted(t, world, kind) == Wanted(s, world, kind)
    {
    }
    assert forall kind: Kind :: t.books.Limit(kind) == s.books.Limit(kind);
  }

  /** Under quiet conditions no step moves a subscription away from its goal; an effective one gains. */
  lemma MeasureFalls(s: State, world: map<TrackId, Resolution>, e: Event)
    requires Inv(s) && Settled(s, world) && Quiet(world, e)
    ensures Measure(Step(s, e)) <= Measure(s)
    ensures Measure(Step(s, e)) < Measure(s) <==> Effective(s, e)
  {
    var t := Step(s, e);
    QuietStepRanks(s, world, e);
    LevelShrinks(s, t, EventId(e), 1);
    LevelShrinks(s, t, EventId(e), 2);
    LevelShrinks(s, t, EventId(e), 3);
    LevelShrinks(s, t, EventId(e), 4);
    assert RankOf(s, EventId(e)) <= 4;
  }

  lemma LevelShrinks(s: State, t: State, id: TrackId, k: nat)
    requires k >= 1 && t.subs.Keys <= s.subs.Keys && s.subs.Keys - {id} <= t.subs.Keys
    requires forall i :: i in t.subs && i != id ==> t.subs[i] == s.subs[i]
    requires RankOf(t, id) <= RankOf(s, id)
    ensures |Level(t, k)| == |Level(s, k)| - (if RankOf(t, id) < k <= RankOf(s, id) then 1 else 0)
  {
    if RankOf(t, id) < k <= RankOf(s, id) {
      assert id in Level(s, k) && Level(t, k) == Level(s, k) - {id};
    } else {
      assert Level(t, k) == Level(s, k);
    }
  }

  /** Everything kept is desired and held, and in use. */
  ghost predicate Converged(s: State) {
    forall id :: id in s.subs ==> s.subs[id].desired && s.subs[id].held.Some? && s.subs[id].held.value.stage.Attached?
  }

  lemma ZeroMeasureIsConverged(s: State)
    ensures Measure(s) == 0 <==> Converged(s)
  {
    if Converged(s) {
      assert forall k :: k >= 1 ==> Level(s, k) == {};
    } else {
      var id :| id in s.subs && !(s.subs[id].desired && s.subs[id].held.Some? && s.subs[id].held.value.stage.Attached?);
      assert id in Level(s, 1);
    }
  }

  /** The step that helps an entry which is not waiting for a free slot. */
  function NextEvent(s: State, world: map<TrackId, Resolution>, id: TrackId): Event
    requires id in s.subs
  {
    match s.subs[id].held
    case Some(SubscribedTrack(_, Closing)) => Detaches(id)
    case Some(SubscribedTrack(_, Detached)) => Closed(id)
    case _ => Reconciles(id, World(true, false, true, if id in world then world[id] else Unknown, false, false))
  }

  /** A full kind has a slot that is about to become free: some held track of it is no longer desired. */
  lemma SlotToFree(s: State, world: map<TrackId, Resolution>, id: TrackId) returns (other: TrackId)
    requires Inv(s) && Settled(s, world) && id in s.subs && s.subs[id].NeedsSubscribe()
    requires !s.books.HasCapacity(world[id].kind)
    ensures Holds(s, other) && !s.subs[other].desired
  {
    var kind := world[id].kind;
    var held, wanted := OfKind(Holdings(s), kind), Wanted(s, world, kind);
    assert CountInv(Holdings(s), s.books, kind);
    assert id in wanted && id !in held;
    if held <= wanted - {id} {
      SubsetSize(held, wanted - {id});
      assert false;
    }
    other :| other in held && other !in wanted - {id};
    assert Holds(s, other);
  }

  /** As long as something is left to do, some quiet step is effective. */
  lemma Progress(s: State, world: map<TrackId, Resolution>) returns (e: Event)
    requires Inv(s) && Settled(s, world) && !Converged(s)
    ensures Quiet(world, e) && Effective(s, e)
  {
    var id :| id in s.subs && !(s.subs[id].desired && s.subs[id].held.Some? && s.subs[id].held.value.stage.Attached?);
    if s.subs[id].NeedsSubscribe() && !s.books.HasCapacity(world[id].kind) {
      id := SlotToFree(s, world, id);
    }
    e := NextEvent(s, world, id);
  }

  /** Convergence is when no quiet step has an effect any more. */
  lemma ConvergedExactly(s: State, world: map<TrackId, Resolution>)
    requires Inv(s) && Settled(s, world)
    ensures Converged(s) <==> forall e :: Quiet(world, e) ==> !Effective(s, e)
  {
    if Converged(s) {
      ZeroMeasureIsConverged(s);
      forall e | Quiet(world, e)
        ensures !Effective(s, e)
      {
        MeasureFalls(s, world, e);
      }
    } else {
      var e := Progress(s, world);
    }
  }

  ghost predicate AllQuiet(world: map<TrackId, Resolution>, events: seq<Event>) {
    forall i :: 0 <= i < |events| ==> Quiet(world, events[i])
  }

  /** From any settled reachable state the desired tracks, and only they, can all be reached. */
  lemma Converges(s: State, world: map<TrackId, Resolution>) returns (events: seq<Event>)
    requires Inv(s) && Settled(s, world)
    ensures AllQuiet(world, events) && |events| <= Measure(s)
    ensures var t := Run(s, events);
            Converged(t) && t.subs.Keys == Desired(s) && Holdings(t).Keys == Desired(s)
  {
    events := GainUntilConverged(s, world);
    ConvergedHoldings(Run(s, events));
  }

  lemma ConvergedHoldings(s: State)
    requires Converged(s)
    ensures s.subs.Keys == Desired(s) && Holdings(s).Keys == Desired(s)
  {
  }

  lemma {:induction false} GainUntilConverged(s: State, world: map<TrackId, Resolution>) returns (events: seq<Event>)
    requires Inv(s) && Settled(s, world)
    ensures AllQuiet(world, events) && |events| <= Measure(s)
    ensures Converged(Run(s, events)) && Desired(Run(s, events)) == Desired(s)
    decreases Measure(s)
  {
    if Converged(s) {
      events := [];
    } else {
      var e := Gain(s, world);
      var rest := GainUntilConverged(Step(s, e), world);
      events := [e] + rest;
      assert events[1..] == rest;
    }
  }

  lemma Gain(s: State, world: map<TrackId, Resolution>) returns (e: Event)
    requires Inv(s) && Settled(s, world) && !Converged(s)
    ensures Quiet(world, e) && Measure(Step(s, e)) < Measure(s)
    ensures Inv(Step(s, e)) && Settled(Step(s, e), world) && Desired(Step(s, e)) == Desired(s)
  {
    e := Progress(s, world);
    MeasureFalls(s, world, e);
    QuietStepSettled(s, world, e);
    QuietStepDesired(s, world, e);
  }

  lemma QuietStepDesired(s: State, world: map<TrackId, Resolution>, e: Event)
    requires ListedInv(s) && Settled(s, world) && Quiet(world, e)
    ensures Desired(Step(s, e)) == Desired(s)
  {
    QuietStepRanks(s, world, e);
  }

  function EffectiveSteps(s: State, events: seq<Event>): nat
    decreases |events|
  {
    if events == [] then 0
    else (if Effective(s, events[0]) then 1 else 0) + EffectiveSteps(Step(s, events[0]), events[1..])
  }

  /** However the quiet steps are scheduled, at most as many as the measure can have an effect. */
  lemma {:induction false} FewEffectiveSteps(s: State, world: map<TrackId, Resolution>, events: seq<Event>)
    requires Inv(s) && Settled(s, world) && AllQuiet(world, events)
    ensures EffectiveSteps(s, events) + Measure(Run(s, events)) <= Measure(s)
    ensures Inv(Run(s, events)) && Settled(Run(s, events), world)
    decreases |events|
  {
    if events != [] {
      MeasureFalls(s, world, events[0]);
      QuietStepSettled(s, world, events[0]);
      FewEffectiveSteps(Step(s, events[0]), world, events[1..]);
    }
  }

  /** So any schedule that has had as many effective steps as the measure says has converged. */
  lemma EnoughStepsConverge(s: State, world: map<TrackId, Resolution>, events: seq<Event>)
    requires Inv(s) && Settled(s, world) && AllQuiet(world, events) && EffectiveSteps(s, events) >= Measure(s)
    ensures Converged(Run(s, events))
  {
    FewEffectiveSteps(s, world, events);
    ZeroMeasureIsConverged(Run(s, events));
  }
}
