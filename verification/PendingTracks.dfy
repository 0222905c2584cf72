/**
 Tracks a participant has asked to publish: a queue of requests per client id, the live tracks made
 from them, and the announcements that tell the client to go ahead.
 */
module PendingTracks {
  import opened Common

  /** Client ids and track ids are server-side opaque names. */
  type Cid = nat
  type TrackSid = nat

  datatype Kind = Audio | Video

  /** A request in a queue; `req` numbers all requests in the order they came. */
  datatype TrackInfo = TrackInfo(req: nat, sid: TrackSid, kind: Kind, codecCids: set<Cid>)

  datatype Pending = Pending(infos: seq<TrackInfo>, queued: bool)

  /** A published track: the client id it was requested under, those its media goes by, its request. */
  datatype LiveTrack = LiveTrack(signalCid: Cid, sdpCid: Cid, codecCids: set<Cid>, req: nat)
  {
    predicate HasSdpCid(c: Cid) { c == sdpCid || c in codecCids }
  }

  /**
   The pending requests and live tracks, and history: per client id the requests made, the requests
   announced, and how many of them have become tracks.
   */
  datatype State = State(
    pending: map<Cid, Pending>, live: set<LiveTrack>, nextReq: nat, nextSid: TrackSid,
    requests: map<Cid, seq<nat>>, announced: map<Cid, seq<nat>>, consumed: map<Cid, nat>)
  {
    function Requests(c: Cid): seq<nat> { if c in requests then requests[c] else [] }

    function Announced(c: Cid): seq<nat> { if c in announced then announced[c] else [] }

    function Consumed(c: Cid): nat { if c in consumed then consumed[c] else 0 }

    function Announce(c: Cid, req: nat): State { this.(announced := announced[c := Announced(c) + [req]]) }

    predicate LiveBySignal(c: Cid) { exists t | t in live :: t.signalCid == c }

    predicate LiveBySdp(c: Cid) { exists t | t in live :: t.HasSdpCid(c) }
  }

  const INIT := State(map[], {}, 0, 0, map[], map[], map[])

  datatype Event =
    | AddTrack(cid: Cid, kind: Kind, codecCids: set<Cid>)
    | MediaReceived(sdpCid: Cid, mediaKind: Kind, choice: Cid)
    | TrackClosed(track: LiveTrack)

  // ---------------------------------------------------------------------------------- steps

  /** A request: announced at once, unless its client id is in use; then it waits its turn. */
  function StepAdd(s: State, c: Cid, kind: Kind, codecCids: set<Cid>): State {
    var sid := if c in s.pending && s.pending[c].infos != [] then s.pending[c].infos[0].sid else s.nextSid;
    var info := TrackInfo(s.nextReq, sid, kind, codecCids);
    var s1 := s.(nextReq := s.nextReq + 1, nextSid := s.nextSid + 1,
                 requests := s.requests[c := s.Requests(c) + [info.req]]);
    if c in s.pending then
      s1.(pending := s.pending[c := s.pending[c].(infos := s.pending[c].infos + [info])])
    else if s.LiveBySignal(c) || s.LiveBySdp(c) then
      s1.(pending := s.pending[c := Pending([info], true)])
    else
      s1.(pending := s.pending[c := Pending([info], false)]).Announce(c, info.req)
  }

  /**
   Which queue received media may be matched with: the one of its own client id; failing that, any
   whose first request names the id as one of its codecs; failing that, any of the same kind.
   */
  predicate MayMatch(pending: map<Cid, Pending>, sdpCid: Cid, kind: Kind, choice: Cid) {
    && choice in pending && pending[choice].infos != []
    && (if sdpCid in pending then choice == sdpCid
        else if exists c | c in pending :: pending[c].infos != [] && sdpCid in pending[c].infos[0].codecCids
        then sdpCid in pending[choice].infos[0].codecCids
        else pending[choice].infos[0].kind == kind)
  }

  /** The first request of a queue becomes a track; what is left waits for that track to close. */
  function Publish(s: State, c: Cid, sdpCid: Cid): State
    requires c in s.pending && s.pending[c].infos != []
  {
    var infos := s.pending[c].infos;
    s.(live := s.live + {LiveTrack(c, sdpCid, infos[0].codecCids, infos[0].req)},
       consumed := s.consumed[c := s.Consumed(c) + 1],
       pending := if |infos| == 1 then s.pending - {c} else s.pending[c := Pending(infos[1..], true)])
  }

  function StepReceive(s: State, sdpCid: Cid, kind: Kind, choice: Cid): State {
    if s.LiveBySdp(sdpCid) || !MayMatch(s.pending, sdpCid, kind, choice) || s.pending[choice].queued then s
    else Publish(s, choice, sdpCid)
  }

  /** A track closed: the next request under its signalled client id may go ahead. */
  function StepClose(s: State, t: LiveTrack): State {
    if t !in s.live then s
    else
      var s1 := s.(live := s.live - {t});
      var c := t.signalCid;
      if c in s.pending && s.pending[c].infos != [] then
        s1.(pending := s.pending[c := s.pending[c].(queued := false)]).Announce(c, s.pending[c].infos[0].req)
      else s1
  }

  function Step(s: State, e: Event): State {
    match e
    case AddTrack(c, kind, codecCids) => StepAdd(s, c, kind, codecCids)
    case MediaReceived(sdpCid, kind, choice) => StepReceive(s, sdpCid, kind, choice)
    case TrackClosed(t) => StepClose(s, t)
  }

  function Run(s: State, events: seq<Event>): State
    decreases |events|
  {
    if events == [] then s else Run(Step(s, events[0]), events[1..])
  }

  // ---------------------------------------------------------------------------------- in place

  class ParticipantTracks {
    var pendingTracks: map<Cid, Pending>
    var live: set<LiveTrack>
    var nextReq: nat
    var nextSid: TrackSid
    ghost var requests: map<Cid, seq<nat>>
    ghost var announced: map<Cid, seq<nat>>
    ghost var consumed: map<Cid, nat>

    constructor ()
      ensures Fields() == INIT
    {
      pendingTracks, live, nextReq, nextSid := map[], {}, 0, 0;
      requests, announced, consumed := map[], map[], map[];
    }

    ghost function Fields(): State
      reads this
    {
      State(pendingTracks, live, nextReq, nextSid, requests, announced, consumed)
    }

    ghost method SendTrackPublished(c: Cid, req: nat)
      modifies this`announced
      ensures Fields() == old(Fields()).Announce(c, req)
    {
      announced := announced[c := Fields().Announced(c) + [req]];
    }

    method AddTrackRequest(c: Cid, kind: Kind, codecCids: set<Cid>)
      modifies this
      ensures Fields() == Step(old(Fields()), AddTrack(c, kind, codecCids))
    {
      var sid := nextSid;
      if c in pendingTracks && pendingTracks[c].infos != [] {
        sid := pendingTracks[c].infos[0].sid;
      }
      var info := TrackInfo(nextReq, sid, kind, codecCids);
      nextReq, nextSid := nextReq + 1, nextSid + 1;
      requests := requests[c := Fields().Requests(c) + [info.req]];
      var published := (exists t | t in live :: t.signalCid == c) || (exists t | t in live :: t.HasSdpCid(c));
      if published || c in pendingTracks {
        if c !in pendingTracks {
          pendingTracks := pendingTracks[c := Pending([info], true)];
        } else {
          pendingTracks := pendingTracks[c := pendingTracks[c].(infos := pendingTracks[c].infos + [info])];
        }
        return;
      }
      pendingTracks := pendingTracks[c := Pending([info], false)];
      SendTrackPublished(c, info.req);
    }

    /** Finds the queue that media belongs to; map order decides between equally good ones. */
    method GetPendingTrack(sdpCid: Cid, kind: Kind) returns (found: Option<Cid>)
      requires forall c :: c in pendingTracks ==> pendingTracks[c].infos != []
      ensures found.Some? ==> MayMatch(pendingTracks, sdpCid, kind, found.value)
      ensures found.None? ==> forall c :: !MayMatch(pendingTracks, sdpCid, kind, c)
      ensures sdpCid in pendingTracks ==> found == Some(sdpCid)
      ensures sdpCid !in pendingTracks && found.Some? ==>
                && found.value in pendingTracks
                && var first := pendingTracks[found.value].infos[0];
                   sdpCid in first.codecCids
                   || (first.kind == kind
                       && forall c :: c in pendingTracks ==> sdpCid !in pendingTracks[c].infos[0].codecCids)
      ensures found.None? ==>
                && sdpCid !in pendingTracks
                && forall c :: c in pendingTracks ==>
                     sdpCid !in pendingTracks[c].infos[0].codecCids && pendingTracks[c].infos[0].kind != kind
    {
      if sdpCid in pendingTracks {
        return Some(sdpCid);
      }
      if exists c | c in pendingTracks :: sdpCid in pendingTracks[c].infos[0].codecCids {
        var c :| c in pendingTracks && sdpCid in pendingTracks[c].infos[0].codecCids;
        return Some(c);
      }
      if exists c | c in pendingTracks :: pendingTracks[c].infos[0].kind == kind {
        var c :| c in pendingTracks && pendingTracks[c].infos[0].kind == kind;
        return Some(c);
      }
      return None;
    }

    method MediaTrackReceived(sdpCid: Cid, kind: Kind) returns (choice: Cid)
      requires forall c :: c in pendingTracks ==> pendingTracks[c].infos != []
      modifies this
      ensures Fields() == Step(old(Fields()), MediaReceived(sdpCid, kind, choice))
    {
      choice := sdpCid;
      if exists t | t in live :: t.HasSdpCid(sdpCid) {
        return;
      }
      var found := GetPendingTrack(sdpCid, kind);
      if found.None? {
        return;
      }
      choice := found.value;
      if pendingTracks[choice].queued {
        return;
      }
      AddMediaTrack(choice, sdpCid);
    }

    method AddMediaTrack(c: Cid, sdpCid: Cid)
      requires c in pendingTracks && pendingTracks[c].infos != []
      modifies this
      ensures Fields() == Publish(old(Fields()), c, sdpCid)
    {
      var info := pendingTracks[c].infos[0];
      live := live + {LiveTrack(c, sdpCid, info.codecCids, info.req)};
      consumed := consumed[c := Fields().Consumed(c) + 1];
      pendingTracks := pendingTracks[c := pendingTracks[c].(infos := pendingTracks[c].infos[1..])];
      if pendingTracks[c].infos == [] {
        pendingTracks := pendingTracks - {c};
        assert pendingTracks == old(pendingTracks) - {c};
      } else {
        pendingTracks := pendingTracks[c := pendingTracks[c].(queued := true)];
        assert pendingTracks == old(pendingTracks)[c := Pending(old(pendingTracks)[c].infos[1..], true)];
      }
    }

    method OnTrackClosed(t: LiveTrack)
      requires t in live
      requires forall c :: c in pendingTracks ==> pendingTracks[c].infos != []
      modifies this
      ensures Fields() == Step(old(Fields()), TrackClosed(t))
    {
      live := live - {t};
      if t.signalCid in pendingTracks {
        SendTrackPublished(t.signalCid, pendingTracks[t.signalCid].infos[0].req);
        pendingTracks := pendingTracks[t.signalCid := pendingTracks[t.signalCid].(queued := false)];
      }
    }
  }

  // ---------------------------------------------------------------------------------- what a step does

  /** The first request of a queue names the id as one of its codecs. */
  predicate Names(s: State, c: Cid, sdpCid: Cid) {
    c in s.pending && s.pending[c].infos != [] && sdpCid in s.pending[c].infos[0].codecCids
  }

  /** Media may be of the queue under its own id; failing that one that names it; failing that one of its kind. */
  predicate Suits(s: State, sdpCid: Cid, kind: Kind, c: Cid) {
    && c in s.pending && s.pending[c].infos != []
    && (|| c == sdpCid
        || (sdpCid !in s.pending && Names(s, c, sdpCid))
        || (sdpCid !in s.pending && (forall d | d in s.pending :: !Names(s, d, sdpCid))
            && s.pending[c].infos[0].kind == kind))
  }

  /** Media becomes a track exactly when no live one goes by its id and a suitable queue is not waiting. */
  lemma PublishedExactly(s: State, sdpCid: Cid, kind: Kind, choice: Cid)
    ensures
      var t := Step(s, MediaReceived(sdpCid, kind, choice));
      var taken := exists u :: u in s.live && (u.sdpCid == sdpCid || sdpCid in u.codecCids);
      if !taken && Suits(s, sdpCid, kind, choice) && !s.pending[choice].queued then
        var infos := s.pending[choice].infos;
        && t.live == s.live + {LiveTrack(choice, sdpCid, infos[0].codecCids, infos[0].req)}
        && t.Consumed(choice) == s.Consumed(choice) + 1
        && (if |infos| == 1 then t.pending == s.pending - {choice}
            else t.pending == s.pending[choice := Pending(infos[1..], true)])
      else t == s
  {
    assert (exists u :: u in s.live && (u.sdpCid == sdpCid || sdpCid in u.codecCids)) <==> s.LiveBySdp(sdpCid);
    assert Suits(s, sdpCid, kind, choice) <==> MayMatch(s.pending, sdpCid, kind, choice) by {
      if exists c | c in s.pending :: s.pending[c].infos != [] && sdpCid in s.pending[c].infos[0].codecCids {
        var c :| c in s.pending && s.pending[c].infos != [] && sdpCid in s.pending[c].infos[0].codecCids;
        assert Names(s, c, sdpCid);
      }
    }
  }

  /** A request joins the queue of its client id, under the track id of the first one waiting there. */
  lemma QueuedExactly(s: State, c: Cid, kind: Kind, codecCids: set<Cid>)
    ensures
      var t := Step(s, AddTrack(c, kind, codecCids));
      var waiting := if c in s.pending then s.pending[c].infos else [];
      var info := TrackInfo(s.nextReq, if waiting != [] then waiting[0].sid else s.nextSid, kind, codecCids);
      var inUse := exists u :: u in s.live && (u.signalCid == c || u.sdpCid == c || c in u.codecCids);
      && t.live == s.live && t.pending.Keys == s.pending.Keys + {c}
      && (forall d :: d in s.pending && d != c ==> t.pending[d] == s.pending[d])
      && t.pending[c] == Pending(waiting + [info], if c in s.pending then s.pending[c].queued else inUse)
      && t.nextSid == s.nextSid + 1 && t.nextReq == s.nextReq + 1
      && t.Requests(c) == s.Requests(c) + [s.nextReq]
  {
    assert (exists u :: u in s.live && (u.signalCid == c || u.sdpCid == c || c in u.codecCids))
      <==> s.LiveBySignal(c) || s.LiveBySdp(c);
    var info := TrackInfo(s.nextReq, s.nextSid, kind, codecCids);
    assert [] + [info] == [info];
  }

  /** A close takes the track away and lets the queue under its signalled id go on. */
  lemma ClosedExactly(s: State, track: LiveTrack)
    requires track in s.live
    ensures
      var t, c := Step(s, TrackClosed(track)), track.signalCid;
      && t.live == s.live - {track}
      && t.pending == if c in s.pending && s.pending[c].infos != []
                      then s.pending[c := Pending(s.pending[c].infos, false)] else s.pending
  {
  }

  // ---------------------------------------------------------------------------------- invariant

  ghost predicate Reqs(infos: seq<TrackInfo>, reqs: seq<nat>) {
    |infos| == |reqs| && forall i :: 0 <= i < |infos| ==> infos[i].req == reqs[i]
  }

  /** How many requests under a client id have been announced. */
  ghost function Due(s: State, c: Cid): nat {
    s.Consumed(c) + if c in s.pending && !s.pending[c].queued then 1 else 0
  }

  /** Per client id: what is pending are the requests not yet consumed. */
  ghost predicate QueueInv(s: State, c: Cid) {
    && s.Consumed(c) <= |s.Requests(c)|
    && (if c in s.pending
        then s.pending[c].infos != [] && Reqs(s.pending[c].infos, s.Requests(c)[s.Consumed(c)..])
        else s.Consumed(c) == |s.Requests(c)|)
  }

  /** Per client id: what is due has been announced, and only after the live track of that id closed. */
  ghost predicate DueInv(s: State, c: Cid) {
    && Due(s, c) <= |s.Requests(c)|
    && s.Announced(c) == s.Requests(c)[..Due(s, c)]
    && (c in s.pending && !s.pending[c].queued ==> !s.LiveBySignal(c))
  }

  ghost predicate Increasing(reqs: seq<nat>, bound: nat) {
    && (forall i :: 0 <= i < |reqs| ==> reqs[i] < bound)
    && (forall i, j :: 0 <= i < j < |reqs| ==> reqs[i] < reqs[j])
  }

  ghost predicate CidInv(s: State, c: Cid) {
    QueueInv(s, c) && DueInv(s, c) && Increasing(s.Requests(c), s.nextReq)
  }

  ghost predicate LiveInv(s: State) {
    && (forall t, u :: t in s.live && u in s.live && t.signalCid == u.signalCid ==> t == u)
    && (forall t, u :: t in s.live && u in s.live && t.sdpCid == u.sdpCid ==> t == u)
  }

  ghost predicate Inv(s: State) { LiveInv(s) && forall c :: CidInv(s, c) }

  lemma ReqsExtend(infos: seq<TrackInfo>, reqs: seq<nat>, from: nat, info: TrackInfo)
    requires from <= |reqs| && Reqs(infos, reqs[from..])
    ensures Reqs(infos + [info], (reqs + [info.req])[from..])
  {
    assert (reqs + [info.req])[from..] == reqs[from..] + [info.req];
  }

  /** What a request does to its own client id. */
  lemma AddedTo(s: State, c: Cid, kind: Kind, codecCids: set<Cid>)
    ensures
      var s' := StepAdd(s, c, kind, codecCids);
      && s'.Requests(c) == s.Requests(c) + [s.nextReq]
      && s'.Consumed(c) == s.Consumed(c)
      && c in s'.pending
      && exists info: TrackInfo :: info.req == s.nextReq
           && s'.pending[c].infos == (if c in s.pending then s.pending[c].infos else []) + [info]
  {
    var sid := if c in s.pending && s.pending[c].infos != [] then s.pending[c].infos[0].sid else s.nextSid;
    var info := TrackInfo(s.nextReq, sid, kind, codecCids);
    assert [] + [info] == [info];
  }

  /** And to every other one: nothing. */
  lemma AddedBeside(s: State, d: Cid, kind: Kind, codecCids: set<Cid>, c: Cid)
    requires c != d
    ensures
      var s' := StepAdd(s, d, kind, codecCids);
      && s'.Requests(c) == s.Requests(c) && s'.Announced(c) == s.Announced(c) && s'.Consumed(c) == s.Consumed(c)
      && (c in s'.pending <==> c in s.pending)
      && (c in s.pending ==> s'.pending[c] == s.pending[c])
  {
  }

  lemma AddKeepsQueue(s: State, d: Cid, kind: Kind, codecCids: set<Cid>, c: Cid)
    requires CidInv(s, c)
    ensures QueueInv(StepAdd(s, d, kind, codecCids), c)
  {
    var s' := StepAdd(s, d, kind, codecCids);
    if c != d {
      AddedBeside(s, d, kind, codecCids, c);
    } else {
      AddedTo(s, c, kind, codecCids);
      var infos := if c in s.pending then s.pending[c].infos else [];
      var info: TrackInfo :| info.req == s.nextReq && s'.pending[c].infos == infos + [info];
      ReqsExtend(infos, s.Requests(c), s.Consumed(c), info);
    }
  }

  lemma AddKeepsDue(s: State, d: Cid, kind: Kind, codecCids: set<Cid>, c: Cid)
    requires CidInv(s, c)
    ensures DueInv(StepAdd(s, d, kind, codecCids), c)
  {
    assert StepAdd(s, d, kind, codecCids).live == s.live;
    if c != d {
      AddedBeside(s, d, kind, codecCids, c);
    } else {
      AddedTo(s, c, kind, codecCids);
      var reqs := s.Requests(c);
      assert (reqs + [s.nextReq])[..Due(s, c)] == reqs[..Due(s, c)];
      if c !in s.pending {
        assert reqs[..|reqs|] == reqs;
      }
    }
  }

  lemma IncreasingExtends(reqs: seq<nat>, bound: nat)
    requires Increasing(reqs, bound)
    ensures Increasing(reqs, bound + 1) && Increasing(reqs + [bound], bound + 1)
  {
  }

  lemma AddKeepsIncreasing(s: State, d: Cid, kind: Kind, codecCids: set<Cid>, c: Cid)
    requires Increasing(s.Requests(c), s.nextReq)
    ensures Increasing(StepAdd(s, d, kind, codecCids).Requests(c), s.nextReq + 1)
    ensures StepAdd(s, d, kind, codecCids).nextReq == s.nextReq + 1
  {
    IncreasingExtends(s.Requests(c), s.nextReq);
    if c == d {
      AddedTo(s, c, kind, codecCids);
    } else {
      AddedBeside(s, d, kind, codecCids, c);
    }
  }

  lemma AddKeepsCid(s: State, d: Cid, kind: Kind, codecCids: set<Cid>, c: Cid)
    requires CidInv(s, c)
    ensures CidInv(StepAdd(s, d, kind, codecCids), c)
  {
    AddKeepsQueue(s, d, kind, codecCids, c);
    AddKeepsDue(s, d, kind, codecCids, c);
    AddKeepsIncreasing(s, d, kind, codecCids, c);
  }

  lemma PublishKeepsCid(s: State, d: Cid, sdpCid: Cid, c: Cid)
    requires CidInv(s, c) && CidInv(s, d)
    requires d in s.pending && !s.pending[d].queued
    ensures CidInv(Publish(s, d, sdpCid), c)
  {
    var t := Publish(s, d, sdpCid);
    if c == d {
      assert Due(t, c) == Due(s, c);
      assert s.Requests(c)[s.Consumed(c)..][1..] == s.Requests(c)[t.Consumed(c)..];
    } else {
      assert forall u :: u in t.live && u.signalCid == c ==> u in s.live;
      assert Due(t, c) == Due(s, c);
    }
  }

  lemma CloseKeepsCid(s: State, track: LiveTrack, c: Cid)
    requires LiveInv(s) && CidInv(s, c)
    ensures CidInv(StepClose(s, track), c)
  {
    var t := StepClose(s, track);
    if track in s.live && c == track.signalCid && c in s.pending {
      assert s.LiveBySignal(c);
      var k := s.Consumed(c);
      assert s.pending[c].infos[0].req == s.Requests(c)[k..][0] == s.Requests(c)[k];
      assert s.Requests(c)[..k + 1] == s.Requests(c)[..k] + [s.Requests(c)[k]];
      assert forall u :: u in t.live ==> u in s.live && u != track;
    } else {
      assert t.Requests(c) == s.Requests(c) && t.Announced(c) == s.Announced(c) && t.Consumed(c) == s.Consumed(c);
      assert c in t.pending <==> c in s.pending;
      assert forall u :: u in t.live ==> u in s.live;
    }
  }

  lemma StepKeepsCid(s: State, e: Event, c: Cid)
    requires Inv(s)
    ensures CidInv(Step(s, e), c)
  {
    assert CidInv(s, c);
    match e
    case AddTrack(d, kind, codecCids) => AddKeepsCid(s, d, kind, codecCids, c);
    case MediaReceived(sdpCid, kind, choice) =>
      assert CidInv(s, choice);
      if choice in s.pending && !s.pending[choice].queued {
        PublishKeepsCid(s, choice, sdpCid, c);
      }
    case TrackClosed(track) => CloseKeepsCid(s, track, c);
  }

  lemma StepKeepsLive(s: State, e: Event)
    requires Inv(s)
    ensures LiveInv(Step(s, e))
  {
    if e.MediaReceived? {
      assert CidInv(s, e.choice);
    }
  }

  lemma StepKeepsInv(s: State, e: Event)
    requires Inv(s)
    ensures Inv(Step(s, e))
  {
    forall c: Cid
      ensures CidInv(Step(s, e), c)
    {
      StepKeepsCid(s, e, c);
    }
    StepKeepsLive(s, e);
  }

  lemma {:induction false} RunKeepsInv(s: State, events: seq<Event>)
    requires Inv(s)
    ensures Inv(Run(s, events))
    decreases |events|
  {
    if events != [] {
      StepKeepsInv(s, events[0]);
      RunKeepsInv(Step(s, events[0]), events[1..]);
    }
  }

  lemma ReachableInv(events: seq<Event>)
    ensures Inv(Run(INIT, events))
  {
    assert forall c :: CidInv(INIT, c);
    RunKeepsInv(INIT, events);
  }

  // ---------------------------------------------------------------------------------- announcements

  /**
   Every request under a client id is announced at most once and in request order; the ones not yet
   announced are exactly the ones still waiting in its queue, so an empty queue means all were announced.
   */
  lemma AnnouncedInOrder(events: seq<Event>, c: Cid)
    ensures
      var s := Run(INIT, events);
      && s.Announced(c) <= s.Requests(c)
      && (forall i, j :: 0 <= i < j < |s.Requests(c)| ==> s.Requests(c)[i] < s.Requests(c)[j])
      && (c !in s.pending ==> s.Announced(c) == s.Requests(c))
      && (c in s.pending ==>
            s.pending[c].infos != []
            && Reqs(if s.pending[c].queued then s.pending[c].infos else s.pending[c].infos[1..],
                    s.Requests(c)[|s.Announced(c)|..]))
  {
    ReachableInv(events);
    var s := Run(INIT, events);
    assert CidInv(s, c);
    assert s.Requests(c)[..|s.Requests(c)|] == s.Requests(c);
    if c in s.pending && !s.pending[c].queued {
      assert s.Requests(c)[s.Consumed(c)..][1..] == s.Requests(c)[s.Consumed(c) + 1..];
    }
  }

  /** A request is announced when it comes, if its client id is free. */
  ghost predicate AnnouncesAtOnce(s: State, e: Event, c: Cid) {
    e.AddTrack? && e.cid == c && c !in s.pending && !s.LiveBySignal(c) && !s.LiveBySdp(c)
  }

  /** Or when the live track under its client id closes and it is the next one waiting. */
  ghost predicate AnnouncesOnClose(s: State, e: Event, c: Cid) {
    e.TrackClosed? && e.track in s.live && e.track.signalCid == c && c in s.pending && s.pending[c].infos != []
  }

  lemma AnnouncedExactlyWhen(s: State, e: Event, c: Cid)
    requires Inv(s)
    ensures Step(s, e).Announced(c) ==
            if AnnouncesAtOnce(s, e, c) then s.Announced(c) + [s.nextReq]
            else if AnnouncesOnClose(s, e, c) then s.Announced(c) + [s.pending[c].infos[0].req]
            else s.Announced(c)
    ensures AnnouncesOnClose(s, e, c) ==> s.pending[c].queued && !Step(s, e).LiveBySignal(c)
  {
    assert CidInv(s, c);
    if AnnouncesOnClose(s, e, c) {
      assert s.LiveBySignal(c);
    }
  }

  // ---------------------------------------------------------------------------------- tracks

  /** A live track was made from a request that had been announced. */
  ghost predicate TracksAnnounced(s: State) {
    forall t :: t in s.live ==>
      && s.Consumed(t.signalCid) <= |s.Requests(t.signalCid)|
      && t.req in s.Requests(t.signalCid)[..s.Consumed(t.signalCid)]
  }

  lemma HistoryGrows(s: State, e: Event, c: Cid)
    ensures s.Requests(c) <= Step(s, e).Requests(c)
    ensures s.Consumed(c) <= Step(s, e).Consumed(c)
  {
  }

  /** Where a new live track comes from. */
  lemma NewTrack(s: State, e: Event, t: LiveTrack)
    requires t in Step(s, e).live && t !in s.live
    ensures e.MediaReceived? && e.choice == t.signalCid
    ensures t.signalCid in s.pending && s.pending[t.signalCid].infos != []
    ensures t.req == s.pending[t.signalCid].infos[0].req
    ensures Step(s, e).Consumed(t.signalCid) == s.Consumed(t.signalCid) + 1
    ensures Step(s, e).Requests(t.signalCid) == s.Requests(t.signalCid)
  {
  }

  lemma StepKeepsTracks(s: State, e: Event)
    requires Inv(s) && TracksAnnounced(s)
    ensures TracksAnnounced(Step(s, e))
  {
    var s' := Step(s, e);
    forall t | t in s'.live
      ensures s'.Consumed(t.signalCid) <= |s'.Requests(t.signalCid)|
      ensures t.req in s'.Requests(t.signalCid)[..s'.Consumed(t.signalCid)]
    {
      var c := t.signalCid;
      assert QueueInv(s, c) by { assert CidInv(s, c); }
      assert QueueInv(s', c) by { StepKeepsCid(s, e, c); }
      if t in s.live {
        HistoryGrows(s, e, c);
        assert s.Requests(c)[..s.Consumed(c)] <= s'.Requests(c)[..s'.Consumed(c)];
      } else {
        NewTrack(s, e, t);
        assert s.pending[c].infos[0].req == s.Requests(c)[s.Consumed(c)..][0];
        assert s'.Requests(c)[..s'.Consumed(c)][s.Consumed(c)] == t.req;
      }
    }
  }

  lemma {:induction false} RunKeepsTracks(s: State, events: seq<Event>)
    requires Inv(s) && TracksAnnounced(s)
    ensures TracksAnnounced(Run(s, events))
    decreases |events|
  {
    if events != [] {
      StepKeepsTracks(s, events[0]);
      StepKeepsInv(s, events[0]);
      RunKeepsTracks(Step(s, events[0]), events[1..]);
    }
  }

  /** No track goes live before its request was announced, and one client id has at most one live track. */
  lemma LiveOnlyOnceAnnounced(events: seq<Event>, t: LiveTrack, u: LiveTrack)
    requires t in Run(INIT, events).live && u in Run(INIT, events).live
    ensures t.req in Run(INIT, events).Announced(t.signalCid)
    ensures t.signalCid == u.signalCid || t.sdpCid == u.sdpCid ==> t == u
  {
    ReachableInv(events);
    RunKeepsTracks(INIT, events);
    var s := Run(INIT, events);
    assert CidInv(s, t.signalCid);
    assert s.Requests(t.signalCid)[..s.Consumed(t.signalCid)] <= s.Announced(t.signalCid);
  }

  // ---------------------------------------------------------------------------------- stranding

  ghost predicate Stranded(s: State, c: Cid) {
    c in s.pending && s.pending[c].queued && !s.LiveBySignal(c)
  }

  /** Every queue told to wait has a live track to wait for. */
  ghost predicate Served(s: State) { forall c :: !Stranded(s, c) }

  /** A request queued behind a track that only its media ids name: that track's close looks elsewhere. */
  ghost predicate Strands(s: State, e: Event) {
    e.AddTrack? && e.cid !in s.pending && !s.LiveBySignal(e.cid) && s.LiveBySdp(e.cid)
  }

  ghost predicate NeverStrands(s: State, events: seq<Event>)
    decreases |events|
  {
    events != [] ==> !Strands(s, events[0]) && NeverStrands(Step(s, events[0]), events[1..])
  }

  lemma OthersStayServed(s: State, e: Event, c: Cid)
    requires Inv(s) && !Stranded(s, c) && !(Strands(s, e) && e.cid == c)
    ensures !Stranded(Step(s, e), c)
  {
    assert CidInv(s, c);
    var s' := Step(s, e);
    if s.LiveBySignal(c) {
      var t :| t in s.live && t.signalCid == c;
      if !(e.TrackClosed? && e.track == t) {
        assert t in s'.live;
      } else if c in s.pending {
        assert !s'.pending[c].queued;
      }
    } else if e.MediaReceived? && s' != s && e.choice == c {
      assert LiveTrack(c, e.sdpCid, s.pending[c].infos[0].codecCids, s.pending[c].infos[0].req) in s'.live;
    }
  }

  /** A queue with no live track to wait for waits for ever: no later event announces anything under its id. */
  lemma StrandedStays(s: State, e: Event, c: Cid)
    requires Inv(s) && Stranded(s, c)
    ensures Stranded(Step(s, e), c) && Step(s, e).Announced(c) == s.Announced(c)
  {
    AnnouncedExactlyWhen(s, e, c);
    assert forall t :: t in Step(s, e).live && t !in s.live ==> t.signalCid != c;
  }

  lemma {:induction false} StrandedForever(s: State, events: seq<Event>, c: Cid)
    requires Inv(s) && Stranded(s, c)
    ensures Stranded(Run(s, events), c) && Run(s, events).Announced(c) == s.Announced(c)
    decreases |events|
  {
    if events != [] {
      StrandedStays(s, events[0], c);
      StepKeepsInv(s, events[0]);
      StrandedForever(Step(s, events[0]), events[1..], c);
    }
  }

  lemma {:induction false} ServedFrom(s: State, events: seq<Event>)
    requires Inv(s) && Served(s)
    ensures Served(Run(s, events)) <==> NeverStrands(s, events)
    decreases |events|
  {
    if events == [] {
    } else {
      var e := events[0];
      StepKeepsInv(s, e);
      if Strands(s, e) {
        assert Stranded(Step(s, e), e.cid);
        StrandedForever(Step(s, e), events[1..], e.cid);
      } else {
        forall c: Cid
          ensures !Stranded(Step(s, e), c)
        {
          OthersStayServed(s, e, c);
        }
        ServedFrom(Step(s, e), events[1..]);
      }
    }
  }

  /**
   After any run, every waiting request still has a live track whose close will announce it, exactly
   when no request of the run was queued behind a track live under another client id.
   */
  lemma ServedExactly(events: seq<Event>)
    ensures Served(Run(INIT, events)) <==> NeverStrands(INIT, events)
  {
    assert forall c :: CidInv(INIT, c);
    ServedFrom(INIT, events);
  }

  /**
   The promise that a queued request is announced in the end fails: id 2 is the media id of a track asked
   for as 1.
   */
  lemma StrandingHappens(later: seq<Event>)
    ensures
      var s := Run(INIT, [AddTrack(1, Audio, {}), MediaReceived(2, Audio, 1), AddTrack(2, Audio, {})]);
      && s.Requests(2) == [1]
      && Run(s, later).Announced(2) == []
  {
    var e0, e1, e2 := AddTrack(1, Audio, {}), MediaReceived(2, Audio, 1), AddTrack(2, Audio, {});
    RunThree(INIT, e0, e1, e2);
    ReachableInv([e0, e1, e2]);
    StrandedAfterThree();
    StrandedForever(Step(Step(Step(INIT, e0), e1), e2), later, 2);
  }

  lemma RunThree(s: State, e0: Event, e1: Event, e2: Event)
    ensures Run(s, [e0, e1, e2]) == Step(Step(Step(s, e0), e1), e2)
  {
    var s2 := Step(Step(s, e0), e1);
    assert [e0, e1, e2][1..] == [e1, e2] && [e1, e2][1..] == [e2] && [e2][1..] == [];
    assert Run(s2, [e2]) == Step(s2, e2);
    assert Run(Step(s, e0), [e1, e2]) == Run(s2, [e2]);
  }

  lemma StrandedAfterThree()
    ensures
      var s := Step(Step(Step(INIT, AddTrack(1, Audio, {})), MediaReceived(2, Audio, 1)), AddTrack(2, Audio, {}));
      Stranded(s, 2) && s.Requests(2) == [1] && s.Announced(2) == []
  {
    var s1 := Step(INIT, AddTrack(1, Audio, {}));
    var s2 := Step(s1, MediaReceived(2, Audio, 1));
    assert LiveTrack(1, 2, {}, 0) in s2.live;
    assert s2.LiveBySdp(2);
  }
}
