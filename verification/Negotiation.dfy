/**
 Offer/answer negotiation, ICE restarts and local candidates of one peer connection transport.
 Events are handled one at a time; what the peer connection and the signalling channel answer is
 part of each event. The rule behind the states is section 4 of RFC 3264: no new offer while one
 is outstanding.
 */
module Negotiation {
  import opened Common

  datatype NegotiationState = Idle | AwaitingRemote | Retry

  datatype Gathering = NotStarted | Gathering | Complete

  datatype Candidate = Candidate(address: nat, tcp: bool)

  /** What the transport observes of its peer connection; `stable` means no local offer is outstanding. */
  datatype PeerConnection = PeerConnection(
    closed: bool, gathering: Gathering, stable: bool, hasCurrentRemote: bool, hasLocal: bool)

  /** How a call into the peer connection ends. */
  datatype Result = Ok | ConnectionClosed | Failure

  /** How applying an answer ends; an unsupported codec and a bad cached candidate come after it applied. */
  datatype AnswerResult = Applied | UnsupportedCodec | CandidateRejected | Refused | AnswerOnClosed

  /** A fresh offer, with what state it was created from. */
  datatype Offer = Offer(iceRestart: bool, from: NegotiationState, stable: bool)

  /** Answers of the outside world to one event; `takes` is how many candidates can be sent on. */
  datatype World = World(create: Result, setLocal: Result, offerSent: bool, recovered: bool, takes: nat)

  // ---------------------------------------------------------------------------------- candidates

  /** What handling an event does to the candidates held back. */
  datatype CandidateOp = Keep | ClearOnly | SentOnly | ClearAndSent

  /** What became of a candidate: its call to the handler succeeded or failed, or it was not called for any more. */
  datatype Fate = Sent | CallFailed | Skipped

  /** A call to the handler that passes a candidate on. */
  datatype Call = Call(candidate: Option<Candidate>, ok: bool)

  /** The fates of candidates passed on one by one until a call fails. */
  function FlushFates(n: nat, takes: nat): (fates: seq<Fate>)
    ensures |fates| == n
  {
    seq(n, i => if i < takes then Sent else if i == takes then CallFailed else Skipped)
  }

  function CallsOf(cs: seq<Option<Candidate>>, fates: seq<Fate>): seq<Call>
    requires |cs| == |fates|
  {
    if cs == [] then []
    else (if fates[0].Skipped? then [] else [Call(cs[0], fates[0].Sent?)]) + CallsOf(cs[1..], fates[1..])
  }

  function SentOnes(cs: seq<Option<Candidate>>, fates: seq<Fate>): seq<Option<Candidate>>
    requires |cs| == |fates|
  {
    if cs == [] then [] else (if fates[0].Sent? then [cs[0]] else []) + SentOnes(cs[1..], fates[1..])
  }

  /**
   Local candidates; None is the end-of-candidates mark. `handled` are the unfiltered candidates handled
   since the last clear, `fates` what became of those no longer held back, `calls` all calls ever made.
   */
  datatype Candidates = Candidates(
    caching: bool, cached: seq<Option<Candidate>>,
    handled: seq<Option<Candidate>>, fates: seq<Fate>, calls: seq<Call>)
  {
    function Settle(cs: seq<Option<Candidate>>, fs: seq<Fate>): Candidates
      requires |cs| == |fs|
    {
      this.(fates := fates + fs, calls := calls + CallsOf(cs, fs))
    }

    /** A new generation starts: hold candidates back until the description has been sent. */
    function Clear(): Candidates { Candidates(true, [], [], [], calls) }

    /** The description was sent: pass on what was held back, up to the first failure. */
    function DescriptionSent(takes: nat): Candidates {
      if !caching then this
      else this.(caching := false, cached := []).Settle(cached, FlushFates(|cached|, takes))
    }

    /** One local candidate; with TCP preferred all others are filtered out. */
    function Handle(c: Option<Candidate>, preferTCP: bool, sent: bool): Candidates {
      if preferTCP && c.Some? && !c.value.tcp then this
      else
        var h := this.(handled := handled + [c]);
        if caching then h.(cached := cached + [c])
        else h.Settle([c], [if sent then Sent else CallFailed])
    }

    /** The candidates passed on since the last clear. */
    function Emitted(): seq<Option<Candidate>>
      requires |fates| <= |handled|
    {
      SentOnes(handled[..|fates|], fates)
    }

    function Apply(op: CandidateOp, takes: nat): Candidates {
      match op
      case Keep => this
      case ClearOnly => Clear()
      case SentOnly => DescriptionSent(takes)
      case ClearAndSent => Clear().DescriptionSent(takes)
    }
  }

  // ---------------------------------------------------------------------------------- steps

  /**
   The negotiation fields, the peer connection, and history: the fresh offers, how many negotiation
   requests were made and how many of them before the last fresh offer, whether an ICE restart is owed,
   and whether a failure has made the transport lose a request or the restart it owes.
   */
  datatype Nego = Nego(
    state: NegotiationState, restartAfterGathering: bool, restartAtNextOffer: bool, previousAnswer: bool,
    pc: PeerConnection, offers: seq<Offer>, requests: nat, served: nat, restartOwed: bool,
    requestLost: bool, restartLost: bool)
  {
    /** No fresh offer came about; what it was to carry has been taken out of the fields already. */
    function OfferFailed(): Nego {
      this.(requestLost := served < requests, restartLost := restartOwed && !restartAfterGathering)
    }

    /** A fresh offer was created and set as local description. */
    function Offered(restart: bool): Nego {
      this.(state := AwaitingRemote, pc := pc.(stable := false, hasLocal := true),
            offers := offers + [Offer(restart, state, pc.stable)], served := requests,
            restartOwed := restartOwed && !restart, requestLost := false, restartLost := restartLost && !restart)
    }

    function RecoveryFailed(): Nego {
      this.(restartLost := restartOwed && !restartAfterGathering && !restartAtNextOffer)
    }
  }

  /** Creating the offer, or setting it as local description, fails on an open connection. */
  predicate OfferFails(w: World) { w.create.Failure? || (w.create.Ok? && w.setLocal.Failure?) }

  /** A fresh offer is created, set as local description and sent. */
  function SendFreshOffer(n: Nego, restart: bool, w: World): (Nego, CandidateOp) {
    var op := if restart then ClearOnly else Keep;
    if w.create.Failure? then (n.OfferFailed(), op)
    else if w.create.ConnectionClosed? || w.setLocal.ConnectionClosed? then (n.(pc := n.pc.(closed := true)), op)
    else if w.setLocal.Failure? then (n.OfferFailed(), op)
    else (n.Offered(restart), if !w.offerSent then op else if restart then ClearAndSent else SentOnly)
  }

  function CreateAndSendOffer(n: Nego, iceRestart: bool, w: World): (Nego, CandidateOp) {
    if n.pc.closed then (n, Keep)
    else if n.state.AwaitingRemote? then (n.(state := Retry), Keep)
    else if n.state.Retry? then (n, Keep)
    else
      SendFreshOffer(n.(previousAnswer := false, restartAtNextOffer := false),
                     iceRestart || n.previousAnswer || n.restartAtNextOffer, w)
  }

  function Negotiate(n: Nego, w: World): (Nego, CandidateOp) {
    CreateAndSendOffer(n.(requests := n.requests + 1), false, w)
  }

  /** The last answer can be applied again, as any answer only while an offer is outstanding. */
  predicate Recovers(n: Nego, w: World) { w.recovered && !n.pc.stable }

  function RestartICE(n: Nego, w: World): (Nego, CandidateOp) {
    if n.pc.closed || n.pc.gathering.NotStarted? then (n, Keep)
    else if n.pc.gathering.Gathering? then (n.(restartAfterGathering := true), Keep)
    else if n.state.Idle? then CreateAndSendOffer(n, true, w)
    else if !n.pc.hasCurrentRemote then
      if !n.pc.hasLocal then (n, Keep)
      else (n.(state := Retry, restartAtNextOffer := true), Keep)
    else if !Recovers(n, w) then (n.RecoveryFailed(), Keep)
    else CreateAndSendOffer(n.(state := Idle, pc := n.pc.(stable := true)), true, w)
  }

  /** An ICE restart asked for from outside; on a started, open connection it is owed from now on. */
  function RequestRestart(n: Nego, w: World): (Nego, CandidateOp) {
    RestartICE(if n.pc.closed || n.pc.gathering.NotStarted? then n
               else n.(restartOwed := true, restartLost := false), w)
  }

  function GatheringCompleted(n: Nego, w: World): (Nego, CandidateOp) {
    if n.restartAfterGathering then RestartICE(n.(restartAfterGathering := false), w) else (n, Keep)
  }

  /** The peer connection takes an answer only while an offer is outstanding. */
  function ReceiveAnswer(n: Nego, result: AnswerResult, w: World): (Nego, CandidateOp) {
    if result.Refused? || (n.pc.stable && !result.AnswerOnClosed?) then (n, Keep)
    else
      var n1 := n.(pc := if result.AnswerOnClosed? then n.pc.(closed := true)
                         else n.pc.(stable := true, hasCurrentRemote := true));
      if result.CandidateRejected? then (n1, Keep)
      else if n1.state.Retry? then CreateAndSendOffer(n1.(state := Idle), false, w)
      else (n1.(state := Idle), Keep)
  }

  /** `GatheringMoves` and `Closes` are the peer connection changing by itself; gathering never un-starts. */
  datatype Event =
    | NegotiateRequested(world: World)
    | RestartRequested(world: World)
    | GatheringDone(world: World)
    | AnswerReceived(result: AnswerResult, world: World)
    | PreviousAnswerSet
    | GatheringMoves(gathering: Gathering)
    | Closes
    | LocalCandidate(candidate: Option<Candidate>, preferTCP: bool, sent: bool)

  function StepNego(n: Nego, e: Event): (Nego, CandidateOp) {
    match e
    case NegotiateRequested(w) => Negotiate(n, w)
    case RestartRequested(w) => RequestRestart(n, w)
    case GatheringDone(w) => GatheringCompleted(n, w)
    case AnswerReceived(result, w) => ReceiveAnswer(n, result, w)
    case PreviousAnswerSet => (if n.pc.hasCurrentRemote then n else n.(previousAnswer := true), Keep)
    case GatheringMoves(g) => (if g.NotStarted? then n else n.(pc := n.pc.(gathering := g)), Keep)
    case Closes => (n.(pc := n.pc.(closed := true)), Keep)
    case LocalCandidate(_, _, _) => (n, Keep)
  }

  function StepCandidates(c: Candidates, e: Event, op: CandidateOp): Candidates {
    match e
    case LocalCandidate(candidate, preferTCP, sent) => c.Handle(candidate, preferTCP, sent)
    case PreviousAnswerSet | GatheringMoves(_) | Closes => c
    case _ => c.Apply(op, e.world.takes)
  }

  datatype State = State(nego: Nego, candidates: Candidates)

  const INIT := State(Nego(Idle, false, false, false, PeerConnection(false, NotStarted, true, false, false),
                           [], 0, 0, false, false, false),
                      Candidates(false, [], [], [], []))

  function Step(s: State, e: Event): State {
    var (n, op) := StepNego(s.nego, e);
    State(n, StepCandidates(s.candidates, e, op))
  }

  function Run(s: State, events: seq<Event>): State
    decreases |events|
  {
    if events == [] then s else Run(Step(s, events[0]), events[1..])
  }

  // ---------------------------------------------------------------------------------- in place

  lemma {:induction false} NoCallsSkipped(cs: seq<Option<Candidate>>, fates: seq<Fate>)
    requires |cs| == |fates| && forall i :: 0 <= i < |fates| ==> fates[i].Skipped?
    ensures CallsOf(cs, fates) == []
  {
    if cs != [] {
      NoCallsSkipped(cs[1..], fates[1..]);
    }
  }

  lemma OneCall(c: Option<Candidate>, sent: bool)
    ensures CallsOf([c], [if sent then Sent else CallFailed]) == [Call(c, sent)]
  {
    var fate := if sent then Sent else CallFailed;
    assert [c][1..] == [] && [fate][1..] == [];
  }

  /** The transport as it is kept in memory; the ghost fields record its history. */
  class PCTransport {
    var negotiationState: NegotiationState
    var restartAfterGathering: bool
    var restartAtNextOffer: bool
    var previousAnswer: bool
    var cacheLocalCandidates: bool
    var cachedLocalCandidates: seq<Option<Candidate>>
    var pc: PeerConnection
    ghost var offers: seq<Offer>
    ghost var requests: nat
    ghost var served: nat
    ghost var restartOwed: bool
    ghost var requestLost: bool
    ghost var restartLost: bool
    ghost var handled: seq<Option<Candidate>>
    ghost var fates: seq<Fate>
    ghost var calls: seq<Call>

    constructor ()
      ensures NegoFields() == INIT.nego && CandidateFields() == INIT.candidates
    {
      negotiationState, restartAfterGathering, restartAtNextOffer, previousAnswer := Idle, false, false, false;
      cacheLocalCandidates, cachedLocalCandidates := false, [];
      pc := PeerConnection(false, NotStarted, true, false, false);
      offers, requests, served, restartOwed, requestLost, restartLost := [], 0, 0, false, false, false;
      handled, fates, calls := [], [], [];
    }

    ghost function NegoFields(): Nego
      reads this
    {
      Nego(negotiationState, restartAfterGathering, restartAtNextOffer, previousAnswer, pc,
           offers, requests, served, restartOwed, requestLost, restartLost)
    }

    ghost function CandidateFields(): Candidates
      reads this
    {
      Candidates(cacheLocalCandidates, cachedLocalCandidates, handled, fates, calls)
    }

    method ClearLocalDescriptionSent()
      modifies this`cacheLocalCandidates, this`cachedLocalCandidates, this`handled, this`fates
      ensures CandidateFields() == old(CandidateFields()).Clear()
    {
      cacheLocalCandidates, cachedLocalCandidates := true, [];
      handled, fates := [], [];
    }

    /** Passes the candidates held back on one by one; `takes` of the calls succeed before one fails. */
    method LocalDescriptionSent(takes: nat) returns (ok: bool)
      modifies this`cacheLocalCandidates, this`cachedLocalCandidates, this`fates, this`calls
      ensures CandidateFields() == old(CandidateFields()).DescriptionSent(takes)
      ensures ok <==> !old(cacheLocalCandidates) || |old(cachedLocalCandidates)| <= takes
    {
      if !cacheLocalCandidates {
        return true;
      }
      cacheLocalCandidates := false;
      var held := cachedLocalCandidates;
      cachedLocalCandidates := [];
      ghost var all := FlushFates(|held|, takes);
      fates := fates + all;
      for i := 0 to |held|
        invariant i <= takes && !cacheLocalCandidates && cachedLocalCandidates == [] && fates == old(fates) + all
        invariant calls + CallsOf(held[i..], all[i..]) == old(calls) + CallsOf(held, all)
      {
        assert held[i..][1..] == held[i + 1..] && all[i..][1..] == all[i + 1..];
        calls := calls + [Call(held[i], i < takes)];
        if i >= takes {
          NoCallsSkipped(held[i + 1..], all[i + 1..]);
          return false;
        }
      }
      return true;
    }

    method HandleLocalICECandidate(c: Option<Candidate>, preferTCP: bool, sent: bool)
      modifies this`cachedLocalCandidates, this`handled, this`fates, this`calls
      ensures CandidateFields() == old(CandidateFields()).Handle(c, preferTCP, sent)
    {
      if preferTCP && c.Some? && !c.value.tcp {
        return;
      }
      handled := handled + [c];
      if cacheLocalCandidates {
        cachedLocalCandidates := cachedLocalCandidates + [c];
        return;
      }
      OneCall(c, sent);
      fates, calls := fates + [if sent then Sent else CallFailed], calls + [Call(c, sent)];
    }

    method CreateOffer(iceRestart: bool, w: World)
      modifies this
      ensures NegoFields() == CreateAndSendOffer(old(NegoFields()), iceRestart, w).0
      ensures CandidateFields()
           == old(CandidateFields()).Apply(CreateAndSendOffer(old(NegoFields()), iceRestart, w).1, w.takes)
    {
      if pc.closed {
        return;
      }
      if negotiationState.AwaitingRemote? {
        negotiationState := Retry;
        return;
      } else if negotiationState.Retry? {
        return;
      }
      var restart := iceRestart;
      if previousAnswer {
        previousAnswer, restart := false, true;
      }
      if restartAtNextOffer {
        restartAtNextOffer, restart := false, true;
      }
      SendOffer(restart, w);
    }

    method SendOffer(restart: bool, w: World)
      modifies this
      ensures NegoFields() == SendFreshOffer(old(NegoFields()), restart, w).0
      ensures CandidateFields()
           == old(CandidateFields()).Apply(SendFreshOffer(old(NegoFields()), restart, w).1, w.takes)
    {
      if restart {
        ClearLocalDescriptionSent();
      }
      var sent := MakeOffer(restart, w);
      if sent {
        var ok := LocalDescriptionSent(w.takes);
      }
    }

    ghost method RecordOfferFailed()
      modifies this`requestLost, this`restartLost
      ensures NegoFields() == old(NegoFields()).OfferFailed()
    {
      requestLost, restartLost := served < requests, restartOwed && !restartAfterGathering;
    }

    /** The offer is set as local description: from now on it is outstanding. */
    method OfferMade(restart: bool)
      modifies this`pc, this`negotiationState
      modifies this`offers, this`served, this`restartOwed, this`requestLost, this`restartLost
      ensures NegoFields() == old(NegoFields()).Offered(restart)
    {
      offers := offers + [Offer(restart, negotiationState, pc.stable)];
      served, restartOwed := requests, restartOwed && !restart;
      requestLost, restartLost := false, restartLost && !restart;
      pc := pc.(stable := false, hasLocal := true);
      negotiationState := AwaitingRemote;
    }

    /** The part of createAndSendOffer that calls the peer connection and the signalling channel. */
    method MakeOffer(restart: bool, w: World) returns (sent: bool)
      modifies this`pc, this`negotiationState
      modifies this`offers, this`served, this`restartOwed, this`requestLost, this`restartLost
      ensures NegoFields() == SendFreshOffer(old(NegoFields()), restart, w).0
      ensures sent <==> w.create.Ok? && w.setLocal.Ok? && w.offerSent
    {
      var result := if w.create.Ok? then w.setLocal else w.create;
      if result.ConnectionClosed? {
        pc := pc.(closed := true);
        return false;
      } else if result.Failure? {
        RecordOfferFailed();
        return false;
      }
      OfferMade(restart);
      sent := w.offerSent;
    }

    method DoICERestart(w: World)
      modifies this
      ensures NegoFields() == RestartICE(old(NegoFields()), w).0
      ensures CandidateFields() == old(CandidateFields()).Apply(RestartICE(old(NegoFields()), w).1, w.takes)
    {
      if pc.closed || pc.gathering.NotStarted? {
        return;
      }
      if pc.gathering.Gathering? {
        restartAfterGathering := true;
        return;
      }
      if negotiationState.Idle? {
        CreateOffer(true, w);
        return;
      }
      if !pc.hasCurrentRemote {
        if !pc.hasLocal {
          return;
        }
        negotiationState := Retry;
        restartAtNextOffer := true;
        return;
      }
      if !w.recovered || pc.stable {
        restartLost := restartOwed && !restartAfterGathering && !restartAtNextOffer;
        return;
      }
      pc := pc.(stable := true);
      negotiationState := Idle;
      CreateOffer(true, w);
    }

    method HandleICEGatheringComplete(w: World)
      modifies this
      ensures NegoFields() == GatheringCompleted(old(NegoFields()), w).0
      ensures CandidateFields() == old(CandidateFields()).Apply(GatheringCompleted(old(NegoFields()), w).1, w.takes)
    {
      if !restartAfterGathering {
        return;
      }
      restartAfterGathering := false;
      DoICERestart(w);
    }

    method HandleRemoteAnswerReceived(result: AnswerResult, w: World)
      modifies this
      ensures NegoFields() == ReceiveAnswer(old(NegoFields()), result, w).0
      ensures CandidateFields() == old(CandidateFields()).Apply(ReceiveAnswer(old(NegoFields()), result, w).1, w.takes)
    {
      if result.AnswerOnClosed? {
        pc := pc.(closed := true);
      } else if result.Refused? || pc.stable {
        return;
      } else {
        pc := pc.(stable := true, hasCurrentRemote := true);
      }
      if result.CandidateRejected? {
        return;
      }
      if negotiationState.Retry? {
        negotiationState := Idle;
        CreateOffer(false, w);
        return;
      }
      negotiationState := Idle;
    }
  }

  // ---------------------------------------------------------------------------------- invariant

  ghost predicate AllFromIdle(offers: seq<Offer>) {
    forall i :: 0 <= i < |offers| ==> offers[i].from.Idle? && offers[i].stable
  }

  /**
   Holds whatever fails: an idle transport has no offer outstanding, any other has made one, and a
   deferred restart waits in Retry.
   */
  ghost predicate OfferInv(n: Nego) {
    && (!n.pc.closed && n.state.Idle? ==> n.pc.stable)
    && (!n.pc.closed && !n.state.Idle? ==> n.pc.hasLocal)
    && (!n.pc.closed && n.restartAtNextOffer ==> n.state.Retry?)
    && AllFromIdle(n.offers)
  }

  /** Requests are outstanding, and nothing is on record that would lead to an offer for them. */
  predicate RequestsForgotten(n: Nego) { !n.pc.closed && n.served < n.requests && !n.state.Retry? }

  /** A restart is owed, and nothing is on record that would lead to it. */
  predicate RestartForgotten(n: Nego) {
    !n.pc.closed && n.restartOwed && !n.restartAfterGathering && !n.restartAtNextOffer
  }

  /** What has been forgotten is exactly what a failure made the transport lose. */
  ghost predicate LossInv(n: Nego) {
    && n.served <= n.requests
    && (!n.pc.closed ==>
          && (n.state.AwaitingRemote? ==> n.served == n.requests)
          && (n.requestLost <==> RequestsForgotten(n))
          && (n.restartLost <==> RestartForgotten(n))
          && (n.restartOwed ==> !n.pc.gathering.NotStarted?))
  }

  ghost predicate NegoInv(n: Nego) { OfferInv(n) && LossInv(n) }

  ghost predicate CandidateInv(c: Candidates) {
    && |c.fates| <= |c.handled|
    && c.cached == c.handled[|c.fates|..]
    && (!c.caching ==> c.cached == [])
    && EndsWith(c.calls, CallsOf(c.handled[..|c.fates|], c.fates))
  }

  ghost predicate EndsWith(s: seq<Call>, tail: seq<Call>) {
    |tail| <= |s| && s[|s|-|tail|..] == tail
  }

  ghost predicate Inv(s: State) { NegoInv(s.nego) && CandidateInv(s.candidates) }

  /** How trying a fresh offer can end: it fails, finds the connection closed, or the offer is outstanding. */
  lemma FreshOutcome(n: Nego, restart: bool, w: World)
    ensures var m := SendFreshOffer(n, restart, w).0;
            if OfferFails(w) then m == n.OfferFailed()
            else m == n.(pc := n.pc.(closed := true)) || m == n.Offered(restart)
  {
  }

  lemma FreshKeepsOffers(n: Nego, restart: bool, w: World)
    requires n.state.Idle? && n.pc.stable && !n.restartAtNextOffer && AllFromIdle(n.offers)
    ensures OfferInv(SendFreshOffer(n, restart, w).0)
  {
    FreshOutcome(n, restart, w);
    assert OfferInv(n.OfferFailed()) && OfferInv(n.Offered(restart)) && OfferInv(n.(pc := n.pc.(closed := true)));
  }

  lemma FreshKeepsLosses(n: Nego, restart: bool, w: World)
    requires n.served <= n.requests && n.state.Idle? && !n.restartAtNextOffer
    requires n.restartOwed ==> !n.pc.gathering.NotStarted?
    requires !restart ==> (n.restartLost <==> n.restartOwed && !n.restartAfterGathering)
    ensures LossInv(SendFreshOffer(n, restart, w).0)
  {
    FreshOutcome(n, restart, w);
    assert LossInv(n.OfferFailed()) && LossInv(n.Offered(restart)) && LossInv(n.(pc := n.pc.(closed := true)));
  }

  /** What createAndSendOffer keeps, whatever state it meets and whatever fails. */
  lemma CreateKeepsInv(n: Nego, iceRestart: bool, w: World)
    requires n.served <= n.requests && AllFromIdle(n.offers)
    requires !n.pc.closed && n.state.Idle? ==> n.pc.stable
    requires !n.pc.closed && !n.state.Idle? ==> n.pc.hasLocal && !n.requestLost
    requires !n.pc.closed && n.restartAtNextOffer ==> !n.state.AwaitingRemote?
    requires !n.pc.closed && n.restartOwed ==> !n.pc.gathering.NotStarted?
    requires !n.pc.closed && !(n.state.Idle? && iceRestart) ==> (n.restartLost <==> RestartForgotten(n))
    ensures NegoInv(CreateAndSendOffer(n, iceRestart, w).0)
  {
    if !n.pc.closed && n.state.Idle? {
      var n1 := n.(previousAnswer := false, restartAtNextOffer := false);
      var restart := iceRestart || n.previousAnswer || n.restartAtNextOffer;
      FreshKeepsOffers(n1, restart, w);
      FreshKeepsLosses(n1, restart, w);
    }
  }

  lemma RestartKeepsInv(n: Nego, w: World)
    requires OfferInv(n) && n.served <= n.requests
    requires !n.pc.closed ==> (n.requestLost <==> RequestsForgotten(n)) && !n.restartLost
    requires !n.pc.closed && n.state.AwaitingRemote? ==> n.served == n.requests
    requires !n.pc.closed && n.restartOwed ==> !n.pc.gathering.NotStarted?
    ensures NegoInv(RestartICE(n, w).0)
  {
    if n.pc.closed || !n.pc.gathering.Complete? {
    } else if n.state.Idle? {
      CreateKeepsInv(n, true, w);
    } else if n.pc.hasCurrentRemote && Recovers(n, w) {
      CreateKeepsInv(n.(state := Idle, pc := n.pc.(stable := true)), true, w);
    }
  }

  lemma AnswerOnClosedKeepsInv(n: Nego, w: World)
    requires NegoInv(n)
    ensures NegoInv(ReceiveAnswer(n, AnswerOnClosed, w).0)
  {
    var closed := n.(pc := n.pc.(closed := true));
    CreateKeepsInv(closed.(state := Idle), false, w);
    assert ReceiveAnswer(n, AnswerOnClosed, w).0.pc.closed;
  }

  lemma AnswerKeepsInv(n: Nego, result: AnswerResult, w: World)
    requires NegoInv(n)
    ensures NegoInv(ReceiveAnswer(n, result, w).0)
  {
    if result.AnswerOnClosed? {
      AnswerOnClosedKeepsInv(n, w);
    } else if !result.Refused? && !n.pc.stable && !result.CandidateRejected? && n.state.Retry? {
      var answered := n.(state := Idle, pc := n.pc.(stable := true, hasCurrentRemote := true));
      CreateKeepsInv(answered, false, w);
      assert ReceiveAnswer(n, result, w) == CreateAndSendOffer(answered, false, w);
    }
  }

  lemma RequestRestartKeepsInv(n: Nego, w: World)
    requires NegoInv(n)
    ensures NegoInv(RequestRestart(n, w).0)
  {
    if !n.pc.closed && !n.pc.gathering.NotStarted? {
      RestartKeepsInv(n.(restartOwed := true, restartLost := false), w);
    }
  }

  lemma NegotiateKeepsInv(n: Nego, w: World)
    requires NegoInv(n)
    ensures NegoInv(Negotiate(n, w).0)
  {
    var asked := n.(requests := n.requests + 1);
    CreateKeepsInv(asked, false, w);
    assert Negotiate(n, w) == CreateAndSendOffer(asked, false, w);
  }

  lemma GatheringKeepsInv(n: Nego, w: World)
    requires NegoInv(n)
    ensures NegoInv(GatheringCompleted(n, w).0)
  {
    if n.restartAfterGathering {
      RestartKeepsInv(n.(restartAfterGathering := false), w);
    }
  }

  lemma NegoStepKeepsInv(n: Nego, e: Event)
    requires NegoInv(n)
    ensures NegoInv(StepNego(n, e).0)
  {
    match e
    case NegotiateRequested(w) => NegotiateKeepsInv(n, w);
    case RestartRequested(w) => RequestRestartKeepsInv(n, w);
    case GatheringDone(w) => GatheringKeepsInv(n, w);
    case AnswerReceived(result, w) => AnswerKeepsInv(n, result, w);
    case _ =>
  }

  lemma EndsWithMore(s: seq<Call>, tail: seq<Call>, more: seq<Call>)
    requires EndsWith(s, tail)
    ensures EndsWith(s + more, tail + more)
  {
    assert (s + more)[|s|-|tail|..] == s[|s|-|tail|..] + more;
  }

  lemma Associates(a: seq<Call>, b: seq<Call>, c: seq<Call>)
    ensures a + (b + c) == (a + b) + c
  {
  }

  lemma {:induction false} CallsJoin(
      cs: seq<Option<Candidate>>, fs: seq<Fate>, ds: seq<Option<Candidate>>, gs: seq<Fate>)
    requires |cs| == |fs| && |ds| == |gs|
    ensures CallsOf(cs + ds, fs + gs) == CallsOf(cs, fs) + CallsOf(ds, gs)
  {
    if cs == [] {
      assert cs + ds == ds && fs + gs == gs;
    } else {
      CallsJoin(cs[1..], fs[1..], ds, gs);
      assert (cs + ds)[1..] == cs[1..] + ds && (fs + gs)[1..] == fs[1..] + gs;
      assert (cs + ds)[0] == cs[0] && (fs + gs)[0] == fs[0];
      Associates(if fs[0].Skipped? then [] else [Call(cs[0], fs[0].Sent?)], CallsOf(cs[1..], fs[1..]), CallsOf(ds, gs));
    }
  }

  /** Settling the next candidates of `handled` keeps the calls in step with the fates. */
  lemma SettleKeepsCalls(c: Candidates, cs: seq<Option<Candidate>>, fs: seq<Fate>)
    requires |cs| == |fs| && |c.fates| + |cs| <= |c.handled| && c.handled[|c.fates|..][..|cs|] == cs
    requires EndsWith(c.calls, CallsOf(c.handled[..|c.fates|], c.fates))
    ensures var s := c.Settle(cs, fs); EndsWith(s.calls, CallsOf(s.handled[..|s.fates|], s.fates))
  {
    CallsJoin(c.handled[..|c.fates|], c.fates, cs, fs);
    EndsWithMore(c.calls, CallsOf(c.handled[..|c.fates|], c.fates), CallsOf(cs, fs));
    assert c.handled[..|c.fates| + |cs|] == c.handled[..|c.fates|] + cs;
  }

  lemma FlushKeepsInv(c: Candidates, takes: nat)
    requires CandidateInv(c)
    ensures CandidateInv(c.DescriptionSent(takes))
  {
    if c.caching {
      var open := c.(caching := false, cached := []);
      assert c.handled[|c.fates|..][..|c.cached|] == c.cached;
      SettleKeepsCalls(open, c.cached, FlushFates(|c.cached|, takes));
    }
  }

  lemma HandleKeepsInv(c: Candidates, candidate: Option<Candidate>, preferTCP: bool, sent: bool)
    requires CandidateInv(c)
    ensures CandidateInv(c.Handle(candidate, preferTCP, sent))
  {
    var h := c.(handled := c.handled + [candidate]);
    assert h.handled[..|c.fates|] == c.handled[..|c.fates|];
    assert h.handled[|c.fates|..] == c.handled[|c.fates|..] + [candidate];
    if !c.caching {
      assert h.handled[|c.fates|..][..1] == [candidate];
      SettleKeepsCalls(h, [candidate], [if sent then Sent else CallFailed]);
    }
  }

  lemma ClearKeepsInv(c: Candidates)
    ensures CandidateInv(c.Clear())
  {
    var d := c.Clear();
    assert d.handled[..|d.fates|] == [] && CallsOf([], []) == [];
  }

  lemma ApplyKeepsInv(c: Candidates, op: CandidateOp, takes: nat)
    requires CandidateInv(c)
    ensures CandidateInv(c.Apply(op, takes))
  {
    match op
    case Keep =>
    case ClearOnly => ClearKeepsInv(c);
    case SentOnly => FlushKeepsInv(c, takes);
    case ClearAndSent =>
      ClearKeepsInv(c);
      FlushKeepsInv(c.Clear(), takes);
  }

  lemma CandidateStepKeepsInv(c: Candidates, e: Event, op: CandidateOp)
    requires CandidateInv(c)
    ensures CandidateInv(StepCandidates(c, e, op))
  {
    match e
    case LocalCandidate(candidate, preferTCP, sent) => HandleKeepsInv(c, candidate, preferTCP, sent);
    case PreviousAnswerSet | GatheringMoves(_) | Closes =>
    case _ => ApplyKeepsInv(c, op, e.world.takes);
  }

  lemma {:induction false} RunKeepsInv(s: State, events: seq<Event>)
    requires Inv(s)
    ensures Inv(Run(s, events))
    decreases |events|
  {
    if events != [] {
      NegoStepKeepsInv(s.nego, events[0]);
      CandidateStepKeepsInv(s.candidates, events[0], StepNego(s.nego, events[0]).1);
      RunKeepsInv(Step(s, events[0]), events[1..]);
    }
  }

  // ---------------------------------------------------------------------------------- theorems

  /** Every fresh offer was created from the idle state with no offer outstanding, whatever failed. */
  lemma OffersOnlyWhenIdle(events: seq<Event>, i: nat)
    requires i < |Run(INIT, events).nego.offers|
    ensures Run(INIT, events).nego.offers[i].from.Idle? && Run(INIT, events).nego.offers[i].stable
  {
    RunKeepsInv(INIT, events);
  }

  /**
   As long as the connection is open, requests that no later offer has served keep the transport in Retry,
   unless lost.
   */
  lemma NoRequestLost(events: seq<Event>)
    requires var n := Run(INIT, events).nego; !n.pc.closed && n.served < n.requests
    ensures var n := Run(INIT, events).nego; n.state.Retry? <==> !n.requestLost
  {
    RunKeepsInv(INIT, events);
  }

  const SMOOTH := World(Ok, Ok, true, true, 0)

  function Requests(k: nat): seq<Event> { seq(k, _ => NegotiateRequested(SMOOTH)) }

  /** Any number of requests made while an offer is outstanding end in one offer after the answer. */
  lemma RequestsCoalesce(s: State, k: nat, w: World)
    requires s.nego.state.AwaitingRemote? && !s.nego.pc.closed && !s.nego.pc.stable && k > 0
    requires w.create.Ok? && w.setLocal.Ok?
    ensures var waiting := Run(s, Requests(k)).nego;
            var n := ReceiveAnswer(waiting, Applied, w).0;
            && waiting.state.Retry? && waiting.offers == s.nego.offers && waiting.requests == s.nego.requests + k
            && |n.offers| == |s.nego.offers| + 1 && n.served == n.requests == s.nego.requests + k
            && n.state.AwaitingRemote?
  {
    RequestsWait(s, k);
  }

  lemma {:induction false} RequestsWait(s: State, k: nat)
    requires !s.nego.state.Idle? && !s.nego.pc.closed
    ensures Run(s, Requests(k)).nego
         == s.nego.(state := if k > 0 then Retry else s.nego.state, requests := s.nego.requests + k)
    decreases k
  {
    if k > 0 {
      assert Requests(k)[1..] == Requests(k - 1);
      RequestsWait(Step(s, NegotiateRequested(SMOOTH)), k - 1);
    }
  }

  /** An owed ICE restart is on record until an offer that restarts ICE is created, unless lost. */
  lemma RestartNotForgotten(events: seq<Event>)
    requires var n := Run(INIT, events).nego; !n.pc.closed && n.restartOwed
    ensures var n := Run(INIT, events).nego;
            n.restartAfterGathering || (n.restartAtNextOffer && n.state.Retry?) <==> !n.restartLost
  {
    RunKeepsInv(INIT, events);
  }

  /** An ICE restart is due now: the connection is open, and gathering over. */
  predicate RestartDue(n: Nego, e: Event) {
    && (e.RestartRequested? || (e.GatheringDone? && n.restartAfterGathering))
    && !n.pc.closed && n.pc.gathering.Complete?
  }

  /** An event leads to a fresh offer being tried. */
  predicate TriesOffer(n: Nego, e: Event) {
    match e
    case NegotiateRequested(w) => !n.pc.closed && n.state.Idle?
    case RestartRequested(w) => RestartDue(n, e) && (n.state.Idle? || (n.pc.hasCurrentRemote && Recovers(n, w)))
    case GatheringDone(w) => RestartDue(n, e) && (n.state.Idle? || (n.pc.hasCurrentRemote && Recovers(n, w)))
    case AnswerReceived(result, w) =>
      !n.pc.closed && !n.pc.stable && n.state.Retry? && (result.Applied? || result.UnsupportedCodec?)
    case _ => false
  }

  /** A restart cannot re-apply the last answer to recover from an outstanding offer. */
  predicate RecoveryFails(n: Nego, e: Event) {
    RestartDue(n, e) && !n.state.Idle? && n.pc.hasCurrentRemote && !Recovers(n, e.world)
  }

  predicate OfferFailsNow(n: Nego, e: Event) { TriesOffer(n, e) && OfferFails(e.world) }

  lemma FreshForgets(n: Nego, restart: bool, w: World)
    requires n.state.Idle? && !n.restartAtNextOffer && !n.pc.closed
    ensures var m := SendFreshOffer(n, restart, w).0;
            && (RequestsForgotten(m) <==> OfferFails(w) && n.served < n.requests)
            && (RestartForgotten(m) <==>
                  !m.pc.closed && n.restartOwed && !n.restartAfterGathering && (OfferFails(w) || !restart))
            && (OfferFails(w) ==> !m.pc.closed)
  {
    FreshOutcome(n, restart, w);
    var failed, offered := n.OfferFailed(), n.Offered(restart);
    assert RequestsForgotten(failed) <==> n.served < n.requests;
    assert RestartForgotten(failed) <==> n.restartOwed && !n.restartAfterGathering;
    assert !RequestsForgotten(offered);
    assert RestartForgotten(offered) <==> n.restartOwed && !n.restartAfterGathering && !restart;
  }

  /** What trying an offer leaves forgotten. */
  lemma CreateForgets(n: Nego, iceRestart: bool, w: World)
    requires !n.pc.closed && n.state.Idle?
    ensures var m := CreateAndSendOffer(n, iceRestart, w).0;
            && (RequestsForgotten(m) <==> OfferFails(w) && n.served < n.requests)
            && (RestartForgotten(m) <==>
                  && !m.pc.closed && n.restartOwed && !n.restartAfterGathering
                  && (OfferFails(w) || !(iceRestart || n.previousAnswer || n.restartAtNextOffer)))
            && (OfferFails(w) ==> !m.pc.closed)
  {
    FreshForgets(n.(previousAnswer := false, restartAtNextOffer := false),
                 iceRestart || n.previousAnswer || n.restartAtNextOffer, w);
  }

  lemma RestartForgets(n: Nego, w: World)
    requires OfferInv(n) && !n.pc.closed && n.pc.gathering.Complete?
    ensures var m := RestartICE(n, w).0;
            var tries := n.state.Idle? || (n.pc.hasCurrentRemote && Recovers(n, w));
            && (RequestsForgotten(m) <==>
                  n.served < n.requests
                  && if tries then OfferFails(w) else n.state.AwaitingRemote? && n.pc.hasCurrentRemote)
            && (RestartForgotten(m) <==>
                  n.restartOwed && !n.restartAfterGathering
                  && if tries then OfferFails(w) else n.pc.hasCurrentRemote && !n.restartAtNextOffer)
  {
    if n.state.Idle? {
      CreateForgets(n, true, w);
    } else if n.pc.hasCurrentRemote && Recovers(n, w) {
      CreateForgets(n.(state := Idle, pc := n.pc.(stable := true)), true, w);
    }
  }

  /** What the two events that restart leave forgotten. */
  lemma DueRestartForgets(n: Nego, e: Event)
    requires NegoInv(n) && !RequestsForgotten(n) && RestartDue(n, e)
    ensures RequestsForgotten(StepNego(n, e).0) <==> OfferFailsNow(n, e) && n.served < n.requests
    ensures RestartForgotten(StepNego(n, e).0) <==>
            && (n.restartOwed || e.RestartRequested?) && (n.restartAfterGathering ==> e.GatheringDone?)
            && (OfferFailsNow(n, e) || (RecoveryFails(n, e) && !n.restartAtNextOffer))
  {
    if e.RestartRequested? {
      RestartForgets(n.(restartOwed := true, restartLost := false), e.world);
    } else {
      RestartForgets(n.(restartAfterGathering := false), e.world);
    }
  }

  /** A restart not due yet is put off, or concerns no one. */
  lemma NotDueForgetsNothing(n: Nego, e: Event)
    requires NegoInv(n) && (e.RestartRequested? || e.GatheringDone?) && !RestartDue(n, e)
    ensures RequestsForgotten(StepNego(n, e).0) <==> RequestsForgotten(n)
    ensures RestartForgotten(StepNego(n, e).0) ==> RestartForgotten(n)
  {
  }

  lemma NegotiateForgets(n: Nego, w: World)
    requires NegoInv(n)
    ensures RequestsForgotten(Negotiate(n, w).0) <==> !n.pc.closed && n.state.Idle? && OfferFails(w)
    ensures RestartForgotten(Negotiate(n, w).0) ==> RestartForgotten(n)
  {
    var asked := n.(requests := n.requests + 1);
    if !n.pc.closed && n.state.Idle? {
      CreateForgets(asked, false, w);
    }
    assert Negotiate(n, w) == CreateAndSendOffer(asked, false, w);
  }

  lemma AnswerForgets(n: Nego, result: AnswerResult, w: World)
    requires NegoInv(n) && !RequestsForgotten(n)
    ensures RequestsForgotten(ReceiveAnswer(n, result, w).0) <==>
            OfferFailsNow(n, AnswerReceived(result, w)) && n.served < n.requests
    ensures !RestartForgotten(n) ==>
              (RestartForgotten(ReceiveAnswer(n, result, w).0) <==>
                OfferFailsNow(n, AnswerReceived(result, w)) && n.restartOwed && !n.restartAfterGathering)
  {
    if TriesOffer(n, AnswerReceived(result, w)) {
      var answered := n.(state := Idle, pc := n.pc.(stable := true, hasCurrentRemote := true));
      CreateForgets(answered, false, w);
      assert ReceiveAnswer(n, result, w) == CreateAndSendOffer(answered, false, w);
    }
  }

  /** An event loses requests exactly when it tries a fresh offer for them and that fails. */
  lemma RequestLostExactly(n: Nego, e: Event)
    requires NegoInv(n) && !RequestsForgotten(n)
    ensures RequestsForgotten(StepNego(n, e).0) <==>
            OfferFailsNow(n, e) && (n.served < n.requests || e.NegotiateRequested?)
  {
    match e
    case NegotiateRequested(w) => NegotiateForgets(n, w);
    case AnswerReceived(result, w) => AnswerForgets(n, result, w);
    case RestartRequested(_) =>
      if RestartDue(n, e) { DueRestartForgets(n, e); } else { NotDueForgetsNothing(n, e); }
    case GatheringDone(_) =>
      if RestartDue(n, e) { DueRestartForgets(n, e); } else { NotDueForgetsNothing(n, e); }
    case _ =>
  }

  /** Nothing else will bring a restart about after gathering, and trying it now fails. */
  predicate LosesRestart(n: Nego, e: Event) {
    && (n.restartOwed || e.RestartRequested?)
    && (n.restartAfterGathering ==> e.GatheringDone?)
    && (OfferFailsNow(n, e) || (RecoveryFails(n, e) && !n.restartAtNextOffer))
  }

  /**
   And it loses the restart owed exactly when nothing else will bring it about after gathering and a
   fresh offer fails, or recovery does with no restart on record for the next offer.
   */
  lemma RestartLostExactly(n: Nego, e: Event)
    requires NegoInv(n) && !RequestsForgotten(n) && !RestartForgotten(n)
    ensures RestartForgotten(StepNego(n, e).0) <==> LosesRestart(n, e)
  {
    match e
    case NegotiateRequested(w) => NegotiateForgets(n, w);
    case AnswerReceived(result, w) => AnswerForgets(n, result, w);
    case RestartRequested(_) =>
      if RestartDue(n, e) { DueRestartForgets(n, e); } else { NotDueForgetsNothing(n, e); }
    case GatheringDone(_) =>
      if RestartDue(n, e) { DueRestartForgets(n, e); } else { NotDueForgetsNothing(n, e); }
    case _ =>
  }

  // ---------------------------------------------------------------------------------- stuck

  /** The offer has been answered, but the transport still waits for the answer. */
  predicate Stuck(n: Nego) { !n.pc.closed && n.pc.stable && !n.state.Idle? }

  /** The answer to the outstanding offer applies, but a candidate that came ahead of it is rejected. */
  predicate RejectsCandidate(n: Nego, e: Event) {
    e.AnswerReceived? && e.result.CandidateRejected? && !n.pc.closed && !n.pc.stable
  }

  lemma FreshNotStuck(n: Nego, restart: bool, w: World)
    requires n.state.Idle?
    ensures !Stuck(SendFreshOffer(n, restart, w).0)
  {
    FreshOutcome(n, restart, w);
  }

  lemma CreateNotStuck(n: Nego, iceRestart: bool, w: World)
    requires !Stuck(n)
    ensures !Stuck(CreateAndSendOffer(n, iceRestart, w).0)
  {
    if !n.pc.closed && n.state.Idle? {
      FreshNotStuck(n.(previousAnswer := false, restartAtNextOffer := false),
                    iceRestart || n.previousAnswer || n.restartAtNextOffer, w);
    }
  }

  lemma RestartNotStuck(n: Nego, w: World)
    requires !Stuck(n)
    ensures !Stuck(RestartICE(n, w).0)
  {
    CreateNotStuck(n, true, w);
    CreateNotStuck(n.(state := Idle, pc := n.pc.(stable := true)), true, w);
  }

  lemma AnswerSticksExactly(n: Nego, result: AnswerResult, w: World)
    requires OfferInv(n) && !Stuck(n)
    ensures Stuck(ReceiveAnswer(n, result, w).0) <==> RejectsCandidate(n, AnswerReceived(result, w))
  {
    CreateNotStuck(n.(state := Idle, pc := n.pc.(closed := true)), false, w);
    CreateNotStuck(n.(state := Idle, pc := n.pc.(stable := true, hasCurrentRemote := true)), false, w);
  }

  /** The transport gets stuck exactly when the outstanding offer is answered and a candidate rejected. */
  lemma StuckExactly(n: Nego, e: Event)
    requires OfferInv(n) && !Stuck(n)
    ensures Stuck(StepNego(n, e).0) <==> RejectsCandidate(n, e)
  {
    match e
    case NegotiateRequested(w) =>
      CreateNotStuck(n.(requests := n.requests + 1), false, w);
      assert Negotiate(n, w) == CreateAndSendOffer(n.(requests := n.requests + 1), false, w);
    case RestartRequested(w) =>
      RestartNotStuck(n, w);
      RestartNotStuck(n.(restartOwed := true, restartLost := false), w);
    case GatheringDone(w) => RestartNotStuck(n.(restartAfterGathering := false), w);
    case AnswerReceived(result, w) => AnswerSticksExactly(n, result, w);
    case _ =>
  }

  ghost predicate Silent(n: Nego) { n.pc.closed || Stuck(n) }

  /** Nothing came of a step: no offer, no request served. */
  ghost predicate StaysSame(n: Nego, m: Nego) { Silent(m) && m.offers == n.offers && m.served == n.served }

  lemma CreateStaysSilent(n: Nego, iceRestart: bool, w: World)
    requires Silent(n)
    ensures StaysSame(n, CreateAndSendOffer(n, iceRestart, w).0)
  {
  }

  lemma RestartStaysSilent(n: Nego, w: World)
    requires Silent(n)
    ensures StaysSame(n, RestartICE(n, w).0)
  {
    CreateStaysSilent(n, true, w);
  }

  lemma AnswerStaysSilent(n: Nego, result: AnswerResult, w: World)
    requires Silent(n)
    ensures StaysSame(n, ReceiveAnswer(n, result, w).0)
  {
    CreateStaysSilent(n.(state := Idle, pc := n.pc.(closed := true)), false, w);
    if n.pc.closed {
      CreateStaysSilent(n.(state := Idle, pc := n.pc.(stable := true, hasCurrentRemote := true)), false, w);
    }
  }

  lemma StaysSilent(n: Nego, e: Event)
    requires Silent(n)
    ensures StaysSame(n, StepNego(n, e).0)
  {
    match e
    case NegotiateRequested(w) =>
      CreateStaysSilent(n.(requests := n.requests + 1), false, w);
      assert Negotiate(n, w) == CreateAndSendOffer(n.(requests := n.requests + 1), false, w);
    case RestartRequested(w) =>
      RestartStaysSilent(n, w);
      RestartStaysSilent(n.(restartOwed := true, restartLost := false), w);
    case GatheringDone(w) => RestartStaysSilent(n.(restartAfterGathering := false), w);
    case AnswerReceived(result, w) => AnswerStaysSilent(n, result, w);
    case _ =>
  }

  /** No run of a stuck transport makes an offer or serves a request: only closing ends it. */
  lemma {:induction false} StuckForever(s: State, events: seq<Event>)
    requires Silent(s.nego)
    ensures var n := Run(s, events).nego; Silent(n) && n.offers == s.nego.offers && n.served == s.nego.served
    decreases |events|
  {
    if events != [] {
      StaysSilent(s.nego, events[0]);
      StuckForever(Step(s, events[0]), events[1..]);
    }
  }

  /** Some run of the transport makes an offer. */
  ghost predicate OffersAgain(s: State) {
    exists events :: |Run(s, events).nego.offers| > |s.nego.offers|
  }

  lemma RunOne(s: State, e: Event)
    ensures Run(s, [e]) == Step(s, e)
  {
    assert [e][1..] == [];
  }

  lemma RunTwo(s: State, e: Event, f: Event)
    ensures Run(s, [e, f]) == Step(Step(s, e), f)
  {
    assert [e, f][1..] == [f];
    RunOne(Step(s, e), f);
  }

  /** An open transport can make an offer again exactly when it is not stuck. */
  lemma OffersAgainExactly(s: State)
    requires OfferInv(s.nego) && !s.nego.pc.closed
    ensures OffersAgain(s) <==> !Stuck(s.nego)
  {
    if Stuck(s.nego) {
      forall events
        ensures Run(s, events).nego.offers == s.nego.offers
      {
        StuckForever(s, events);
      }
    } else {
      var ask, answer := NegotiateRequested(SMOOTH), AnswerReceived(Applied, SMOOTH);
      RunOne(s, ask);
      RunOne(s, answer);
      RunTwo(s, answer, ask);
    }
  }

  /**
   An answer that applies serves the waiting requests, with the restart due, exactly unless the transport is
   stuck.
   */
  lemma AnswerServesExactly(n: Nego, result: AnswerResult, w: World)
    requires OfferInv(n) && !n.pc.closed && n.state.Retry? && n.served < n.requests
    requires (result.Applied? || result.UnsupportedCodec?) && w.create.Ok? && w.setLocal.Ok?
    ensures var m := ReceiveAnswer(n, result, w).0;
            && (m.served == m.requests <==> !Stuck(n))
            && (!Stuck(n) ==> |m.offers| == |n.offers| + 1
                              && (n.restartAtNextOffer ==> m.offers[|n.offers|].iceRestart))
            && (Stuck(n) ==> m == n)
  {
  }

  /** Requests are outstanding that nothing on record serves, or that a stuck transport keeps on record. */
  predicate RequestsStranded(n: Nego) { RequestsForgotten(n) || (Stuck(n) && n.served < n.requests) }

  /** The same for the restart owed. */
  predicate RestartStranded(n: Nego) { RestartForgotten(n) || (Stuck(n) && n.restartOwed) }

  /**
   An event strands requests exactly when a fresh offer for them fails, when a rejected candidate makes the
   transport that holds them stuck, or when they are made to a stuck one.
   */
  lemma RequestStrandedExactly(n: Nego, e: Event)
    requires NegoInv(n) && !RequestsStranded(n)
    ensures RequestsStranded(StepNego(n, e).0) <==>
            || (OfferFailsNow(n, e) && (n.served < n.requests || e.NegotiateRequested?))
            || (RejectsCandidate(n, e) && n.served < n.requests)
            || (Stuck(n) && e.NegotiateRequested?)
  {
    RequestLostExactly(n, e);
    if Stuck(n) {
      StaysSilent(n, e);
    } else {
      StuckExactly(n, e);
    }
  }

  /** And the restart owed exactly when it loses it, or in the same two cases. */
  lemma RestartStrandedExactly(n: Nego, e: Event)
    requires NegoInv(n) && !RequestsForgotten(n) && !RestartStranded(n)
    ensures RestartStranded(StepNego(n, e).0) <==>
            || LosesRestart(n, e)
            || (RejectsCandidate(n, e) && n.restartOwed)
            || (Stuck(n) && e.RestartRequested? && !n.pc.gathering.NotStarted?)
  {
    RestartLostExactly(n, e);
    if Stuck(n) {
      StaysSilent(n, e);
    } else {
      StuckExactly(n, e);
    }
  }

  /** A request made while an offer is outstanding is never served when the answer's candidate is rejected. */
  lemma RejectedCandidateSticks()
    ensures var s := Run(INIT, [NegotiateRequested(SMOOTH), NegotiateRequested(SMOOTH),
                                AnswerReceived(CandidateRejected, SMOOTH)]);
            && Stuck(s.nego) && s.nego.state.Retry? && s.nego.served < s.nego.requests
            && !RequestsForgotten(s.nego) && !OffersAgain(s)
  {
    var ask, answer := NegotiateRequested(SMOOTH), AnswerReceived(CandidateRejected, SMOOTH);
    assert [ask, ask, answer][1..] == [ask, answer];
    RunTwo(Step(INIT, ask), ask, answer);
    var s := Step(Step(Step(INIT, ask), ask), answer);
    assert s == Run(INIT, [ask, ask, answer]);
    OffersAgainExactly(s);
  }

  // ---------------------------------------------------------------------------------- losses by example

  const CREATE_FAILS := World(Failure, Ok, true, true, 0)

  /** The first request of all is lost when its offer cannot be created. */
  lemma RequestIsLost()
    ensures RequestsForgotten(Run(INIT, [NegotiateRequested(CREATE_FAILS)]).nego)
  {
    assert [NegotiateRequested(CREATE_FAILS)][1..] == [];
    assert Run(INIT, [NegotiateRequested(CREATE_FAILS)]) == Step(INIT, NegotiateRequested(CREATE_FAILS));
  }

  /** So is a restart, waiting for the next offer behind an outstanding one, when that next offer cannot be created. */
  lemma RestartIsLost()
    ensures RestartForgotten(Run(INIT, [NegotiateRequested(SMOOTH), GatheringMoves(Complete), RestartRequested(SMOOTH),
                                        AnswerReceived(Applied, CREATE_FAILS)]).nego)
  {
    var e0, e1 := NegotiateRequested(SMOOTH), GatheringMoves(Complete);
    var e2, e3 := RestartRequested(SMOOTH), AnswerReceived(Applied, CREATE_FAILS);
    assert [e0, e1, e2, e3][1..] == [e1, e2, e3] && [e1, e2, e3][1..] == [e2, e3];
    assert [e2, e3][1..] == [e3] && [e3][1..] == [];
    var s2 := Step(Step(INIT, e0), e1);
    assert Run(INIT, [e0, e1, e2, e3]) == Run(s2, [e2, e3]);
    var s3 := Step(s2, e2);
    assert s3.nego.restartAtNextOffer && s3.nego.state.Retry? && s3.nego.restartOwed;
    assert Run(s2, [e2, e3]) == Run(s3, [e3]) == Step(s3, e3);
  }

  /** At most one offer more; it restarts ICE if a restart was due or asked for, and then none is owed. */
  ghost predicate MayOffer(before: seq<Offer>, after: seq<Offer>, restart: bool, owed: bool) {
    || after == before
    || (|after| > 0 &&
        var o := after[|after|-1];
        after == before + [o] && (restart ==> o.iceRestart) && (o.iceRestart ==> !owed))
  }

  lemma FreshOffers(n: Nego, restart: bool, w: World)
    ensures var m := SendFreshOffer(n, restart, w).0; MayOffer(n.offers, m.offers, restart, m.restartOwed)
  {
  }

  lemma CreateOffers(n: Nego, iceRestart: bool, w: World)
    ensures
      var m := CreateAndSendOffer(n, iceRestart, w).0;
      MayOffer(n.offers, m.offers, iceRestart || n.restartAtNextOffer, m.restartOwed)
  {
    if !n.pc.closed && n.state.Idle? {
      FreshOffers(n.(previousAnswer := false, restartAtNextOffer := false),
                  iceRestart || n.previousAnswer || n.restartAtNextOffer, w);
    }
  }

  lemma RestartOffers(n: Nego, w: World)
    ensures var m := RestartICE(n, w).0; MayOffer(n.offers, m.offers, true, m.restartOwed)
  {
    CreateOffers(n, true, w);
    CreateOffers(n.(state := Idle, pc := n.pc.(stable := true)), true, w);
  }

  lemma AnswerOffers(n: Nego, result: AnswerResult, w: World)
    ensures var m := ReceiveAnswer(n, result, w).0; MayOffer(n.offers, m.offers, n.restartAtNextOffer, m.restartOwed)
  {
    if result.AnswerOnClosed? {
      CreateOffers(n.(state := Idle, pc := n.pc.(closed := true)), false, w);
    } else {
      CreateOffers(n.(state := Idle, pc := n.pc.(stable := true, hasCurrentRemote := true)), false, w);
    }
  }

  lemma NegotiateOffers(n: Nego, w: World)
    ensures var m := Negotiate(n, w).0; MayOffer(n.offers, m.offers, n.restartAtNextOffer, m.restartOwed)
  {
    var asked := n.(requests := n.requests + 1);
    CreateOffers(asked, false, w);
    assert Negotiate(n, w) == CreateAndSendOffer(asked, false, w);
  }

  lemma RequestRestartOffers(n: Nego, w: World)
    ensures var m := RequestRestart(n, w).0; MayOffer(n.offers, m.offers, true, m.restartOwed)
  {
    if n.pc.closed || n.pc.gathering.NotStarted? {
      assert RequestRestart(n, w).0 == n;
    } else {
      RestartOffers(n.(restartOwed := true, restartLost := false), w);
    }
  }

  lemma GatheringOffers(n: Nego, w: World)
    ensures var m := GatheringCompleted(n, w).0; MayOffer(n.offers, m.offers, true, m.restartOwed)
  {
    RestartOffers(n.(restartAfterGathering := false), w);
  }

  /** One event creates at most one offer, and a restart due at the next offer is in that offer. */
  lemma NextOfferRestarts(n: Nego, e: Event)
    ensures
      var m := StepNego(n, e).0;
      MayOffer(n.offers, m.offers, n.restartAtNextOffer || e.RestartRequested? || e.GatheringDone?, m.restartOwed)
  {
    match e
    case NegotiateRequested(w) => NegotiateOffers(n, w);
    case RestartRequested(w) => RequestRestartOffers(n, w);
    case GatheringDone(w) => GatheringOffers(n, w);
    case AnswerReceived(result, w) => AnswerOffers(n, result, w);
    case _ => assert StepNego(n, e).0.offers == n.offers;
  }

  lemma CreateFromIdle(n: Nego, iceRestart: bool, w: World)
    requires n.state.Idle? && !n.pc.closed && !OfferFails(w)
    ensures var m := CreateAndSendOffer(n, iceRestart, w).0;
            !m.pc.closed ==>
              && |m.offers| == |n.offers| + 1
              && (m.offers[|n.offers|].iceRestart <==> iceRestart || n.previousAnswer || n.restartAtNextOffer)
  {
  }

  /** When gathering ends, a restart that waited for it goes out, or waits for the outstanding offer, unless lost. */
  lemma DeferredRestartResumes(n: Nego, w: World)
    requires OfferInv(n) && n.restartAfterGathering && !n.pc.closed && n.pc.gathering.Complete?
    requires !OfferFailsNow(n, GatheringDone(w)) && !RecoveryFails(n, GatheringDone(w))
    ensures var m := GatheringCompleted(n, w).0;
            !m.pc.closed ==>
              || (m.restartAtNextOffer && m.state.Retry?)
              || (|m.offers| == |n.offers| + 1 && m.offers[|n.offers|].iceRestart)
  {
    var r := n.(restartAfterGathering := false);
    if n.state.Idle? {
      CreateFromIdle(r, true, w);
    } else if n.pc.hasCurrentRemote {
      CreateFromIdle(r.(state := Idle, pc := r.pc.(stable := true)), true, w);
    }
  }

  lemma {:induction false} SentOnesSize(cs: seq<Option<Candidate>>, fates: seq<Fate>)
    requires |cs| == |fates|
    ensures |SentOnes(cs, fates)| <= |cs|
    ensures |SentOnes(cs, fates)| == |cs| <==> forall i :: 0 <= i < |fates| ==> fates[i].Sent?
    ensures |SentOnes(cs, fates)| == |cs| ==> SentOnes(cs, fates) == cs
  {
    if cs != [] {
      SentOnesSize(cs[1..], fates[1..]);
      assert forall i :: 0 < i < |fates| ==> fates[i] == fates[1..][i - 1];
    }
  }

  lemma HandledInOrder(c: Candidates)
    requires CandidateInv(c)
    ensures c.Emitted() + c.cached == c.handled <==> forall i :: 0 <= i < |c.fates| ==> c.fates[i].Sent?
  {
    var settled := c.handled[..|c.fates|];
    SentOnesSize(settled, c.fates);
    assert c.handled == settled + c.cached;
    assert |c.Emitted() + c.cached| == |c.Emitted()| + |c.cached|;
  }

  /**
   Since the last clear, the unfiltered candidates handled are those passed on, in order, but for the ones
   whose call failed or that a failed call cut off, and then those held back: all of them exactly when no call failed.
   */
  lemma CandidatesInOrder(events: seq<Event>)
    ensures var c := Run(INIT, events).candidates;
            && |c.fates| <= |c.handled| && c.cached == c.handled[|c.fates|..]
            && (!c.caching ==> c.cached == [])
            && (c.Emitted() + c.cached == c.handled <==> forall i :: 0 <= i < |c.fates| ==> c.fates[i].Sent?)
  {
    RunKeepsInv(INIT, events);
    HandledInOrder(Run(INIT, events).candidates);
  }

  // ---------------------------------------------------------------------------------- releasing candidates

  /** The event tries a fresh offer, and that offer is to restart ICE. */
  predicate TriesRestart(n: Nego, e: Event) {
    TriesOffer(n, e) && (e.RestartRequested? || e.GatheringDone? || n.previousAnswer || n.restartAtNextOffer)
  }

  /** The event makes a fresh offer that is written to the client. */
  predicate SendsOffer(s: State, e: Event) {
    |Step(s, e).nego.offers| > |s.nego.offers| && HasWorld(e) && e.world.offerSent
  }

  predicate HasWorld(e: Event) { e.NegotiateRequested? || e.RestartRequested? || e.GatheringDone? || e.AnswerReceived? }

  function OpFor(restarts: bool, sends: bool): CandidateOp {
    if restarts then (if sends then ClearAndSent else ClearOnly) else if sends then SentOnly else Keep
  }

  lemma FreshOp(n: Nego, restart: bool, w: World)
    ensures var (m, op) := SendFreshOffer(n, restart, w);
            op == OpFor(restart, |m.offers| > |n.offers| && w.offerSent)
  {
  }

  lemma CreateOp(n: Nego, iceRestart: bool, w: World)
    ensures var (m, op) := CreateAndSendOffer(n, iceRestart, w);
            var tries := !n.pc.closed && n.state.Idle?;
            op == OpFor(tries && (iceRestart || n.previousAnswer || n.restartAtNextOffer),
                        |m.offers| > |n.offers| && w.offerSent)
  {
    if !n.pc.closed && n.state.Idle? {
      FreshOp(n.(previousAnswer := false, restartAtNextOffer := false),
              iceRestart || n.previousAnswer || n.restartAtNextOffer, w);
    }
  }

  lemma RestartOp(n: Nego, w: World)
    ensures var (m, op) := RestartICE(n, w);
            var tries := !n.pc.closed && n.pc.gathering.Complete?
                         && (n.state.Idle? || (n.pc.hasCurrentRemote && Recovers(n, w)));
            op == OpFor(tries, |m.offers| > |n.offers| && w.offerSent)
  {
    CreateOp(n, true, w);
    CreateOp(n.(state := Idle, pc := n.pc.(stable := true)), true, w);
  }

  /** An answer that ends an outstanding offer leads on to the next one; any other tries none. */
  lemma AnswerLeads(n: Nego, result: AnswerResult, w: World)
    ensures var e := AnswerReceived(result, w);
            if TriesOffer(n, e) then
              var answered := n.(state := Idle, pc := n.pc.(stable := true, hasCurrentRemote := true));
              ReceiveAnswer(n, result, w) == CreateAndSendOffer(answered, false, w)
            else
              var (m, op) := ReceiveAnswer(n, result, w);
              && op == Keep && m.offers == n.offers && m.previousAnswer == n.previousAnswer
              && m.restartAtNextOffer == n.restartAtNextOffer && m.restartAfterGathering == n.restartAfterGathering
              && (m.pc.closed <==> n.pc.closed || result.AnswerOnClosed?)
  {
  }

  lemma AnswerOp(n: Nego, result: AnswerResult, w: World)
    ensures var (m, op) := ReceiveAnswer(n, result, w);
            op == OpFor(TriesRestart(n, AnswerReceived(result, w)), |m.offers| > |n.offers| && w.offerSent)
  {
    AnswerLeads(n, result, w);
    CreateOp(n.(state := Idle, pc := n.pc.(stable := true, hasCurrentRemote := true)), false, w);
  }

  lemma StepOp(n: Nego, e: Event)
    ensures var (m, op) := StepNego(n, e);
            op == OpFor(TriesRestart(n, e), HasWorld(e) && |m.offers| > |n.offers| && e.world.offerSent)
  {
    match e
    case NegotiateRequested(w) =>
      CreateOp(n.(requests := n.requests + 1), false, w);
      assert Negotiate(n, w) == CreateAndSendOffer(n.(requests := n.requests + 1), false, w);
    case RestartRequested(w) =>
      RestartOp(n, w);
      RestartOp(n.(restartOwed := true, restartLost := false), w);
    case GatheringDone(w) => RestartOp(n.(restartAfterGathering := false), w);
    case AnswerReceived(result, w) => AnswerOp(n, result, w);
    case _ =>
  }

  /** The calls for candidates held back: one by one, until one fails. */
  function CallsUpToFailure(held: seq<Option<Candidate>>, takes: nat): seq<Call> {
    seq(if takes < |held| then takes + 1 else |held|,
        i requires 0 <= i < |held| => Call(held[i], i < takes))
  }

  lemma {:induction false} FlushCalls(held: seq<Option<Candidate>>, takes: nat)
    ensures CallsOf(held, FlushFates(|held|, takes)) == CallsUpToFailure(held, takes)
  {
    if held != [] {
      var rest := FlushFates(|held|, takes)[1..];
      if takes == 0 {
        NoCallsSkipped(held[1..], rest);
      } else {
        FlushCalls(held[1..], takes - 1);
        assert rest == FlushFates(|held| - 1, takes - 1);
        assert CallsUpToFailure(held, takes) == [Call(held[0], true)] + CallsUpToFailure(held[1..], takes - 1);
      }
    }
  }

  /** Once an offer is written nothing is held back any more. */
  lemma SentOfferReleases(s: State, e: Event)
    requires Inv(s) && SendsOffer(s, e)
    ensures var c := Step(s, e).candidates; !c.caching && c.cached == []
  {
    StepOp(s.nego, e);
  }

  /**
   An event that tries an offer: one that is to restart ICE starts anew, and nothing held back before is
   passed on; any other keeps what was handled, and when it is written, what was held back is passed on in
   order until a call fails.
   */
  lemma OfferTreatsCandidates(s: State, e: Event)
    requires Inv(s) && HasWorld(e)
    ensures var c, d := s.candidates, Step(s, e).candidates;
            if TriesRestart(s.nego, e) then
              && d.handled == [] && d.fates == [] && d.calls == c.calls
              && d.cached == [] && (d.caching <==> !SendsOffer(s, e))
            else if SendsOffer(s, e) then
              && d.handled == c.handled && d.fates == c.fates + FlushFates(|c.cached|, e.world.takes)
              && d.calls == c.calls + CallsUpToFailure(c.cached, e.world.takes)
            else d == c
  {
    var c := s.candidates;
    StepOp(s.nego, e);
    FlushCalls(c.cached, e.world.takes);
    if !c.caching {
      assert CallsUpToFailure([], e.world.takes) == [] && FlushFates(0, e.world.takes) == [];
      assert c.calls + [] == c.calls && c.fates + [] == c.fates;
    }
    assert FlushFates(0, e.world.takes) == [];
    assert c.calls + CallsOf([], []) == c.calls;
  }

  predicate OfferWorks(w: World) { w.create.Ok? && w.setLocal.Ok? }

  /** One offer was made, which restarts ICE as it was to, or none. */
  ghost predicate MadeOffer(before: seq<Offer>, after: seq<Offer>, made: bool, restart: bool) {
    if made then |after| == |before| + 1 && before <= after && (after[|before|].iceRestart <==> restart)
    else after == before
  }

  lemma CreateMakes(n: Nego, iceRestart: bool, w: World)
    ensures MadeOffer(n.offers, CreateAndSendOffer(n, iceRestart, w).0.offers,
                      !n.pc.closed && n.state.Idle? && OfferWorks(w),
                      iceRestart || n.previousAnswer || n.restartAtNextOffer)
  {
  }

  lemma RestartMakes(n: Nego, w: World)
    ensures MadeOffer(n.offers, RestartICE(n, w).0.offers,
                      && !n.pc.closed && n.pc.gathering.Complete? && OfferWorks(w)
                      && (n.state.Idle? || (n.pc.hasCurrentRemote && Recovers(n, w))), true)
  {
    CreateMakes(n, true, w);
    CreateMakes(n.(state := Idle, pc := n.pc.(stable := true)), true, w);
  }

  lemma AnswerMakes(n: Nego, result: AnswerResult, w: World)
    ensures MadeOffer(n.offers, ReceiveAnswer(n, result, w).0.offers,
                      TriesOffer(n, AnswerReceived(result, w)) && OfferWorks(w),
                      n.previousAnswer || n.restartAtNextOffer)
  {
    AnswerLeads(n, result, w);
    CreateMakes(n.(state := Idle, pc := n.pc.(stable := true, hasCurrentRemote := true)), false, w);
  }

  /** An event makes an offer exactly when it tries one and that works; the offer restarts ICE when it is to. */
  lemma OfferMadeExactly(n: Nego, e: Event)
    ensures MadeOffer(n.offers, StepNego(n, e).0.offers, TriesOffer(n, e) && OfferWorks(e.world), TriesRestart(n, e))
  {
    match e
    case NegotiateRequested(w) =>
      CreateMakes(n.(requests := n.requests + 1), false, w);
      assert Negotiate(n, w) == CreateAndSendOffer(n.(requests := n.requests + 1), false, w);
    case RestartRequested(w) =>
      RestartMakes(n, w);
      RestartMakes(n.(restartOwed := true, restartLost := false), w);
    case GatheringDone(w) => RestartMakes(n.(restartAfterGathering := false), w);
    case AnswerReceived(result, w) => AnswerMakes(n, result, w);
    case _ =>
  }

  /** The three records that lead to a restart. */
  ghost predicate Flags(n: Nego, previousAnswer: bool, atNextOffer: bool, afterGathering: bool) {
    && (n.previousAnswer <==> previousAnswer)
    && (n.restartAtNextOffer <==> atNextOffer)
    && (n.restartAfterGathering <==> afterGathering)
  }

  lemma FreshKeepsFlags(n: Nego, restart: bool, w: World)
    ensures Flags(SendFreshOffer(n, restart, w).0, n.previousAnswer, n.restartAtNextOffer, n.restartAfterGathering)
  {
    FreshOutcome(n, restart, w);
  }

  lemma CreateFlags(n: Nego, iceRestart: bool, w: World)
    ensures var tries := !n.pc.closed && n.state.Idle?;
            Flags(CreateAndSendOffer(n, iceRestart, w).0, n.previousAnswer && !tries, n.restartAtNextOffer && !tries,
                  n.restartAfterGathering)
  {
    if !n.pc.closed && n.state.Idle? {
      FreshKeepsFlags(n.(previousAnswer := false, restartAtNextOffer := false),
                      iceRestart || n.previousAnswer || n.restartAtNextOffer, w);
    }
  }

  lemma RestartFlags(n: Nego, w: World)
    ensures var due := !n.pc.closed && n.pc.gathering.Complete?;
            var tries := due && (n.state.Idle? || (n.pc.hasCurrentRemote && Recovers(n, w)));
            Flags(RestartICE(n, w).0, n.previousAnswer && !tries,
                  (due && !n.state.Idle? && !n.pc.hasCurrentRemote && n.pc.hasLocal)
                  || (n.restartAtNextOffer && !tries),
                  n.restartAfterGathering || (!n.pc.closed && n.pc.gathering.Gathering?))
  {
    CreateFlags(n, true, w);
    CreateFlags(n.(state := Idle, pc := n.pc.(stable := true)), true, w);
  }

  /**
   What makes the next offer restart ICE is recorded when it comes up and kept until an offer is tried; a
   restart asked for while gathering waits for the end of gathering.
   */
  lemma RestartRecordedExactly(n: Nego, e: Event)
    ensures Flags(StepNego(n, e).0,
                  || (e.PreviousAnswerSet? && !n.pc.hasCurrentRemote)
                  || (n.previousAnswer && !TriesOffer(n, e)),
                  || (RestartDue(n, e) && !n.state.Idle? && !n.pc.hasCurrentRemote && n.pc.hasLocal)
                  || (n.restartAtNextOffer && !TriesOffer(n, e)),
                  || (e.RestartRequested? && !n.pc.closed && n.pc.gathering.Gathering?)
                  || (n.restartAfterGathering && (e.GatheringDone? ==> !n.pc.closed && n.pc.gathering.Gathering?)))
  {
    match e
    case NegotiateRequested(w) =>
      CreateFlags(n.(requests := n.requests + 1), false, w);
      assert Negotiate(n, w) == CreateAndSendOffer(n.(requests := n.requests + 1), false, w);
    case RestartRequested(w) =>
      RestartFlags(n, w);
      RestartFlags(n.(restartOwed := true, restartLost := false), w);
    case GatheringDone(w) => RestartFlags(n.(restartAfterGathering := false), w);
    case AnswerReceived(result, w) =>
      AnswerLeads(n, result, w);
      CreateFlags(n.(state := Idle, pc := n.pc.(stable := true, hasCurrentRemote := true)), false, w);
    case _ =>
  }

  /** What is counted: the requests, those an offer has served, and whether a restart is owed. */
  ghost predicate Counts(m: Nego, requests: nat, served: nat, owed: bool) {
    m.requests == requests && m.served == served && (m.restartOwed <==> owed)
  }

  lemma CreateCounts(n: Nego, iceRestart: bool, w: World)
    ensures var made := !n.pc.closed && n.state.Idle? && OfferWorks(w);
            var restarts := made && (iceRestart || n.previousAnswer || n.restartAtNextOffer);
            Counts(CreateAndSendOffer(n, iceRestart, w).0, n.requests, if made then n.requests else n.served,
                   n.restartOwed && !restarts)
  {
    if !n.pc.closed && n.state.Idle? {
      FreshOutcome(n.(previousAnswer := false, restartAtNextOffer := false),
                   iceRestart || n.previousAnswer || n.restartAtNextOffer, w);
    }
  }

  lemma RestartCounts(n: Nego, w: World)
    ensures var made := !n.pc.closed && n.pc.gathering.Complete? && OfferWorks(w)
                        && (n.state.Idle? || (n.pc.hasCurrentRemote && Recovers(n, w)));
            Counts(RestartICE(n, w).0, n.requests, if made then n.requests else n.served, n.restartOwed && !made)
  {
    CreateCounts(n, true, w);
    CreateCounts(n.(state := Idle, pc := n.pc.(stable := true)), true, w);
  }

  lemma AnswerCounts(n: Nego, result: AnswerResult, w: World)
    ensures var e := AnswerReceived(result, w);
            var made := TriesOffer(n, e) && OfferWorks(w);
            Counts(ReceiveAnswer(n, result, w).0, n.requests, if made then n.requests else n.served,
                   n.restartOwed && !(made && TriesRestart(n, e)))
  {
    AnswerLeads(n, result, w);
    CreateCounts(n.(state := Idle, pc := n.pc.(stable := true, hasCurrentRemote := true)), false, w);
  }

  /**
   Each request is counted, an offer made serves all there are, a restart asked for on a started connection is
   owed, and an offer that restarts ICE settles it.
   */
  lemma CountedExactly(n: Nego, e: Event)
    ensures var made := TriesOffer(n, e) && OfferWorks(e.world);
            var requests := n.requests + if e.NegotiateRequested? then 1 else 0;
            var owed := n.restartOwed || (e.RestartRequested? && !n.pc.closed && !n.pc.gathering.NotStarted?);
            Counts(StepNego(n, e).0, requests, if made then requests else n.served,
                   owed && !(made && TriesRestart(n, e)))
  {
    match e
    case NegotiateRequested(w) =>
      CreateCounts(n.(requests := n.requests + 1), false, w);
      assert Negotiate(n, w) == CreateAndSendOffer(n.(requests := n.requests + 1), false, w);
    case RestartRequested(w) =>
      RestartCounts(n, w);
      RestartCounts(n.(restartOwed := true, restartLost := false), w);
    case GatheringDone(w) => RestartCounts(n.(restartAfterGathering := false), w);
    case AnswerReceived(result, w) => AnswerCounts(n, result, w);
    case _ =>
  }

  /** A call made for an offer finds the connection closed. */
  predicate FindsClosed(w: World) {
    w.create.ConnectionClosed? || (w.create.Ok? && w.setLocal.ConnectionClosed?)
  }

  lemma CreateCloses(n: Nego, iceRestart: bool, w: World)
    ensures CreateAndSendOffer(n, iceRestart, w).0.pc.closed <==>
            n.pc.closed || (n.state.Idle? && FindsClosed(w))
  {
  }

  lemma RestartCloses(n: Nego, w: World)
    ensures RestartICE(n, w).0.pc.closed <==>
            || n.pc.closed
            || (n.pc.gathering.Complete? && FindsClosed(w)
                && (n.state.Idle? || (n.pc.hasCurrentRemote && Recovers(n, w))))
  {
    CreateCloses(n, true, w);
    CreateCloses(n.(state := Idle, pc := n.pc.(stable := true)), true, w);
  }

  lemma AnswerCloses(n: Nego, result: AnswerResult, w: World)
    ensures ReceiveAnswer(n, result, w).0.pc.closed <==>
            n.pc.closed || result.AnswerOnClosed? || (TriesOffer(n, AnswerReceived(result, w)) && FindsClosed(w))
  {
    AnswerLeads(n, result, w);
    CreateCloses(n.(state := Idle, pc := n.pc.(stable := true, hasCurrentRemote := true)), false, w);
  }

  /** A connection is known to be closed once it says so or a call finds it closed, and stays so. */
  lemma ClosedExactly(n: Nego, e: Event)
    ensures StepNego(n, e).0.pc.closed <==>
            || n.pc.closed || e.Closes? || (e.AnswerReceived? && e.result.AnswerOnClosed?)
            || (TriesOffer(n, e) && FindsClosed(e.world))
  {
    match e
    case NegotiateRequested(w) =>
      CreateCloses(n.(requests := n.requests + 1), false, w);
      assert Negotiate(n, w) == CreateAndSendOffer(n.(requests := n.requests + 1), false, w);
    case RestartRequested(w) =>
      RestartCloses(n, w);
      RestartCloses(n.(restartOwed := true, restartLost := false), w);
    case GatheringDone(w) => RestartCloses(n.(restartAfterGathering := false), w);
    case AnswerReceived(result, w) => AnswerCloses(n, result, w);
    case _ =>
  }

  /** Holding candidates back begins with a restart and ends with an offer written. */
  lemma CachingSteps(s: State, e: Event)
    ensures Step(s, e).candidates.caching <==>
            !SendsOffer(s, e) && (TriesRestart(s.nego, e) || s.candidates.caching)
  {
    StepOp(s.nego, e);
  }

  lemma {:induction false} RunSplits(s: State, events: seq<Event>, n: nat)
    requires n < |events|
    ensures Run(s, events[..n + 1]) == Step(Run(s, events[..n]), events[n])
    decreases n
  {
    if n == 0 {
      assert events[..1][1..] == [];
    } else {
      RunSplits(Step(s, events[0]), events[1..], n - 1);
      assert events[..n + 1][1..] == events[1..][..n] && events[..n][1..] == events[1..][..n - 1];
    }
  }

  /** What happened at `i` has not been ended by anything from then on up to `n`. */
  ghost predicate Since(starts: nat -> bool, ends: nat -> bool, i: nat, n: nat) {
    i < n && starts(i) && forall j: nat :: i <= j < n ==> !ends(j)
  }

  lemma SinceSteps(starts: nat -> bool, ends: nat -> bool, m: nat, n: nat)
    requires n == m + 1
    ensures (exists i: nat :: Since(starts, ends, i, n)) <==>
            !ends(m) && (starts(m) || exists i: nat :: Since(starts, ends, i, m))
  {
    if !ends(m) {
      if starts(m) {
        assert Since(starts, ends, m, n);
      } else if i: nat :| Since(starts, ends, i, m) {
        assert Since(starts, ends, i, n);
      }
    }
    if i: nat :| Since(starts, ends, i, n) {
      assert i < m ==> Since(starts, ends, i, m);
    }
  }

  ghost function RestartsAt(events: seq<Event>): nat -> bool {
    (j: nat) => j < |events| && TriesRestart(Run(INIT, events[..j]).nego, events[j])
  }

  ghost function SendsAt(events: seq<Event>): nat -> bool {
    (j: nat) => j < |events| && SendsOffer(Run(INIT, events[..j]), events[j])
  }

  /**
   In every run candidates are held back exactly when some event tried an offer that was to restart ICE and
   none since then, that event included, has written an offer.
   */
  lemma {:induction false} CachingExactly(events: seq<Event>, n: nat)
    requires n <= |events|
    ensures Run(INIT, events[..n]).candidates.caching <==>
            exists i: nat :: Since(RestartsAt(events), SendsAt(events), i, n)
    decreases n
  {
    if n > 0 {
      var m := n - 1;
      CachingExactly(events, m);
      RunSplits(INIT, events, m);
      CachingSteps(Run(INIT, events[..m]), events[m]);
      SinceSteps(RestartsAt(events), SendsAt(events), m, n);
    }
  }

  /** The filter: with TCP preferred, candidates of other transports are passed over. */
  predicate FilteredOut(e: Event) { e.LocalCandidate? && e.preferTCP && e.candidate.Some? && !e.candidate.value.tcp }

  /** A local candidate that is not filtered out is held back while holding back, else called for at once. */
  lemma LocalCandidateExactly(s: State, e: Event)
    requires e.LocalCandidate?
    ensures var c, t := s.candidates, Step(s, e);
            && t.nego == s.nego
            && (FilteredOut(e) ==> t.candidates == c)
            && (!FilteredOut(e) && c.caching ==>
                  t.candidates == c.(handled := c.handled + [e.candidate], cached := c.cached + [e.candidate]))
            && (!FilteredOut(e) && !c.caching ==>
                  t.candidates == c.(handled := c.handled + [e.candidate],
                                     fates := c.fates + [if e.sent then Sent else CallFailed],
                                     calls := c.calls + [Call(e.candidate, e.sent)]))
  {
    if e.LocalCandidate? {
      OneCall(e.candidate, e.sent);
    }
  }

  /**
   A call fails for the candidate handled, or for one held back: that one, and those held back behind it,
   are not passed on.
   */
  ghost predicate CallFails(s: State, e: Event) {
    || (e.LocalCandidate? && !FilteredOut(e) && !s.candidates.caching && !e.sent)
    || (SendsOffer(s, e) && s.candidates.caching && e.world.takes < |s.candidates.cached|)
  }

  /** An event that tries no restart adds fates: some candidate is not passed on exactly when a call fails. */
  lemma CandidateLostExactly(s: State, e: Event)
    requires Inv(s)
    ensures var c, d := s.candidates, Step(s, e).candidates;
            if TriesRestart(s.nego, e) then d.handled == [] && d.fates == []
            else c.fates <= d.fates
                 && ((exists i :: |c.fates| <= i < |d.fates| && !d.fates[i].Sent?) <==> CallFails(s, e))
  {
    var c, d := s.candidates, Step(s, e).candidates;
    if HasWorld(e) {
      OfferTreatsCandidates(s, e);
    } else if e.LocalCandidate? {
      LocalCandidateExactly(s, e);
    }
    if CallFails(s, e) && !TriesRestart(s.nego, e) {
      var at := |c.fates| + if e.LocalCandidate? then 0 else e.world.takes;
      assert !d.fates[at].Sent?;
    }
  }
}
