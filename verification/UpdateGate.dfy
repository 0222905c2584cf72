/**
 What one participant's client is told about the others: updates wait for the join response, then pass a
 gate that remembers, for the 128 ids used last, the version told last.
 */
module UpdateGate {
  import opened Common

  type Id = nat

  datatype Info = Info(sid: Id, version: nat, hidden: bool)

  // ---------------------------------------------------------------------------------- the version cache

  const CACHE_SIZE := 128

  datatype Entry = Entry(id: Id, version: nat)

  /** Least-recently-used cache, most recently used entry first. */
  function Find(cache: seq<Entry>, id: Id): Option<nat> {
    if cache == [] then None
    else if cache[0].id == id then Some(cache[0].version)
    else Find(cache[1..], id)
  }

  function WithoutId(cache: seq<Entry>, id: Id): seq<Entry> {
    if cache == [] then []
    else if cache[0].id == id then WithoutId(cache[1..], id)
    else [cache[0]] + WithoutId(cache[1..], id)
  }

  function Put(cache: seq<Entry>, id: Id, version: nat): seq<Entry> {
    var fuller := [Entry(id, version)] + WithoutId(cache, id);
    if |fuller| <= CACHE_SIZE then fuller else fuller[..CACHE_SIZE]
  }

  /** A lookup that finds its id moves it to the front. */
  function Touch(cache: seq<Entry>, id: Id): seq<Entry> {
    match Find(cache, id)
    case Some(version) => [Entry(id, version)] + WithoutId(cache, id)
    case None => cache
  }

  function Ids(cache: seq<Entry>): seq<Id> {
    seq(|cache|, i requires 0 <= i < |cache| => cache[i].id)
  }

  // ---------------------------------------------------------------------------------- the gate

  datatype Fate = Accepted | Stale | Hidden | Dropped

  /** The cache, and history: the ids used, the version told last, the updates accepted and what became of each. */
  datatype Gate = Gate(
    cache: seq<Entry>, uses: seq<Id>, told: map<Id, nat>, accepted: seq<Info>, fates: seq<(Info, Fate)>)

  function Known(g: Gate, info: Info): Option<nat> { Find(g.cache, info.sid) }

  predicate IsStale(g: Gate, info: Info) {
    Known(g, info).Some? && info.version < Known(g, info).value
  }

  predicate IsHidden(self: Id, info: Info) { info.hidden && info.sid != self }

  function Looked(g: Gate, id: Id): Gate {
    if Find(g.cache, id).Some? then g.(cache := Touch(g.cache, id), uses := g.uses + [id]) else g
  }

  function Tell(g: Gate, id: Id, version: nat): Gate {
    g.(cache := Put(g.cache, id, version), uses := g.uses + [id], told := g.told[id := version])
  }

  function PassOne(g: Gate, self: Id, info: Info): Gate {
    var g1 := Looked(g, info.sid);
    if IsStale(g, info) then g1.(fates := g.fates + [(info, Stale)])
    else if IsHidden(self, info) then g1.(fates := g.fates + [(info, Hidden)])
    else Tell(g1, info.sid, info.version).(accepted := g.accepted + [info], fates := g.fates + [(info, Accepted)])
  }

  function PassAll(g: Gate, self: Id, infos: seq<Info>): Gate
    decreases |infos|
  {
    if infos == [] then g else PassAll(PassOne(g, self, infos[0]), self, infos[1..])
  }

  function DropAll(g: Gate, infos: seq<Info>): (dropped: Gate)
    ensures dropped == g.(fates := dropped.fates)
    decreases |infos|
  {
    if infos == [] then g else DropAll(g.(fates := g.fates + [(infos[0], Dropped)]), infos[1..])
  }

  /** The participants named in the join response are remembered without being checked. */
  function TellAll(g: Gate, others: seq<Entry>): Gate
    decreases |others|
  {
    if others == [] then g else TellAll(Tell(g, others[0].id, others[0].version), others[1..])
  }

  // ---------------------------------------------------------------------------------- the participant

  datatype Phase = Joining | Joined | Active | Disconnected

  /** How far the join response is: not begun, in the cache, handed over, queue taken, done, or given up. */
  datatype Stage = Idle | Cached | Written | Taken | Done | GivenUp

  datatype State = State(
    self: Id, phase: Phase, stage: Stage, queued: seq<Info>, inHand: seq<Info>, received: seq<Info>, gate: Gate)

  function Init(self: Id): State { State(self, Joining, Idle, [], [], [], Gate([], [], map[], [], [])) }

  predicate IsReady(phase: Phase) { phase == Joined || phase == Active }

  function Rank(phase: Phase): nat {
    match phase case Joining => 0 case Joined => 1 case Active => 2 case Disconnected => 3
  }

  /** The state of a participant only moves forward. */
  function UpdateState(current: Phase, next: Phase): Phase {
    if Rank(next) <= Rank(current) then current else next
  }

  datatype Event =
    | Send(infos: seq<Info>)
    | JoinCache(others: seq<Entry>)
    | JoinWrite(ok: bool)
    | JoinTake
    | JoinReplay
    | Activate
    | Disconnect
    | Lookup(id: Id)

  function StepSend(s: State, infos: seq<Info>): State {
    if s.phase == Disconnected then s.(gate := DropAll(s.gate, infos))
    else if !IsReady(s.phase) then s.(queued := s.queued + infos)
    else s.(gate := PassAll(s.gate, s.self, infos))
  }

  function Step(s: State, e: Event): State {
    match e
    case Send(infos) => StepSend(s, infos).(received := s.received + infos)
    case JoinCache(others) =>
      if s.stage == Idle then s.(stage := Cached, gate := TellAll(s.gate, others)) else s
    case JoinWrite(ok) =>
      if s.stage == Cached then s.(stage := if ok then Written else GivenUp) else s
    case JoinTake =>
      if s.stage != Written then s
      else s.(stage := Taken, phase := if s.phase == Joining then Joined else s.phase, queued := [], inHand := s.queued)
    case JoinReplay =>
      if s.stage != Taken then s
      else if s.inHand == [] then s.(stage := Done)
      else StepSend(s, s.inHand).(stage := Done, inHand := [])
    case Activate => s.(phase := UpdateState(s.phase, Active))
    case Disconnect => s.(phase := UpdateState(s.phase, Disconnected))
    case Lookup(id) => s.(gate := Looked(s.gate, id))
  }

  function Run(s: State, events: seq<Event>): State
    decreases |events|
  {
    if events == [] then s else Run(Step(s, events[0]), events[1..])
  }

  // ---------------------------------------------------------------------------------- in place

  class ParticipantSignal {
    const self: Id
    var state: Phase
    var queuedUpdates: seq<Info>
    var updateCache: seq<Entry>
    var stage: Stage
    var inHand: seq<Info>
    ghost var received: seq<Info>
    ghost var gate: Gate

    constructor (self: Id)
      ensures Valid() && Fields() == Init(self)
    {
      this.self, state, stage := self, Joining, Idle;
      queuedUpdates, inHand, updateCache := [], [], [];
      received, gate := [], Gate([], [], map[], [], []);
    }

    ghost predicate Valid()
      reads this
    {
      gate.cache == updateCache
    }

    ghost function Fields(): State
      reads this
    {
      State(self, state, stage, queuedUpdates, inHand, received, gate)
    }

    method SendParticipantUpdate(infos: seq<Info>) returns (sent: seq<Info>)
      requires Valid()
      modifies this
      ensures Valid()
      ensures Fields() == StepSend(old(Fields()), infos).(received := old(received) + infos)
      ensures gate.accepted == old(gate.accepted) + sent
    {
      sent := [];
      received := received + infos;
      if state == Disconnected {
        gate := DropAll(gate, infos);
        return;
      }
      if !IsReady(state) {
        queuedUpdates := queuedUpdates + infos;
        return;
      }
      for i := 0 to |infos|
        invariant Valid()
        invariant unchanged(this`state) && unchanged(this`queuedUpdates)
        invariant unchanged(this`stage) && unchanged(this`inHand)
        invariant received == old(received) + infos
        invariant PassAll(gate, self, infos[i..]) == PassAll(old(gate), self, infos)
        invariant gate.accepted == old(gate.accepted) + sent
      {
        var isValid := PassUpdate(infos[i]);
        if isValid {
          sent := sent + [infos[i]];
        }
        assert infos[i..][0] == infos[i] && infos[i..][1..] == infos[i + 1..];
      }
    }

    /** One round of the loop over the updates. */
    method PassUpdate(info: Info) returns (isValid: bool)
      requires Valid()
      modifies this`updateCache, this`gate
      ensures Valid() && gate == PassOne(old(gate), self, info)
      ensures gate.accepted == old(gate.accepted) + if isValid then [info] else []
    {
      isValid := true;
      var last := Find(updateCache, info.sid);
      if last.Some? {
        updateCache := Touch(updateCache, info.sid);
        if info.version < last.value {
          isValid := false;
        }
      }
      if info.hidden && info.sid != self {
        isValid := false;
      }
      if isValid {
        updateCache := Put(updateCache, info.sid, info.version);
      }
      gate := PassOne(gate, self, info);
    }

    method RememberOthers(others: seq<Entry>)
      requires Valid() && stage == Idle
      modifies this
      ensures Valid() && Fields() == Step(old(Fields()), JoinCache(others))
    {
      for i := 0 to |others|
        invariant Valid()
        invariant unchanged(this`state) && unchanged(this`queuedUpdates)
        invariant unchanged(this`stage) && unchanged(this`inHand)
        invariant unchanged(this`received)
        invariant TellAll(gate, others[i..]) == TellAll(old(gate), others)
      {
        updateCache := Put(updateCache, others[i].id, others[i].version);
        gate := Tell(gate, others[i].id, others[i].version);
        assert others[i..][0] == others[i] && others[i..][1..] == others[i + 1..];
      }
      stage := Cached;
    }

    /** The outcome of writing the join response; the sink is outside the model. */
    method JoinResponseWritten(ok: bool)
      requires Valid() && stage == Cached
      modifies this`stage
      ensures Valid() && Fields() == Step(old(Fields()), JoinWrite(ok))
      ensures stage == if ok then Written else GivenUp
    {
      stage := if ok then Written else GivenUp;
    }

    method TakeQueuedUpdates()
      requires Valid() && stage == Written
      modifies this
      ensures Valid() && Fields() == Step(old(Fields()), JoinTake)
      ensures state == if old(state) == Joining then Joined else old(state)
      ensures inHand == old(queuedUpdates) && queuedUpdates == [] && stage == Taken
      ensures updateCache == old(updateCache)
    {
      if state == Joining {
        state := Joined;
      }
      inHand, queuedUpdates, stage := queuedUpdates, [], Taken;
    }

    method ReplayQueuedUpdates() returns (sent: seq<Info>)
      requires Valid() && stage == Taken
      modifies this
      ensures Valid() && Fields() == Step(old(Fields()), JoinReplay)
      ensures state == old(state) && stage == Done && inHand == []
    {
      sent := [];
      if |inHand| > 0 {
        ghost var before := received;
        sent := SendParticipantUpdate(inHand);
        received := before;
      }
      inHand, stage := [], Done;
    }
  }

  // ---------------------------------------------------------------------------------- least recently used

  function Without(ids: seq<Id>, id: Id): seq<Id> {
    if ids == [] then []
    else if ids[0] == id then Without(ids[1..], id)
    else [ids[0]] + Without(ids[1..], id)
  }

  /** All ids ever used, the one used last first. */
  function Recency(uses: seq<Id>): seq<Id>
    decreases |uses|
  {
    if uses == [] then []
    else [uses[|uses| - 1]] + Without(Recency(uses[..|uses| - 1]), uses[|uses| - 1])
  }

  function Cut(ids: seq<Id>): seq<Id> { if |ids| <= CACHE_SIZE then ids else ids[..CACHE_SIZE] }

  ghost predicate Distinct(ids: seq<Id>) { forall i, j :: 0 <= i < j < |ids| ==> ids[i] != ids[j] }

  lemma {:induction false} WithoutMeans(ids: seq<Id>, id: Id)
    ensures id !in Without(ids, id)
    ensures forall x :: x != id ==> (x in Without(ids, id) <==> x in ids)
    ensures id !in ids ==> Without(ids, id) == ids
  {
    if ids != [] {
      WithoutMeans(ids[1..], id);
      assert ids == [ids[0]] + ids[1..];
    }
  }

  lemma {:induction false} WithoutDistinct(ids: seq<Id>, id: Id)
    requires Distinct(ids)
    ensures Distinct(Without(ids, id))
    ensures id in ids ==> |Without(ids, id)| == |ids| - 1
  {
    if ids == [] {
    } else {
      var rest := Without(ids[1..], id);
      WithoutDistinct(ids[1..], id);
      WithoutMeans(ids[1..], id);
      assert ids[0] !in ids[1..];
      if ids[0] != id {
        assert ids[0] !in rest;
        assert forall j :: 0 <= j < |rest| ==> rest[j] in rest;
      }
    }
  }

  lemma {:induction false} WithoutSplits(a: seq<Id>, b: seq<Id>, id: Id)
    ensures Without(a + b, id) == Without(a, id) + Without(b, id)
  {
    if a == [] {
      assert a + b == b;
    } else {
      var whole := a + b;
      assert whole[0] == a[0] && whole[1..] == a[1..] + b;
      WithoutSplits(a[1..], b, id);
      if a[0] != id {
        Associates(a[0], Without(a[1..], id), Without(b, id));
      }
    }
  }

  lemma Associates(x: Id, a: seq<Id>, b: seq<Id>)
    ensures [x] + (a + b) == ([x] + a) + b
  {
  }

  lemma {:induction false} RecencyMeans(uses: seq<Id>)
    ensures Distinct(Recency(uses))
    ensures forall x :: x in Recency(uses) <==> x in uses
    decreases |uses|
  {
    if uses == [] {
    } else {
      var last := uses[|uses| - 1];
      RecencyMeans(uses[..|uses| - 1]);
      WithoutMeans(Recency(uses[..|uses| - 1]), last);
      WithoutDistinct(Recency(uses[..|uses| - 1]), last);
      assert uses == uses[..|uses| - 1] + [last];
    }
  }

  lemma RecencyAfter(uses: seq<Id>, id: Id)
    ensures Recency(uses + [id]) == [id] + Without(Recency(uses), id)
  {
    assert (uses + [id])[..|uses|] == uses;
  }

  /** Keeping the front and moving an id to it commute. */
  lemma CutThenUse(ids: seq<Id>, id: Id)
    requires Distinct(ids)
    ensures Cut([id] + Without(ids, id)) == Cut([id] + Without(Cut(ids), id))
  {
    var front := Cut(ids);
    var back := ids[|front|..];
    assert ids == front + back;
    WithoutSplits(front, back, id);
    WithoutMeans(front, id);
    WithoutMeans(back, id);
    WithoutDistinct(front, id);
    if back != [] {
      if id in front {
        assert Without(ids, id) == Without(front, id) + back;
      } else {
        assert Without(ids, id) == front + Without(back, id);
      }
    }
  }

  lemma {:induction false} IdsWithout(cache: seq<Entry>, id: Id)
    ensures Ids(WithoutId(cache, id)) == Without(Ids(cache), id)
  {
    if cache == [] {
    } else {
      IdsWithout(cache[1..], id);
      assert Ids(cache) == [cache[0].id] + Ids(cache[1..]);
      assert Ids(cache)[1..] == Ids(cache[1..]);
      if cache[0].id != id {
        assert Ids([cache[0]] + WithoutId(cache[1..], id)) == [cache[0].id] + Ids(WithoutId(cache[1..], id));
      }
    }
  }

  lemma {:induction false} FindMeans(cache: seq<Entry>, id: Id)
    ensures Find(cache, id).Some? <==> id in Ids(cache)
  {
    if cache == [] {
    } else {
      FindMeans(cache[1..], id);
      assert Ids(cache) == [cache[0].id] + Ids(cache[1..]);
    }
  }

  lemma {:induction false} FindWithout(cache: seq<Entry>, id: Id, other: Id)
    requires other != id
    ensures Find(WithoutId(cache, id), other) == Find(cache, other)
  {
    if cache == [] {
    } else {
      FindWithout(cache[1..], id, other);
    }
  }

  lemma {:induction false} FindCut(cache: seq<Entry>, n: nat, id: Id)
    requires n <= |cache| && Find(cache[..n], id).Some?
    ensures Find(cache, id) == Find(cache[..n], id)
  {
    if n == 0 || cache[0].id == id {
    } else {
      assert cache[..n][1..] == cache[1..][..n - 1];
      FindCut(cache[1..], n - 1, id);
    }
  }

  // ---------------------------------------------------------------------------------- what was told last

  /** The cache holds exactly the ids used last. */
  ghost predicate LruInv(g: Gate) { Ids(g.cache) == Cut(Recency(g.uses)) }

  /** And for each of them the version told last. */
  ghost predicate ToldInv(g: Gate) {
    && (forall id :: Find(g.cache, id).Some? ==> id in g.told && g.told[id] == Find(g.cache, id).value)
    && (forall id :: id in g.told <==> id in g.uses)
  }

  ghost predicate GateInv(g: Gate) { LruInv(g) && ToldInv(g) }

  lemma PutFollowsUse(cache: seq<Entry>, uses: seq<Id>, id: Id, version: nat)
    requires Ids(cache) == Cut(Recency(uses))
    ensures Ids(Put(cache, id, version)) == Cut(Recency(uses + [id]))
  {
    var fuller := [Entry(id, version)] + WithoutId(cache, id);
    IdsWithout(cache, id);
    assert Ids(fuller) == [id] + Without(Ids(cache), id);
    assert Ids(Put(cache, id, version)) == Cut(Ids(fuller));
    RecencyMeans(uses);
    RecencyAfter(uses, id);
    CutThenUse(Recency(uses), id);
  }

  lemma TouchFollowsUse(cache: seq<Entry>, uses: seq<Id>, id: Id)
    requires Ids(cache) == Cut(Recency(uses)) && Find(cache, id).Some?
    ensures Ids(Touch(cache, id)) == Cut(Recency(uses + [id]))
  {
    var front := Cut(Recency(uses));
    IdsWithout(cache, id);
    assert Ids(Touch(cache, id)) == [id] + Without(front, id);
    FindMeans(cache, id);
    RecencyMeans(uses);
    RecencyAfter(uses, id);
    CutThenUse(Recency(uses), id);
    WithoutDistinct(front, id);
    assert |[id] + Without(front, id)| == |front|;
  }

  lemma FindPut(cache: seq<Entry>, id: Id, version: nat, other: Id)
    ensures Find(Put(cache, id, version), id) == Some(version)
    ensures other != id && Find(Put(cache, id, version), other).Some? ==>
              Find(Put(cache, id, version), other) == Find(cache, other)
  {
    var fuller := [Entry(id, version)] + WithoutId(cache, id);
    if other != id && Find(Put(cache, id, version), other).Some? {
      if |fuller| > CACHE_SIZE {
        FindCut(fuller, CACHE_SIZE, other);
      }
      FindWithout(cache, id, other);
    }
  }

  lemma TellKeepsGate(g: Gate, id: Id, version: nat)
    requires GateInv(g)
    ensures GateInv(Tell(g, id, version))
  {
    PutFollowsUse(g.cache, g.uses, id, version);
    forall other | Find(Put(g.cache, id, version), other).Some?
      ensures other in g.told[id := version]
      ensures g.told[id := version][other] == Find(Put(g.cache, id, version), other).value
    {
      FindPut(g.cache, id, version, other);
    }
  }

  lemma LookedKeepsGate(g: Gate, id: Id)
    requires GateInv(g)
    ensures GateInv(Looked(g, id))
    ensures Looked(g, id).told == g.told
  {
    if Find(g.cache, id).Some? {
      TouchFollowsUse(g.cache, g.uses, id);
      forall other | Find(Touch(g.cache, id), other).Some?
        ensures other in g.told && g.told[other] == Find(Touch(g.cache, id), other).value
      {
        if other != id {
          FindWithout(g.cache, id, other);
        }
      }
    }
  }

  lemma PassOneKeepsGate(g: Gate, self: Id, info: Info)
    requires GateInv(g)
    ensures GateInv(PassOne(g, self, info))
  {
    LookedKeepsGate(g, info.sid);
    if !IsStale(g, info) && !IsHidden(self, info) {
      TellKeepsGate(Looked(g, info.sid), info.sid, info.version);
    }
  }

  lemma {:induction false} PassAllKeepsGate(g: Gate, self: Id, infos: seq<Info>)
    requires GateInv(g)
    ensures GateInv(PassAll(g, self, infos))
    decreases |infos|
  {
    if infos != [] {
      PassOneKeepsGate(g, self, infos[0]);
      PassAllKeepsGate(PassOne(g, self, infos[0]), self, infos[1..]);
    }
  }

  lemma {:induction false} TellAllKeepsGate(g: Gate, others: seq<Entry>)
    requires GateInv(g)
    ensures GateInv(TellAll(g, others))
    decreases |others|
  {
    if others != [] {
      TellKeepsGate(g, others[0].id, others[0].version);
      TellAllKeepsGate(Tell(g, others[0].id, others[0].version), others[1..]);
    }
  }

  lemma StepKeepsGate(s: State, e: Event)
    requires GateInv(s.gate)
    ensures GateInv(Step(s, e).gate)
  {
    match e
    case Send(infos) => PassAllKeepsGate(s.gate, s.self, infos);
    case JoinCache(others) => TellAllKeepsGate(s.gate, others);
    case JoinReplay => PassAllKeepsGate(s.gate, s.self, s.inHand);
    case Lookup(id) => LookedKeepsGate(s.gate, id);
    case _ =>
  }

  lemma {:induction false} RunKeepsGate(s: State, events: seq<Event>)
    requires GateInv(s.gate)
    ensures GateInv(Run(s, events).gate)
    decreases |events|
  {
    if events != [] {
      StepKeepsGate(s, events[0]);
      RunKeepsGate(Step(s, events[0]), events[1..]);
    }
  }

  /**
   After any run, an update is refused as stale exactly when its id is among the 128 used last and a
   higher version was told last.
   */
  lemma StaleExactly(self: Id, events: seq<Event>, info: Info)
    ensures
      var g := Run(Init(self), events).gate;
      IsStale(g, info) <==>
        info.sid in Cut(Recency(g.uses)) && info.sid in g.told && info.version < g.told[info.sid]
  {
    RunKeepsGate(Init(self), events);
    var g := Run(Init(self), events).gate;
    FindMeans(g.cache, info.sid);
  }

  /** The id is among the 128 used last, and was last told at a higher version. */
  predicate ToldHigher(g: Gate, info: Info) {
    info.sid in Cut(Recency(g.uses)) && info.sid in g.told && info.version < g.told[info.sid]
  }

  lemma FirstOfOne(g: Gate, self: Id, info: Info)
    ensures PassAll(g, self, [info]) == PassOne(g, self, info)
    ensures DropAll(g, [info]) == g.(fates := g.fates + [(info, Dropped)])
  {
    assert [info][1..] == [];
  }

  /**
   What becomes of one update: a client that has joined accepts it unless a higher version was told or it is
   hidden and about someone else; before that it waits, and after a disconnect it is dropped.
   */
  lemma SentExactly(self: Id, events: seq<Event>, info: Info)
    ensures
      var s := Run(Init(self), events);
      var t := Step(s, Send([info]));
      var accepts := && (s.phase == Joined || s.phase == Active)
                     && !ToldHigher(s.gate, info) && (!info.hidden || info.sid == self);
      && t.phase == s.phase && t.stage == s.stage && t.inHand == s.inHand && t.received == s.received + [info]
      && t.queued == (if s.phase == Joining then s.queued + [info] else s.queued)
      && t.gate.accepted == (if accepts then s.gate.accepted + [info] else s.gate.accepted)
      && t.gate.told == (if accepts then s.gate.told[info.sid := info.version] else s.gate.told)
  {
    var s := Run(Init(self), events);
    StaleExactly(self, events, info);
    KeepsSelf(Init(self), events);
    FirstOfOne(s.gate, s.self, info);
    PassOneShape(s.gate, s.self, info);
  }

  lemma {:induction false} KeepsSelf(s: State, events: seq<Event>)
    ensures Run(s, events).self == s.self
    decreases |events|
  {
    if events != [] {
      KeepsSelf(Step(s, events[0]), events[1..]);
    }
  }

  lemma DropFirst(g: Gate, first: Info, rest: seq<Info>)
    ensures DropAll(g, [first] + rest) == DropAll(g.(fates := g.fates + [(first, Dropped)]), rest)
  {
    assert ([first] + rest)[1..] == rest;
  }

  lemma SendFirst(s: State, first: Info, rest: seq<Info>)
    ensures StepSend(s, [first] + rest) == StepSend(StepSend(s, [first]), rest)
  {
    FirstOfOne(s.gate, s.self, first);
    DropFirst(s.gate, first, rest);
    FirstOfAll(s.gate, s.self, first, rest);
    assert (s.queued + [first]) + rest == s.queued + ([first] + rest);
  }

  lemma SendKeepsReceived(s: State, infos: seq<Info>, received: seq<Info>)
    ensures StepSend(s.(received := received), infos) == StepSend(s, infos).(received := received)
    ensures StepSend(s, infos).received == s.received
  {
  }

  lemma SendsJoin(s: State, first: Info, rest: seq<Info>)
    ensures Step(s, Send([first] + rest)) == Step(Step(s, Send([first])), Send(rest))
  {
    SendFirst(s, first, rest);
    SendKeepsReceived(s, [first], s.received);
    SendKeepsReceived(StepSend(s, [first]), rest, s.received + [first]);
    assert (s.received + [first]) + rest == s.received + ([first] + rest);
  }

  function OneByOne(infos: seq<Info>): seq<Event> {
    if infos == [] then [] else [Send([infos[0]])] + OneByOne(infos[1..])
  }

  /** A list of updates is treated like its updates sent one by one. */
  lemma {:induction false} SentOneByOne(s: State, infos: seq<Info>)
    ensures Step(s, Send(infos)) == Run(s, OneByOne(infos))
    decreases |infos|
  {
    if infos == [] {
      assert s.received + [] == s.received && s.queued + [] == s.queued;
    } else {
      assert infos == [infos[0]] + infos[1..];
      SendsJoin(s, infos[0], infos[1..]);
      SentOneByOne(Step(s, Send([infos[0]])), infos[1..]);
      assert OneByOne(infos)[1..] == OneByOne(infos[1..]);
    }
  }

  /** Looking an id up that is remembered uses it, as telling it does: it is the last to be forgotten then. */
  lemma UsedExactly(self: Id, events: seq<Event>, id: Id)
    ensures
      var g := Run(Init(self), events).gate;
      && Step(Run(Init(self), events), Lookup(id)).gate.uses
         == g.uses + (if id in Cut(Recency(g.uses)) then [id] else [])
      && Tell(g, id, 0).uses == g.uses + [id]
  {
    RunKeepsGate(Init(self), events);
    FindMeans(Run(Init(self), events).gate.cache, id);
  }

  /** How far the participant and its join response are after an event. */
  lemma PhasesExactly(s: State, e: Event)
    ensures Step(s, e).phase
         == if e == Disconnect then Disconnected
            else if e == Activate && s.phase != Disconnected then Active
            else if e == JoinTake && s.stage == Written && s.phase == Joining then Joined
            else s.phase
    ensures Step(s, e).stage
         == if e.JoinCache? && s.stage == Idle then Cached
            else if e.JoinWrite? && s.stage == Cached then (if e.ok then Written else GivenUp)
            else if e == JoinTake && s.stage == Written then Taken
            else if e == JoinReplay && s.stage == Taken then Done
            else s.stage
  {
  }

  // ---------------------------------------------------------------------------------- versions

  /** Few enough ids for the cache to forget none. */
  ghost predicate FewIds(g: Gate) { |Recency(g.uses)| <= CACHE_SIZE }

  /** Accepted versions of an id never go down, and none is above the version told last. */
  ghost predicate SortedInv(g: Gate) {
    && (forall i, j :: 0 <= i < j < |g.accepted| && g.accepted[i].sid == g.accepted[j].sid ==>
          g.accepted[i].version <= g.accepted[j].version)
    && (forall i :: 0 <= i < |g.accepted| ==>
          g.accepted[i].sid in g.told && g.accepted[i].version <= g.told[g.accepted[i].sid])
  }

  lemma {:induction false} UsesOnlyGrow(a: seq<Id>, b: seq<Id>)
    requires a <= b
    ensures |Recency(a)| <= |Recency(b)|
    decreases |b|
  {
    if a == b {
    } else {
      var shorter, last := b[..|b| - 1], b[|b| - 1];
      UsesOnlyGrow(a, shorter);
      RecencyMeans(shorter);
      WithoutDistinct(Recency(shorter), last);
      WithoutMeans(Recency(shorter), last);
    }
  }

  lemma PassOneShape(g: Gate, self: Id, info: Info)
    ensures
      var g' := PassOne(g, self, info);
      && g.uses <= g'.uses
      && if !IsStale(g, info) && !IsHidden(self, info)
         then g'.accepted == g.accepted + [info] && g'.told == g.told[info.sid := info.version]
         else g'.accepted == g.accepted && g'.told == g.told
  {
  }

  /** While the cache has forgotten nothing, what is accepted is not older than what was told. */
  lemma PassOneNotOlder(g: Gate, self: Id, info: Info)
    requires GateInv(g) && FewIds(g)
    ensures !IsStale(g, info) && info.sid in g.told ==> info.version >= g.told[info.sid]
  {
    RecencyMeans(g.uses);
    FindMeans(g.cache, info.sid);
  }

  lemma PassOneKeepsSorted(g: Gate, self: Id, info: Info)
    requires GateInv(g) && SortedInv(g) && FewIds(g)
    ensures SortedInv(PassOne(g, self, info))
  {
    PassOneShape(g, self, info);
    PassOneNotOlder(g, self, info);
  }

  lemma {:induction false} PassAllKeepsSorted(g: Gate, self: Id, infos: seq<Info>)
    requires GateInv(g) && SortedInv(g) && FewIds(PassAll(g, self, infos))
    ensures SortedInv(PassAll(g, self, infos))
    decreases |infos|
  {
    if infos != [] {
      var g1 := PassOne(g, self, infos[0]);
      PassAllUses(g, self, infos);
      UsesOnlyGrow(g.uses, PassAll(g, self, infos).uses);
      PassOneKeepsSorted(g, self, infos[0]);
      PassOneKeepsGate(g, self, infos[0]);
      PassAllKeepsSorted(g1, self, infos[1..]);
    }
  }

  lemma {:induction false} PassAllUses(g: Gate, self: Id, infos: seq<Info>)
    ensures g.uses <= PassAll(g, self, infos).uses
    decreases |infos|
  {
    if infos != [] {
      PassOneShape(g, self, infos[0]);
      PassAllUses(PassOne(g, self, infos[0]), self, infos[1..]);
    }
  }

  lemma {:induction false} TellAllShape(g: Gate, others: seq<Entry>)
    ensures g.uses <= TellAll(g, others).uses
    ensures TellAll(g, others).accepted == g.accepted && TellAll(g, others).fates == g.fates
    decreases |others|
  {
    if others != [] {
      TellAllShape(Tell(g, others[0].id, others[0].version), others[1..]);
    }
  }

  lemma StepUses(s: State, e: Event)
    ensures s.gate.uses <= Step(s, e).gate.uses
  {
    match e
    case Send(infos) => PassAllUses(s.gate, s.self, infos);
    case JoinCache(others) => TellAllShape(s.gate, others);
    case JoinReplay => PassAllUses(s.gate, s.self, s.inHand);
    case _ =>
  }

  lemma {:induction false} RunUses(s: State, events: seq<Event>)
    ensures s.gate.uses <= Run(s, events).gate.uses
    decreases |events|
  {
    if events != [] {
      StepUses(s, events[0]);
      RunUses(Step(s, events[0]), events[1..]);
    }
  }

  // ---------------------------------------------------------------------------------- joining

  /** The client connects its media only once it has been handed the join response. */
  ghost predicate Orderly(s: State, e: Event) {
    e.Activate? ==> s.stage == Written || s.stage == Taken || s.stage == Done
  }

  ghost predicate OrderlyRun(s: State, events: seq<Event>)
    decreases |events|
  {
    events != [] ==> Orderly(s, events[0]) && OrderlyRun(Step(s, events[0]), events[1..])
  }

  /** Until the join response has been handed over nothing is accepted, and nothing is ready. */
  ghost predicate JoinInv(s: State) {
    s.stage == Idle || s.stage == Cached || s.stage == GivenUp ==> !IsReady(s.phase) && s.gate.accepted == []
  }

  lemma StepKeepsJoin(s: State, e: Event)
    requires JoinInv(s) && Orderly(s, e)
    ensures JoinInv(Step(s, e))
  {
    if e.JoinCache? {
      TellAllShape(s.gate, e.others);
    }
  }

  lemma {:induction false} RunKeepsJoin(s: State, events: seq<Event>)
    requires JoinInv(s) && OrderlyRun(s, events)
    ensures JoinInv(Run(s, events))
    decreases |events|
  {
    if events != [] {
      StepKeepsJoin(s, events[0]);
      RunKeepsJoin(Step(s, events[0]), events[1..]);
    }
  }

  /** No update is accepted for sending before the join response has been handed over. */
  lemma NothingBeforeJoin(self: Id, events: seq<Event>)
    requires OrderlyRun(Init(self), events)
    ensures
      var s := Run(Init(self), events);
      s.gate.accepted != [] ==> s.stage == Written || s.stage == Taken || s.stage == Done
  {
    RunKeepsJoin(Init(self), events);
  }

  /** A participant made active too early is sent updates before its join response. */
  lemma EarlyActivation(self: Id, info: Info)
    requires !IsHidden(self, info)
    ensures
      var s := Run(Init(self), [Activate, Send([info])]);
      s.stage == Idle && s.gate.accepted == [info]
  {
    var s1 := Step(Init(self), Activate);
    assert [Activate, Send([info])][1..] == [Send([info])];
    assert [Send([info])][1..] == [];
    assert PassAll(s1.gate, self, [info]) == PassOne(s1.gate, self, info);
    assert Run(s1, [Send([info])]) == Step(s1, Send([info]));
  }

  /** While the join response is not handed over, a participant is not yet joined. */
  lemma {:induction false} NotJoinedBefore(s: State, events: seq<Event>)
    requires s.phase == Joined ==> s.stage == Taken || s.stage == Done
    ensures Run(s, events).phase == Joined ==> Run(s, events).stage == Taken || Run(s, events).stage == Done
    decreases |events|
  {
    if events != [] {
      NotJoinedBefore(Step(s, events[0]), events[1..]);
    }
  }

  /**
   Before the join response an update that passes the gate is accepted exactly when the participant was made
   active.
   */
  lemma EarlyExactly(self: Id, events: seq<Event>, info: Info)
    requires Run(Init(self), events).stage in {Idle, Cached, GivenUp}
    requires !IsStale(Run(Init(self), events).gate, info)
    requires !IsHidden(Run(Init(self), events).self, info)
    ensures
      var s := Run(Init(self), events);
      Step(s, Send([info])).gate.accepted != s.gate.accepted <==> s.phase == Active
  {
    NotJoinedBefore(Init(self), events);
    var s := Run(Init(self), events);
    assert [info][1..] == [];
    assert PassAll(s.gate, s.self, [info]) == PassOne(s.gate, s.self, info);
  }

  lemma StepKeepsSorted(s: State, e: Event)
    requires GateInv(s.gate) && SortedInv(s.gate) && JoinInv(s) && FewIds(Step(s, e).gate)
    ensures SortedInv(Step(s, e).gate)
  {
    match e
    case Send(infos) =>
      if IsReady(s.phase) {
        PassAllKeepsSorted(s.gate, s.self, infos);
      }
    case JoinReplay =>
      if IsReady(s.phase) && s.stage == Taken && s.inHand != [] {
        PassAllKeepsSorted(s.gate, s.self, s.inHand);
      }
    case JoinCache(others) => TellAllShape(s.gate, others);
    case _ =>
  }

  lemma {:induction false} RunKeepsSorted(s: State, events: seq<Event>)
    requires GateInv(s.gate) && SortedInv(s.gate) && JoinInv(s)
    requires OrderlyRun(s, events) && FewIds(Run(s, events).gate)
    ensures SortedInv(Run(s, events).gate)
    decreases |events|
  {
    if events != [] {
      var s1 := Step(s, events[0]);
      RunUses(s1, events[1..]);
      UsesOnlyGrow(s1.gate.uses, Run(s, events).gate.uses);
      StepKeepsSorted(s, events[0]);
      StepKeepsGate(s, events[0]);
      StepKeepsJoin(s, events[0]);
      RunKeepsSorted(s1, events[1..]);
    }
  }

  /** With at most 128 distinct ids, the accepted versions of each id never go down. */
  lemma VersionsNeverGoDown(self: Id, events: seq<Event>, i: nat, j: nat)
    requires OrderlyRun(Init(self), events) && FewIds(Run(Init(self), events).gate)
    requires i < j < |Run(Init(self), events).gate.accepted|
    requires Run(Init(self), events).gate.accepted[i].sid == Run(Init(self), events).gate.accepted[j].sid
    ensures Run(Init(self), events).gate.accepted[i].version <= Run(Init(self), events).gate.accepted[j].version
  {
    RunKeepsSorted(Init(self), events);
  }

  /** Nothing told or accepted is older than a base of versions, say those of the join response. */
  ghost predicate AboveBase(g: Gate, base: map<Id, nat>) {
    && (forall id :: id in base ==> id in g.told && g.told[id] >= base[id])
    && (forall i :: 0 <= i < |g.accepted| && g.accepted[i].sid in base ==>
          g.accepted[i].version >= base[g.accepted[i].sid])
  }

  lemma PassOneKeepsAbove(g: Gate, self: Id, info: Info, base: map<Id, nat>)
    requires GateInv(g) && AboveBase(g, base) && FewIds(g)
    ensures AboveBase(PassOne(g, self, info), base)
  {
    PassOneShape(g, self, info);
    PassOneNotOlder(g, self, info);
  }

  lemma {:induction false} PassAllKeepsAbove(g: Gate, self: Id, infos: seq<Info>, base: map<Id, nat>)
    requires GateInv(g) && AboveBase(g, base) && FewIds(PassAll(g, self, infos))
    ensures AboveBase(PassAll(g, self, infos), base)
    decreases |infos|
  {
    if infos != [] {
      PassAllUses(g, self, infos);
      UsesOnlyGrow(g.uses, PassAll(g, self, infos).uses);
      PassOneKeepsAbove(g, self, infos[0], base);
      PassOneKeepsGate(g, self, infos[0]);
      PassAllKeepsAbove(PassOne(g, self, infos[0]), self, infos[1..], base);
    }
  }

  lemma StepKeepsAbove(s: State, e: Event, base: map<Id, nat>)
    requires GateInv(s.gate) && AboveBase(s.gate, base) && s.stage != Idle && FewIds(Step(s, e).gate)
    ensures AboveBase(Step(s, e).gate, base)
  {
    match e
    case Send(infos) =>
      if IsReady(s.phase) {
        PassAllKeepsAbove(s.gate, s.self, infos, base);
      }
    case JoinReplay =>
      if IsReady(s.phase) && s.stage == Taken && s.inHand != [] {
        PassAllKeepsAbove(s.gate, s.self, s.inHand, base);
      }
    case _ =>
  }

  lemma {:induction false} RunKeepsAbove(s: State, events: seq<Event>, base: map<Id, nat>)
    requires GateInv(s.gate) && AboveBase(s.gate, base) && s.stage != Idle && FewIds(Run(s, events).gate)
    ensures AboveBase(Run(s, events).gate, base)
    decreases |events|
  {
    if events != [] {
      var s1 := Step(s, events[0]);
      RunUses(s1, events[1..]);
      UsesOnlyGrow(s1.gate.uses, Run(s, events).gate.uses);
      StepKeepsAbove(s, events[0], base);
      StepKeepsGate(s, events[0]);
      RunKeepsAbove(s1, events[1..], base);
    }
  }

  lemma {:induction false} TellAllTells(g: Gate, others: seq<Entry>, i: nat)
    requires i < |others|
    requires forall j :: i < j < |others| ==> others[j].id != others[i].id
    ensures others[i].id in TellAll(g, others).told && TellAll(g, others).told[others[i].id] == others[i].version
    decreases |others|
  {
    if i == 0 {
      TellAllElsewhere(Tell(g, others[0].id, others[0].version), others[1..], others[0].id);
    } else {
      TellAllTells(Tell(g, others[0].id, others[0].version), others[1..], i - 1);
    }
  }

  lemma {:induction false} TellAllElsewhere(g: Gate, others: seq<Entry>, id: Id)
    requires id in g.told && forall j :: 0 <= j < |others| ==> others[j].id != id
    ensures id in TellAll(g, others).told && TellAll(g, others).told[id] == g.told[id]
    decreases |others|
  {
    if others != [] {
      TellAllElsewhere(Tell(g, others[0].id, others[0].version), others[1..], id);
    }
  }

  /** Nor does any update accepted, before or after, go below the version the join response gave for its id. */
  lemma NotBelowJoin(self: Id, before: seq<Event>, others: seq<Entry>, after: seq<Event>, i: nat, k: nat)
    requires OrderlyRun(Init(self), before) && Run(Init(self), before).stage == Idle
    requires FewIds(Run(Step(Run(Init(self), before), JoinCache(others)), after).gate)
    requires i < |others| && forall j :: i < j < |others| ==> others[j].id != others[i].id
    requires k < |Run(Step(Run(Init(self), before), JoinCache(others)), after).gate.accepted|
    ensures
      var accepted := Run(Step(Run(Init(self), before), JoinCache(others)), after).gate.accepted;
      accepted[k].sid == others[i].id ==> accepted[k].version >= others[i].version
  {
    var s := Run(Init(self), before);
    var s1 := Step(s, JoinCache(others));
    RunKeepsGate(Init(self), before);
    RunKeepsJoin(Init(self), before);
    StepKeepsGate(s, JoinCache(others));
    TellAllTells(s.gate, others, i);
    TellAllShape(s.gate, others);
    RunKeepsAbove(s1, after, map[others[i].id := others[i].version]);
  }

  // ---------------------------------------------------------------------------------- forgetting

  /** The ids n, n - 1, and so on down to 0. */
  function Down(n: nat): seq<Id> { [n] + if n == 0 then [] else Down(n - 1) }

  lemma {:induction false} DownMeans(n: nat)
    ensures |Down(n)| == n + 1 && forall i :: 0 <= i <= n ==> Down(n)[i] == n - i
  {
    if n > 0 {
      DownMeans(n - 1);
    }
  }

  lemma NewestOnTop(n: nat)
    ensures [n + 1] + Without(Down(n), n + 1) == Down(n + 1)
  {
    DownMeans(n);
    WithoutMeans(Down(n), n + 1);
  }

  /** First versions of `count` more ids, from `next` on. */
  function Newcomers(next: Id, count: nat): seq<Info>
    decreases count
  {
    if count == 0 then [] else [Info(next, 0, false)] + Newcomers(next + 1, count - 1)
  }

  /** Just the ids up to `n` were used, in their order; the first update accepted was of id 0, at version 5. */
  ghost predicate UsedUpTo(g: Gate, n: nat) {
    GateInv(g) && Recency(g.uses) == Down(n) && 0 < |g.accepted| && g.accepted[0] == Info(0, 5, false)
  }

  lemma NewcomerPasses(g: Gate, self: Id, n: nat)
    requires UsedUpTo(g, n)
    ensures UsedUpTo(PassOne(g, self, Info(n + 1, 0, false)), n + 1)
  {
    var info := Info(n + 1, 0, false);
    RecencyMeans(g.uses);
    DownMeans(n);
    FindMeans(g.cache, n + 1);
    assert n + 1 !in g.told;
    assert Find(g.cache, n + 1).None?;
    PassOneKeepsGate(g, self, info);
    RecencyAfter(g.uses, n + 1);
    NewestOnTop(n);
    assert PassOne(g, self, info).uses == g.uses + [n + 1];
  }

  /** What each newcomer keeps, all of them keep. */
  lemma {:induction false} NewcomersKeep(g: Gate, self: Id, n: nat, count: nat, holds: (Gate, nat) -> bool)
    requires holds(g, n)
    requires forall h, k: nat :: holds(h, k) ==> holds(PassOne(h, self, Info(k + 1, 0, false)), k + 1)
    ensures holds(PassAll(g, self, Newcomers(n + 1, count)), n + count)
    decreases count
  {
    if count == 0 {
    } else {
      NewcomersKeep(PassOne(g, self, Info(n + 1, 0, false)), self, n + 1, count - 1, holds);
      NewcomersSplit(g, self, n + 1, count);
    }
  }

  lemma NewcomersPass(g: Gate, self: Id, n: nat, count: nat)
    requires UsedUpTo(g, n)
    ensures UsedUpTo(PassAll(g, self, Newcomers(n + 1, count)), n + count)
  {
    ghost var holds := (h: Gate, k: nat) => UsedUpTo(h, k);
    forall h, k: nat | holds(h, k)
      ensures holds(PassOne(h, self, Info(k + 1, 0, false)), k + 1)
    {
      NewcomerPasses(h, self, k);
    }
    NewcomersKeep(g, self, n, count, holds);
  }

  lemma NewcomersSplit(g: Gate, self: Id, next: Id, count: nat)
    requires count > 0
    ensures PassAll(g, self, Newcomers(next, count))
         == PassAll(PassOne(g, self, Info(next, 0, false)), self, Newcomers(next + 1, count - 1))
  {
    FirstOfAll(g, self, Info(next, 0, false), Newcomers(next + 1, count - 1));
  }

  lemma FirstOfAll(g: Gate, self: Id, first: Info, rest: seq<Info>)
    ensures PassAll(g, self, [first] + rest) == PassAll(PassOne(g, self, first), self, rest)
  {
    assert ([first] + rest)[1..] == rest;
  }

  lemma FirstIsForgotten(g: Gate, self: Id, n: nat)
    requires UsedUpTo(g, n) && n >= CACHE_SIZE
    ensures PassOne(g, self, Info(0, 4, false)).accepted == g.accepted + [Info(0, 4, false)]
  {
    DownMeans(n);
    FindMeans(g.cache, 0);
    PassOneShape(g, self, Info(0, 4, false));
  }

  lemma PassSingle(g: Gate, self: Id, info: Info)
    ensures PassAll(g, self, [info]) == PassOne(g, self, info)
  {
    assert [info][1..] == [];
  }

  /** A participant that joined an empty room. */
  function JoinedAlone(self: Id): State { Init(self).(phase := Joined, stage := Done) }

  /** The steps of joining an empty room. */
  function JoinsAlone(): seq<Event> { [JoinCache([]), JoinWrite(true), JoinTake, JoinReplay] }

  lemma JoiningAlone(self: Id)
    ensures Run(Init(self), JoinsAlone()) == JoinedAlone(self)
    ensures OrderlyRun(Init(self), JoinsAlone())
  {
    var e0, e1, e2, e3 := JoinCache([]), JoinWrite(true), JoinTake, JoinReplay;
    assert [e0, e1, e2, e3][1..] == [e1, e2, e3] && [e1, e2, e3][1..] == [e2, e3];
    assert [e2, e3][1..] == [e3] && [e3][1..] == [];
    var s1 := Step(Init(self), e0);
    var s2 := Step(s1, e1);
    var s3 := Step(s2, e2);
    assert s1 == Init(self).(stage := Cached) && s2 == s1.(stage := Written);
    assert s3 == s2.(phase := Joined, stage := Taken, queued := [], inHand := []);
    assert Run(s3, [e3]) == Step(s3, e3);
    assert Run(s2, [e2, e3]) == Run(s3, [e3]);
    assert OrderlyRun(s2, [e2, e3]) && OrderlyRun(s1, [e1, e2, e3]);
  }

  lemma {:induction false} RunJoins(s: State, before: seq<Event>, after: seq<Event>)
    ensures Run(s, before + after) == Run(Run(s, before), after)
    decreases |before|
  {
    if before == [] {
      assert before + after == after;
    } else {
      assert (before + after)[1..] == before[1..] + after;
      RunJoins(Step(s, before[0]), before[1..], after);
    }
  }

  lemma FirstIsTold(self: Id)
    ensures UsedUpTo(Step(JoinedAlone(self), Send([Info(0, 5, false)])).gate, 0)
  {
    var g := JoinedAlone(self).gate;
    PassSingle(g, self, Info(0, 5, false));
    PassOneKeepsGate(g, self, Info(0, 5, false));
    RecencyAfter([], 0);
    assert PassOne(g, self, Info(0, 5, false)).uses == [] + [0];
  }

  lemma RunThree(s: State, e0: Event, e1: Event, e2: Event)
    ensures Run(s, [e0, e1, e2]) == Step(Step(Step(s, e0), e1), e2)
  {
    assert [e0, e1, e2][1..] == [e1, e2] && [e1, e2][1..] == [e2] && [e2][1..] == [];
    assert Run(Step(s, e0), [e1, e2]) == Run(Step(Step(s, e0), e1), [e2]);
  }

  lemma AfterNewcomers(self: Id, others: nat)
    ensures var s := Step(Step(JoinedAlone(self), Send([Info(0, 5, false)])), Send(Newcomers(1, others)));
            UsedUpTo(s.gate, others) && s.phase == Joined && s.self == self
  {
    FirstIsTold(self);
    NewcomersPass(Step(JoinedAlone(self), Send([Info(0, 5, false)])).gate, self, 0, others);
  }

  /**
   Having joined, told of one id at version 5, then of 128 others or more, a participant is told of the
   first one at version 4.
   */
  lemma OlderVersionTold(self: Id, others: nat)
    requires others >= CACHE_SIZE
    ensures
      var sends := [Send([Info(0, 5, false)]), Send(Newcomers(1, others)), Send([Info(0, 4, false)])];
      var accepted := Run(Init(self), JoinsAlone() + sends).gate.accepted;
      1 < |accepted| && accepted[0] == Info(0, 5, false) && accepted[|accepted| - 1] == Info(0, 4, false)
  {
    var e0, e1, e2 := Send([Info(0, 5, false)]), Send(Newcomers(1, others)), Send([Info(0, 4, false)]);
    JoiningAlone(self);
    RunJoins(Init(self), JoinsAlone(), [e0, e1, e2]);
    RunThree(JoinedAlone(self), e0, e1, e2);
    var s := Step(Step(JoinedAlone(self), e0), e1);
    AfterNewcomers(self, others);
    FirstIsForgotten(s.gate, self, others);
    PassSingle(s.gate, self, Info(0, 4, false));
  }

  // ---------------------------------------------------------------------------------- nothing lost

  /** How often something became of an update. */
  function Settled(fates: seq<(Info, Fate)>, x: Info): nat
    decreases |fates|
  {
    if fates == [] then 0
    else Settled(fates[..|fates| - 1], x) + if fates[|fates| - 1].0 == x then 1 else 0
  }

  function AcceptedOf(fates: seq<(Info, Fate)>): seq<Info>
    decreases |fates|
  {
    if fates == [] then []
    else
      var last := fates[|fates| - 1];
      AcceptedOf(fates[..|fates| - 1]) + if last.1 == Accepted then [last.0] else []
  }

  /** Every update handed in has one fate, or is in the queue, or is in hand for replay. */
  ghost predicate LedgerFor(s: State, x: Info) {
    Tally(s.received, x) == Settled(s.gate.fates, x) + Tally(s.queued, x) + Tally(s.inHand, x)
  }

  /** The queue is for the time before the join response only. */
  ghost predicate QueueInv(s: State) {
    && (s.stage == Taken || s.stage == Done ==> s.phase != Joining && s.queued == [])
    && (s.stage != Taken ==> s.inHand == [])
  }

  lemma OneFate(g: Gate, self: Id, info: Info)
    ensures
      var g' := PassOne(g, self, info);
      var fate := if IsStale(g, info) then Stale else if IsHidden(self, info) then Hidden else Accepted;
      g'.fates == g.fates + [(info, fate)]
  {
  }

  lemma FatesExtend(fates: seq<(Info, Fate)>, info: Info, fate: Fate, x: Info)
    ensures Settled(fates + [(info, fate)], x) == Settled(fates, x) + if info == x then 1 else 0
    ensures AcceptedOf(fates + [(info, fate)]) == AcceptedOf(fates) + if fate == Accepted then [info] else []
  {
    assert (fates + [(info, fate)])[..|fates|] == fates;
  }

  lemma {:induction false} PassAllSettles(g: Gate, self: Id, infos: seq<Info>, x: Info)
    ensures Settled(PassAll(g, self, infos).fates, x) == Settled(g.fates, x) + Tally(infos, x)
    decreases |infos|
  {
    if infos != [] {
      var g1 := PassOne(g, self, infos[0]);
      OneFate(g, self, infos[0]);
      FatesExtend(g.fates, infos[0], g1.fates[|g.fates|].1, x);
      PassAllSettles(g1, self, infos[1..], x);
    }
  }

  lemma {:induction false} DropAllSettles(g: Gate, infos: seq<Info>, x: Info)
    ensures Settled(DropAll(g, infos).fates, x) == Settled(g.fates, x) + Tally(infos, x)
    decreases |infos|
  {
    if infos != [] {
      FatesExtend(g.fates, infos[0], Dropped, x);
      DropAllSettles(g.(fates := g.fates + [(infos[0], Dropped)]), infos[1..], x);
    }
  }

  lemma SendSettles(s: State, infos: seq<Info>, x: Info)
    ensures
      var s' := StepSend(s, infos);
      Settled(s'.gate.fates, x) + Tally(s'.queued, x) == Settled(s.gate.fates, x) + Tally(s.queued, x) + Tally(infos, x)
  {
    if s.phase == Disconnected {
      DropAllSettles(s.gate, infos, x);
    } else if IsReady(s.phase) {
      PassAllSettles(s.gate, s.self, infos, x);
    } else {
      TallyAppends(s.queued, infos, x);
    }
  }

  lemma StepKeepsQueue(s: State, e: Event)
    requires QueueInv(s)
    ensures QueueInv(Step(s, e))
  {
  }

  lemma StepKeepsLedger(s: State, e: Event, x: Info)
    requires LedgerFor(s, x) && QueueInv(s)
    ensures LedgerFor(Step(s, e), x)
  {
    match e
    case Send(infos) =>
      SendSettles(s, infos, x);
      TallyAppends(s.received, infos, x);
    case JoinReplay => SendSettles(s, s.inHand, x);
    case JoinCache(others) => TellAllShape(s.gate, others);
    case _ =>
  }

  lemma {:induction false} RunKeepsLedger(s: State, events: seq<Event>, x: Info)
    requires LedgerFor(s, x) && QueueInv(s)
    ensures LedgerFor(Run(s, events), x) && QueueInv(Run(s, events))
    decreases |events|
  {
    if events != [] {
      StepKeepsLedger(s, events[0], x);
      StepKeepsQueue(s, events[0]);
      RunKeepsLedger(Step(s, events[0]), events[1..], x);
    }
  }

  /**
   What became of an update is told truly: its version or a later one was told, or it is hidden, or the
   client has gone.
   */
  ghost predicate FateTrue(self: Id, told: map<Id, nat>, gone: bool, fate: (Info, Fate)) {
    match fate.1
    case Accepted => fate.0.sid in told && fate.0.version <= told[fate.0.sid]
    case Stale => fate.0.sid in told && fate.0.version < told[fate.0.sid]
    case Hidden => IsHidden(self, fate.0)
    case Dropped => gone
  }

  ghost predicate FatesTrue(self: Id, gone: bool, g: Gate) {
    AcceptedOf(g.fates) == g.accepted && AllTrue(self, g.told, gone, g.fates)
  }

  ghost predicate AllTrue(self: Id, told: map<Id, nat>, gone: bool, fates: seq<(Info, Fate)>) {
    forall i :: 0 <= i < |fates| ==> FateTrue(self, told, gone, fates[i])
  }

  lemma FateStaysTrue(self: Id, told: map<Id, nat>, told': map<Id, nat>, gone: bool, gone': bool, fate: (Info, Fate))
    requires FateTrue(self, told, gone, fate) && (gone ==> gone')
    requires fate.1 == Stale || fate.1 == Accepted ==> fate.0.sid in told' && told'[fate.0.sid] >= told[fate.0.sid]
    ensures FateTrue(self, told', gone', fate)
  {
  }

  lemma NewFateTrue(g: Gate, self: Id, gone: bool, info: Info)
    requires GateInv(g)
    ensures |PassOne(g, self, info).fates| == |g.fates| + 1
    ensures FateTrue(self, PassOne(g, self, info).told, gone, PassOne(g, self, info).fates[|g.fates|])
  {
    OneFate(g, self, info);
    PassOneShape(g, self, info);
    if IsStale(g, info) {
      assert Find(g.cache, info.sid).Some?;
    }
  }

  lemma AllStayTrue(
    self: Id, told: map<Id, nat>, told': map<Id, nat>, gone: bool, fates: seq<(Info, Fate)>, info: Info, fate: Fate)
    requires AllTrue(self, told, gone, fates) && FateTrue(self, told', gone, (info, fate))
    requires forall id :: id in told ==> id in told' && told'[id] >= told[id]
    ensures AllTrue(self, told', gone, fates + [(info, fate)])
  {
    forall i | 0 <= i < |fates|
      ensures FateTrue(self, told', gone, fates[i])
    {
      FateStaysTrue(self, told, told', gone, gone, fates[i]);
    }
  }

  lemma PassOneTold(g: Gate, self: Id, info: Info)
    requires GateInv(g) && FewIds(g)
    ensures forall id :: id in g.told ==>
              id in PassOne(g, self, info).told && PassOne(g, self, info).told[id] >= g.told[id]
  {
    PassOneShape(g, self, info);
    PassOneNotOlder(g, self, info);
  }

  lemma PassOneKeepsFates(g: Gate, self: Id, gone: bool, info: Info)
    requires GateInv(g) && FewIds(g) && FatesTrue(self, gone, g)
    ensures FatesTrue(self, gone, PassOne(g, self, info))
  {
    var g' := PassOne(g, self, info);
    var fate := if IsStale(g, info) then Stale else if IsHidden(self, info) then Hidden else Accepted;
    assert g'.fates == g.fates + [(info, fate)] by { OneFate(g, self, info); }
    assert AcceptedOf(g'.fates) == g'.accepted by {
      FatesExtend(g.fates, info, fate, info);
      PassOneShape(g, self, info);
    }
    assert AllTrue(self, g'.told, gone, g'.fates) by {
      PassOneTold(g, self, info);
      NewFateTrue(g, self, gone, info);
      AllStayTrue(self, g.told, g'.told, gone, g.fates, info, fate);
    }
  }

  lemma {:induction false} PassAllKeepsFates(g: Gate, self: Id, gone: bool, infos: seq<Info>)
    requires GateInv(g) && FewIds(PassAll(g, self, infos)) && FatesTrue(self, gone, g)
    ensures FatesTrue(self, gone, PassAll(g, self, infos))
    decreases |infos|
  {
    if infos != [] {
      PassAllUses(g, self, infos);
      UsesOnlyGrow(g.uses, PassAll(g, self, infos).uses);
      PassOneKeepsFates(g, self, gone, infos[0]);
      PassOneKeepsGate(g, self, infos[0]);
      PassAllKeepsFates(PassOne(g, self, infos[0]), self, gone, infos[1..]);
    }
  }

  lemma {:induction false} DropAllKeepsFates(g: Gate, self: Id, infos: seq<Info>)
    requires FatesTrue(self, true, g)
    ensures FatesTrue(self, true, DropAll(g, infos))
    decreases |infos|
  {
    if infos != [] {
      FatesExtend(g.fates, infos[0], Dropped, infos[0]);
      DropAllKeepsFates(g.(fates := g.fates + [(infos[0], Dropped)]), self, infos[1..]);
    }
  }

  lemma SendKeepsFates(s: State, infos: seq<Info>)
    requires GateInv(s.gate) && FewIds(StepSend(s, infos).gate)
    requires FatesTrue(s.self, s.phase == Disconnected, s.gate)
    ensures FatesTrue(s.self, s.phase == Disconnected, StepSend(s, infos).gate)
  {
    if s.phase == Disconnected {
      DropAllKeepsFates(s.gate, s.self, infos);
    } else if IsReady(s.phase) {
      PassAllKeepsFates(s.gate, s.self, false, infos);
    }
  }

  /** Until the join response has been handed over, fates can only be drops. */
  ghost predicate NoFatesYet(s: State) {
    s.stage == Idle ==> forall i :: 0 <= i < |s.gate.fates| ==> s.gate.fates[i].1 == Dropped
  }

  lemma {:induction false} DropAllOnlyDrops(g: Gate, infos: seq<Info>)
    ensures forall i :: 0 <= i < |DropAll(g, infos).fates| ==>
      DropAll(g, infos).fates[i].1 == Dropped || (i < |g.fates| && DropAll(g, infos).fates[i] == g.fates[i])
    decreases |infos|
  {
    if infos != [] {
      DropAllOnlyDrops(g.(fates := g.fates + [(infos[0], Dropped)]), infos[1..]);
    }
  }

  lemma StepKeepsNoFates(s: State, e: Event)
    requires JoinInv(s) && QueueInv(s) && NoFatesYet(s)
    ensures NoFatesYet(Step(s, e))
  {
    if e.Send? {
      DropAllOnlyDrops(s.gate, e.infos);
    }
  }

  lemma JoinCacheKeepsFates(s: State, others: seq<Entry>)
    requires NoFatesYet(s) && FatesTrue(s.self, s.phase == Disconnected, s.gate)
    ensures FatesTrue(s.self, s.phase == Disconnected, Step(s, JoinCache(others)).gate)
  {
    TellAllShape(s.gate, others);
    var g' := TellAll(s.gate, others);
    if s.stage == Idle {
      forall i | 0 <= i < |s.gate.fates|
        ensures FateTrue(s.self, g'.told, s.phase == Disconnected, s.gate.fates[i])
      {
        FateStaysTrue(s.self, s.gate.told, g'.told, s.phase == Disconnected, s.phase == Disconnected, s.gate.fates[i]);
      }
    }
  }

  lemma OtherStepKeepsFates(s: State, e: Event)
    requires e.JoinWrite? || e.JoinTake? || e.Activate? || e.Disconnect?
    requires FatesTrue(s.self, s.phase == Disconnected, s.gate)
    ensures FatesTrue(s.self, Step(s, e).phase == Disconnected, Step(s, e).gate)
  {
    forall i | 0 <= i < |s.gate.fates|
      ensures FateTrue(s.self, s.gate.told, Step(s, e).phase == Disconnected, s.gate.fates[i])
    {
      FateStaysTrue(s.self, s.gate.told, s.gate.told, s.phase == Disconnected, Step(s, e).phase == Disconnected,
                    s.gate.fates[i]);
    }
  }

  lemma StepKeepsFates(s: State, e: Event)
    requires GateInv(s.gate) && FewIds(Step(s, e).gate) && NoFatesYet(s)
    requires FatesTrue(s.self, s.phase == Disconnected, s.gate)
    ensures FatesTrue(s.self, Step(s, e).phase == Disconnected, Step(s, e).gate)
  {
    match e
    case Send(infos) => SendKeepsFates(s, infos);
    case JoinReplay =>
      if s.stage == Taken && s.inHand != [] {
        SendKeepsFates(s, s.inHand);
      }
    case JoinCache(others) => JoinCacheKeepsFates(s, others);
    case Lookup(id) => LookedKeepsGate(s.gate, id);
    case _ => OtherStepKeepsFates(s, e);
  }

  lemma {:induction false} RunKeepsFates(s: State, events: seq<Event>)
    requires GateInv(s.gate) && NoFatesYet(s) && JoinInv(s) && QueueInv(s)
    requires FatesTrue(s.self, s.phase == Disconnected, s.gate)
    requires OrderlyRun(s, events) && FewIds(Run(s, events).gate)
    ensures Run(s, events).self == s.self
    ensures FatesTrue(s.self, Run(s, events).phase == Disconnected, Run(s, events).gate)
    decreases |events|
  {
    if events != [] {
      var s1 := Step(s, events[0]);
      assert s1.self == s.self;
      RunUses(s1, events[1..]);
      UsesOnlyGrow(s1.gate.uses, Run(s, events).gate.uses);
      StepKeepsFates(s, events[0]);
      StepKeepsNoFates(s, events[0]);
      StepKeepsGate(s, events[0]);
      StepKeepsJoin(s, events[0]);
      StepKeepsQueue(s, events[0]);
      RunKeepsFates(s1, events[1..]);
    }
  }

  /**
   After any run every update handed in is accepted, stale, hidden, dropped because the participant has
   gone, or still waits for the join response; once that has been dealt with nothing waits.
   */
  lemma EveryUpdateResolved(self: Id, events: seq<Event>, x: Info)
    requires OrderlyRun(Init(self), events) && FewIds(Run(Init(self), events).gate)
    ensures
      var s := Run(Init(self), events);
      && LedgerFor(s, x)
      && FatesTrue(self, s.phase == Disconnected, s.gate)
      && (s.stage == Taken || s.stage == Done ==> s.queued == [])
      && (s.stage != Taken ==> s.inHand == [])
  {
    RunKeepsLedger(Init(self), events, x);
    RunKeepsFates(Init(self), events);
  }

  lemma {:induction false} SettledSomewhere(fates: seq<(Info, Fate)>, x: Info) returns (i: nat)
    requires Settled(fates, x) > 0
    ensures i < |fates| && fates[i].0 == x
    decreases |fates|
  {
    if fates[|fates| - 1].0 == x {
      i := |fates| - 1;
    } else {
      i := SettledSomewhere(fates[..|fates| - 1], x);
    }
  }

  /**
   A client that has joined and not left was told of every update handed in that is not hidden: its version
   or a later one.
   */
  lemma EveryUpdateTold(self: Id, events: seq<Event>, x: Info)
    requires OrderlyRun(Init(self), events) && FewIds(Run(Init(self), events).gate)
    requires Run(Init(self), events).stage == Done && Run(Init(self), events).phase != Disconnected
    requires Tally(Run(Init(self), events).received, x) > 0 && !IsHidden(self, x)
    ensures
      var told := Run(Init(self), events).gate.told;
      x.sid in told && told[x.sid] >= x.version
  {
    EveryUpdateResolved(self, events, x);
    var s := Run(Init(self), events);
    var i := SettledSomewhere(s.gate.fates, x);
    assert FateTrue(self, s.gate.told, false, s.gate.fates[i]);
  }
}
