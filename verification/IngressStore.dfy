/**
 Ingress records in Redis: a table by ingress id, an index of ingress ids by room, and a state per
 ingress. Stores are optimistic transactions: read, then write everything at once unless a watched
 key changed in between. Other clients run between the read and the write.
 */
module IngressStore {
  import opened Common

  type IngressId = nat
  type RoomName = nat

  /** When an ingress session started, and when its state was last reported. */
  datatype IngressState = IngressState(startedAt: int, updatedAt: int)
  {
    predicate OlderThan(other: IngressState) {
      startedAt < other.startedAt || (startedAt == other.startedAt && updatedAt < other.updatedAt)
    }
  }

  const NO_STATE := IngressState(0, 0)

  /**
   The keys that matter: the ingress table (the room of each ingress, None for the empty name), the
   room sets as (room, id) pairs, the states, and for each watched key how often it was changed.
   */
  datatype Redis = Redis(
    ingress: map<IngressId, Option<RoomName>>, members: set<(RoomName, IngressId)>,
    states: map<IngressId, IngressState>, tableVersion: nat, stateVersions: map<IngressId, nat>)
  {
    function StoredRoom(id: IngressId): Option<RoomName> { if id in ingress then ingress[id] else None }

    function StoredState(id: IngressId): IngressState { if id in states then states[id] else NO_STATE }

    function StateVersion(id: IngressId): nat { if id in stateVersions then stateVersions[id] else 0 }

    function Leave(room: Option<RoomName>, id: IngressId): set<(RoomName, IngressId)> {
      if room.Some? then members - {(room.value, id)} else members
    }
  }

  /** A transaction between its read and its write: what it wants to write, what it read, and when. */
  datatype Transaction =
    | StoreTx(id: IngressId, room: Option<RoomName>, oldRoom: Option<RoomName>, version: nat)
    | StateTx(id: IngressId, state: IngressState, oldState: IngressState, version: nat)

  datatype State = State(db: Redis, pending: map<nat, Transaction>)

  datatype Event =
    | BeginStore(tx: nat, id: IngressId, room: Option<RoomName>)
    | BeginState(tx: nat, id: IngressId, state: IngressState)
    | Commit(tx: nat)
    | Delete(id: IngressId, room: Option<RoomName>)

  // ---------------------------------------------------------------------------------- steps

  /** The write of a store: table, and index if the room changed. */
  function WriteIngress(db: Redis, id: IngressId, oldRoom: Option<RoomName>, room: Option<RoomName>): Redis {
    db.(ingress := db.ingress[id := room],
        tableVersion := db.tableVersion + 1,
        members := if oldRoom == room then db.members
                   else db.Leave(oldRoom, id) + (if room.Some? then {(room.value, id)} else {}))
  }

  /** The write of a state report, refused when what was read is more recent. */
  function WriteState(db: Redis, id: IngressId, oldState: IngressState, state: IngressState): Redis {
    if state.OlderThan(oldState) then db
    else db.(states := db.states[id := state], stateVersions := db.stateVersions[id := db.StateVersion(id) + 1])
  }

  /** The write half of a transaction: nothing is written when the watched key has changed. */
  function Execute(db: Redis, tx: Transaction): Redis {
    match tx
    case StoreTx(id, room, oldRoom, version) =>
      if version == db.tableVersion then WriteIngress(db, id, oldRoom, room) else db
    case StateTx(id, state, oldState, version) =>
      if version == db.StateVersion(id) then WriteState(db, id, oldState, state) else db
  }

  /** Deletes the record, its state, and its entry under the room the caller names. */
  function DeleteIngress(db: Redis, id: IngressId, room: Option<RoomName>): Redis {
    Redis(db.ingress - {id}, db.Leave(room, id), db.states - {id},
          if id in db.ingress then db.tableVersion + 1 else db.tableVersion,
          if id in db.states then db.stateVersions[id := db.StateVersion(id) + 1] else db.stateVersions)
  }

  function Step(s: State, e: Event): State {
    match e
    case BeginStore(tx, id, room) =>
      s.(pending := s.pending[tx := StoreTx(id, room, s.db.StoredRoom(id), s.db.tableVersion)])
    case BeginState(tx, id, state) =>
      s.(pending := s.pending[tx := StateTx(id, state, s.db.StoredState(id), s.db.StateVersion(id))])
    case Commit(tx) =>
      if tx in s.pending then State(Execute(s.db, s.pending[tx]), s.pending - {tx}) else s
    case Delete(id, room) => s.(db := DeleteIngress(s.db, id, room))
  }

  function Run(s: State, events: seq<Event>): State
    decreases |events|
  {
    if events == [] then s else Run(Step(s, events[0]), events[1..])
  }

  const INIT := State(Redis(map[], {}, map[], 0, map[]), map[])

  // ---------------------------------------------------------------------------------- in place

  const MAX_RETRIES := 5

  class RedisStore {
    var ingress: map<IngressId, Option<RoomName>>
    var members: set<(RoomName, IngressId)>
    var states: map<IngressId, IngressState>
    var tableVersion: nat
    var stateVersions: map<IngressId, nat>
    var pending: map<nat, Transaction>

    constructor ()
      ensures Fields() == INIT
    {
      ingress, members, states, tableVersion, stateVersions, pending := map[], {}, map[], 0, map[], map[];
    }

    function Fields(): State
      reads this
    {
      State(Redis(ingress, members, states, tableVersion, stateVersions), pending)
    }

    /** MULTI/EXEC of a store whose watched table is unchanged. */
    method ExecStore(id: IngressId, oldRoom: Option<RoomName>, room: Option<RoomName>)
      modifies this
      ensures Fields() == old(Fields()).(db := WriteIngress(old(Fields()).db, id, oldRoom, room))
      ensures Wrote(old(Fields()), Fields(), id, oldRoom, room)
    {
      ingress := ingress[id := room];
      if oldRoom != room {
        if oldRoom.Some? {
          members := members - {(oldRoom.value, id)};
        }
        if room.Some? {
          members := members + {(room.value, id)};
        }
      }
      tableVersion := tableVersion + 1;
    }

    /**
     Stores an ingress: up to five attempts, between whose read and write other clients run
     (`others[i]` at attempt i). Gives up silently when every attempt found the table changed.
     */
    method StoreIngress(id: IngressId, room: Option<RoomName>, others: seq<seq<Event>>) returns (stored: bool)
      requires |others| == MAX_RETRIES
      modifies this
      ensures (Fields(), stored) == StoreAttempts(old(Fields()), id, room, others)
      ensures stored ==> Fields().db.StoredRoom(id) == room && id in Fields().db.ingress
      ensures stored <==> exists i: nat :: Undisturbed(old(Fields()), others, i)
      ensures !stored ==> Fields() == At(old(Fields()), others, MAX_RETRIES)
      ensures stored ==>
                exists i: nat :: FirstUndisturbed(old(Fields()), others, i)
                  && WroteAt(old(Fields()), Fields(), id, room, others, i)
    {
      ghost var start := Fields();
      StoresExactly(start, id, room, others);
      for i := 0 to MAX_RETRIES
        invariant StoreAttempts(start, id, room, others) == StoreAttempts(Fields(), id, room, others[i..])
      {
        var oldRoom := if id in ingress then ingress[id] else None;
        var version := tableVersion;
        RunOthers(others[i]);
        if tableVersion == version {
          ExecStore(id, oldRoom, room);
          return true;
        }
        assert others[i..][1..] == others[i+1..];
      }
      return false;
    }

    /** Other clients' steps, as they happen to fall. */
    method RunOthers(events: seq<Event>)
      modifies this
      ensures Fields() == Run(old(Fields()), events)
    {
      var s := Fields();
      for i := 0 to |events|
        invariant Run(s, events[i..]) == Run(old(Fields()), events)
      {
        assert events[i..][1..] == events[i+1..];
        s := Step(s, events[i]);
      }
      ingress, members, states := s.db.ingress, s.db.members, s.db.states;
      tableVersion, stateVersions, pending := s.db.tableVersion, s.db.stateVersions, s.pending;
    }

    method DeleteRecord(id: IngressId, room: Option<RoomName>)
      modifies this
      ensures Fields() == Step(old(Fields()), Delete(id, room))
      ensures ingress == old(ingress) - {id} && states == old(states) - {id}
      ensures members == old(members) - (if room.Some? then {(room.value, id)} else {})
      ensures tableVersion == old(tableVersion) + if id in old(ingress) then 1 else 0
      ensures id !in old(states) ==> stateVersions == old(stateVersions)
    {
      if room.Some? {
        members := members - {(room.value, id)};
      }
      if id in ingress {
        tableVersion := tableVersion + 1;
      }
      ingress := ingress - {id};
      if id in states {
        stateVersions := stateVersions[id := (if id in stateVersions then stateVersions[id] else 0) + 1];
      }
      states := states - {id};
    }
  }

  /** What storeIngress does over its attempts, given what others do between its reads and writes. */
  function StoreAttempts(s: State, id: IngressId, room: Option<RoomName>, others: seq<seq<Event>>): (State, bool)
    decreases |others|
  {
    if others == [] then (s, false)
    else
      var t := Run(s, others[0]);
      if t.db.tableVersion == s.db.tableVersion
      then (t.(db := WriteIngress(t.db, id, s.db.StoredRoom(id), room)), true)
      else StoreAttempts(t, id, room, others[1..])
  }

  // ---------------------------------------------------------------------------------- attempts

  function Flat(lists: seq<seq<Event>>): seq<Event> {
    if lists == [] then [] else lists[0] + Flat(lists[1..])
  }

  /** What the others alone have made of the store when attempt `i` begins. */
  function At(s: State, others: seq<seq<Event>>, i: nat): State
    requires i <= |others|
  {
    Run(s, Flat(others[..i]))
  }

  /** The others leave the watched table alone during attempt `i`. */
  ghost predicate Undisturbed(s: State, others: seq<seq<Event>>, i: nat) {
    i < |others| && At(s, others, i + 1).db.tableVersion == At(s, others, i).db.tableVersion
  }

  ghost predicate FirstUndisturbed(s: State, others: seq<seq<Event>>, i: nat) {
    Undisturbed(s, others, i) && forall j: nat :: j < i ==> !Undisturbed(s, others, j)
  }

  /** The record is written, the index follows if the room changed, and nothing else is touched. */
  ghost predicate Wrote(s: State, t: State, id: IngressId, oldRoom: Option<RoomName>, room: Option<RoomName>) {
    && t.db.ingress == s.db.ingress[id := room]
    && t.db.tableVersion == s.db.tableVersion + 1
    && (forall m :: m in t.db.members <==>
          if oldRoom != room && m.1 == id then room == Some(m.0) || (m in s.db.members && oldRoom != Some(m.0))
          else m in s.db.members)
    && t.db.states == s.db.states && t.db.stateVersions == s.db.stateVersions && t.pending == s.pending
  }

  /** The write of attempt `i`, which moves the index entry from the room read when the attempt began. */
  ghost predicate WroteAt(s: State, t: State, id: IngressId, room: Option<RoomName>, others: seq<seq<Event>>, i: nat)
    requires i < |others|
  {
    Wrote(At(s, others, i + 1), t, id, At(s, others, i).db.StoredRoom(id), room)
  }

  lemma {:induction false} RunJoins(s: State, a: seq<Event>, b: seq<Event>)
    ensures Run(s, a + b) == Run(Run(s, a), b)
    decreases |a|
  {
    if a == [] {
      assert a + b == b;
    } else {
      assert (a + b)[1..] == a[1..] + b;
      RunJoins(Step(s, a[0]), a[1..], b);
    }
  }

  lemma AtSplits(s: State, others: seq<seq<Event>>, i: nat)
    requires i < |others|
    ensures At(s, others, i + 1) == At(Run(s, others[0]), others[1..], i)
    ensures At(s, others, 0) == s
  {
    assert others[..i + 1][1..] == others[1..][..i];
    RunJoins(s, others[0], Flat(others[1..][..i]));
  }

  lemma UndisturbedSplits(s: State, others: seq<seq<Event>>, i: nat)
    requires others != []
    ensures Undisturbed(s, others, i + 1) <==> Undisturbed(Run(s, others[0]), others[1..], i)
    ensures Undisturbed(s, others, 0) <==> Run(s, others[0]).db.tableVersion == s.db.tableVersion
  {
    if i + 1 < |others| {
      AtSplits(s, others, i);
      AtSplits(s, others, i + 1);
    }
    AtSplits(s, others, 0);
    assert At(Run(s, others[0]), others[1..], 0) == Run(s, others[0]);
  }

  lemma FirstSplits(s: State, others: seq<seq<Event>>, i: nat)
    requires others != [] && !Undisturbed(s, others, 0)
    requires FirstUndisturbed(Run(s, others[0]), others[1..], i)
    ensures FirstUndisturbed(s, others, i + 1)
  {
    UndisturbedSplits(s, others, i);
    forall j: nat | j < i + 1
      ensures !Undisturbed(s, others, j)
    {
      if j > 0 {
        UndisturbedSplits(s, others, j - 1);
      }
    }
  }

  /** The first attempt that nobody disturbs writes, and only that one; without one nothing is written. */
  lemma {:induction false} StoresExactly(s: State, id: IngressId, room: Option<RoomName>, others: seq<seq<Event>>)
    ensures var (t, stored) := StoreAttempts(s, id, room, others);
            && (stored <==> exists i: nat :: Undisturbed(s, others, i))
            && (!stored ==> t == At(s, others, |others|))
            && (stored ==> exists i: nat :: FirstUndisturbed(s, others, i) && WroteAt(s, t, id, room, others, i))
    decreases |others|
  {
    if others != [] {
      var u := Run(s, others[0]);
      var (t, stored) := StoreAttempts(s, id, room, others);
      UndisturbedSplits(s, others, 0);
      AtSplits(s, others, 0);
      if u.db.tableVersion == s.db.tableVersion {
        assert At(s, others, 1) == u;
        assert FirstUndisturbed(s, others, 0) && WroteAt(s, t, id, room, others, 0);
      } else {
        StoresExactly(u, id, room, others[1..]);
        LaterAttempts(s, t, stored, id, room, others);
      }
    }
  }

  lemma LaterAttempts(
      s: State, t: State, stored: bool, id: IngressId, room: Option<RoomName>, others: seq<seq<Event>>)
    requires others != [] && !Undisturbed(s, others, 0)
    requires var u := Run(s, others[0]);
             && (stored <==> exists i: nat :: Undisturbed(u, others[1..], i))
             && (!stored ==> t == At(u, others[1..], |others| - 1))
             && (stored ==>
                   exists i: nat :: FirstUndisturbed(u, others[1..], i) && WroteAt(u, t, id, room, others[1..], i))
    ensures stored <==> exists i: nat :: Undisturbed(s, others, i)
    ensures !stored ==> t == At(s, others, |others|)
    ensures stored ==> exists i: nat :: FirstUndisturbed(s, others, i) && WroteAt(s, t, id, room, others, i)
  {
    var u := Run(s, others[0]);
    if stored {
      var i: nat :| FirstUndisturbed(u, others[1..], i) && WroteAt(u, t, id, room, others[1..], i);
      FirstSplits(s, others, i);
      AtSplits(s, others, i);
      AtSplits(s, others, i + 1);
      assert WroteAt(s, t, id, room, others, i + 1);
    } else {
      forall i: nat
        ensures !Undisturbed(s, others, i)
      {
        if i > 0 {
          UndisturbedSplits(s, others, i - 1);
        }
      }
      AtSplits(s, others, |others| - 1);
    }
  }

  /** Undisturbed in its first attempt a store writes at once. */
  lemma UndisturbedStores(s: State, id: IngressId, room: Option<RoomName>, others: seq<seq<Event>>)
    requires others != [] && Run(s, others[0]).db.tableVersion == s.db.tableVersion
    ensures var (t, stored) := StoreAttempts(s, id, room, others);
            stored && Wrote(Run(s, others[0]), t, id, s.db.StoredRoom(id), room)
  {
  }

  // ---------------------------------------------------------------------------------- invariant

  /** Every stored ingress is listed under its room. */
  ghost predicate IndexComplete(db: Redis) {
    forall id :: id in db.ingress && db.ingress[id].Some? ==> (db.ingress[id].value, id) in db.members
  }

  /** Nothing else is listed. */
  ghost predicate IndexExact(db: Redis) {
    && IndexComplete(db)
    && (forall m :: m in db.members ==> m.1 in db.ingress && db.ingress[m.1] == Some(m.0))
  }

  /** A transaction whose watched key has not changed still knows the truth. */
  ghost predicate UpToDate(db: Redis, tx: Transaction) {
    match tx
    case StoreTx(id, _, oldRoom, version) =>
      version <= db.tableVersion && (version == db.tableVersion ==> oldRoom == db.StoredRoom(id))
    case StateTx(id, _, oldState, version) =>
      version <= db.StateVersion(id) && (version == db.StateVersion(id) ==> oldState == db.StoredState(id))
  }

  ghost predicate TxInv(s: State) { forall tx :: tx in s.pending ==> UpToDate(s.db, s.pending[tx]) }

  /** Redis counts a change of every watched key whose value changed. */
  ghost predicate Watched(db: Redis, after: Redis) {
    && db.tableVersion <= after.tableVersion
    && (db.tableVersion == after.tableVersion ==> forall id :: after.StoredRoom(id) == db.StoredRoom(id))
    && (forall id :: db.StateVersion(id) <= after.StateVersion(id))
    && (forall id :: db.StateVersion(id) == after.StateVersion(id) ==> after.StoredState(id) == db.StoredState(id))
  }

  lemma StepIsWatched(s: State, e: Event)
    requires TxInv(s)
    ensures Watched(s.db, Step(s, e).db) && TxInv(Step(s, e))
  {
    var t := Step(s, e);
    assert Watched(s.db, t.db);
    forall tx | tx in t.pending
      ensures UpToDate(t.db, t.pending[tx])
    {
      if tx in s.pending {
        assert UpToDate(s.db, s.pending[tx]);
      }
    }
  }

  lemma ExecuteKeepsComplete(db: Redis, tx: Transaction)
    requires IndexComplete(db) && UpToDate(db, tx)
    ensures IndexComplete(Execute(db, tx))
  {
  }

  lemma ExecuteKeepsExact(db: Redis, tx: Transaction)
    requires IndexExact(db) && UpToDate(db, tx)
    ensures IndexExact(Execute(db, tx))
  {
  }

  /** Whether a delete names the room the ingress is stored under. */
  predicate DeletesStoredRoom(s: State, e: Event) {
    e.Delete? && e.id in s.db.ingress && s.db.ingress[e.id].Some? ==> e.room == s.db.ingress[e.id]
  }

  /** A step keeps the index exact if and only if it is not a delete that names the wrong room. */
  lemma StepKeepsExact(s: State, e: Event)
    requires TxInv(s) && IndexExact(s.db)
    ensures IndexExact(Step(s, e).db) <==> DeletesStoredRoom(s, e)
  {
    match e
    case Commit(tx) =>
      if tx in s.pending {
        ExecuteKeepsExact(s.db, s.pending[tx]);
      }
    case Delete(id, room) =>
      if !DeletesStoredRoom(s, e) {
        assert (s.db.ingress[id].value, id) in Step(s, e).db.members;
      }
    case _ =>
  }

  lemma StepKeepsComplete(s: State, e: Event)
    requires TxInv(s) && IndexComplete(s.db)
    ensures IndexComplete(Step(s, e).db)
  {
    if e.Commit? && e.tx in s.pending {
      ExecuteKeepsComplete(s.db, s.pending[e.tx]);
    }
  }

  /** Under any interleaving the room index lists every stored ingress under its current room. */
  lemma {:induction false} IndexStaysComplete(s: State, events: seq<Event>)
    requires TxInv(s) && IndexComplete(s.db)
    ensures TxInv(Run(s, events)) && IndexComplete(Run(s, events).db)
    decreases |events|
  {
    if events != [] {
      StepIsWatched(s, events[0]);
      StepKeepsComplete(s, events[0]);
      IndexStaysComplete(Step(s, events[0]), events[1..]);
    }
  }

  predicate DeletesCarryRooms(s: State, events: seq<Event>)
    decreases |events|
  {
    events == [] || (DeletesStoredRoom(s, events[0]) && DeletesCarryRooms(Step(s, events[0]), events[1..]))
  }

  /** It lists nothing else as long as deletes name the stored room. */
  lemma {:induction false} IndexStaysExact(s: State, events: seq<Event>)
    requires TxInv(s) && IndexExact(s.db) && DeletesCarryRooms(s, events)
    ensures TxInv(Run(s, events)) && IndexExact(Run(s, events).db)
    decreases |events|
  {
    if events != [] {
      StepIsWatched(s, events[0]);
      StepKeepsExact(s, events[0]);
      IndexStaysExact(Step(s, events[0]), events[1..]);
    }
  }

  lemma ReachableIndex(events: seq<Event>)
    ensures IndexComplete(Run(INIT, events).db)
    ensures DeletesCarryRooms(INIT, events) ==> IndexExact(Run(INIT, events).db)
  {
    IndexStaysComplete(INIT, events);
    if DeletesCarryRooms(INIT, events) {
      IndexStaysExact(INIT, events);
    }
  }

  /** The retry loop of a store keeps the index complete, and says it stored only if the record is there. */
  lemma {:induction false} StoreAttemptsKeepIndex(
      s: State, id: IngressId, room: Option<RoomName>, others: seq<seq<Event>>)
    requires TxInv(s) && IndexComplete(s.db)
    ensures var (t, stored) := StoreAttempts(s, id, room, others);
            TxInv(t) && IndexComplete(t.db) && (stored ==> id in t.db.ingress && t.db.ingress[id] == room)
    decreases |others|
  {
    if others != [] {
      var t := Run(s, others[0]);
      IndexStaysComplete(s, others[0]);
      if t.db.tableVersion == s.db.tableVersion {
        UnchangedTable(s, others[0]);
        var u := t.(pending := map[0 := StoreTx(id, room, t.db.StoredRoom(id), t.db.tableVersion)]);
        ExecuteKeepsComplete(t.db, u.pending[0]);
        assert forall tx :: tx in t.pending ==> UpToDate(t.db, t.pending[tx]);
      } else {
        StoreAttemptsKeepIndex(t, id, room, others[1..]);
      }
    }
  }

  /** While the watched table is unchanged, every record is still under the room that was read. */
  lemma {:induction false} UnchangedTable(s: State, events: seq<Event>)
    requires TxInv(s)
    ensures s.db.tableVersion <= Run(s, events).db.tableVersion
    ensures Run(s, events).db.tableVersion == s.db.tableVersion ==>
              forall id :: Run(s, events).db.StoredRoom(id) == s.db.StoredRoom(id)
    decreases |events|
  {
    if events != [] {
      StepIsWatched(s, events[0]);
      UnchangedTable(Step(s, events[0]), events[1..]);
    }
  }

  // ---------------------------------------------------------------------------------- listing

  /** What listing a room finds: the members of its set that still have a record. */
  function ListIngress(db: Redis, room: RoomName): set<IngressId> {
    set m | m in db.members && m.0 == room && m.1 in db.ingress :: m.1
  }

  /** An entry of the index whose ingress is not stored under that room (any more). */
  predicate IsStale(db: Redis, room: RoomName, id: IngressId) {
    (room, id) in db.members && db.StoredRoom(id) != Some(room)
  }

  /**
   Listing a room finds its ingresses, and beyond them exactly the stored ones that a stale entry leads to;
   there is none when every delete carried the stored room.
   */
  lemma ListingFindsRoom(events: seq<Event>, room: RoomName)
    ensures var db := Run(INIT, events).db;
            ListIngress(db, room) == (set id | id in db.ingress && db.ingress[id] == Some(room))
                                     + (set id | id in db.ingress && IsStale(db, room, id))
    ensures DeletesCarryRooms(INIT, events) ==> forall id :: !IsStale(Run(INIT, events).db, room, id)
  {
    ReachableIndex(events);
    var db := Run(INIT, events).db;
    var stored := set id | id in db.ingress && db.ingress[id] == Some(room);
    var stale := set id | id in db.ingress && IsStale(db, room, id);
    forall id | id in stored + stale
      ensures id in ListIngress(db, room)
    {
      assert (room, id) in db.members;
    }
  }

  /** A delete that names the wrong room can make a later listing wrong. */
  lemma WrongRoomMisleads()
    ensures var s := Run(INIT, [BeginStore(0, 7, Some(1)), Commit(0), Delete(7, Some(2)),
                                BeginStore(0, 7, Some(3)), Commit(0)]);
            s.db.ingress[7] == Some(3) && 7 in ListIngress(s.db, 1)
  {
    var e0, e1, e2, e3 := BeginStore(0, 7, Some(1)), Commit(0), Delete(7, Some(2)), BeginStore(0, 7, Some(3));
    var s1 := Step(INIT, e0);
    var s2 := Step(s1, e1);
    var s3 := Step(s2, e2);
    var s4 := Step(s3, e3);
    var s5 := Step(s4, e1);
    assert [e0, e1, e2, e3, e1][1..] == [e1, e2, e3, e1] && [e1, e2, e3, e1][1..] == [e2, e3, e1];
    assert [e2, e3, e1][1..] == [e3, e1] && [e3, e1][1..] == [e1] && [e1][1..] == [];
    assert Run(s4, [e1]) == s5;
    assert Run(s3, [e3, e1]) == Run(s4, [e1]);
    assert Run(s2, [e2, e3, e1]) == Run(s3, [e3, e1]);
    assert Run(s1, [e1, e2, e3, e1]) == Run(s2, [e2, e3, e1]);
    assert (1, 7) in s5.db.members;
  }

  // ---------------------------------------------------------------------------------- states

  /** Of two different states one is the older, and an earlier start makes older. */
  lemma OlderIsTotal(a: IngressState, b: IngressState)
    ensures !(a.OlderThan(b) && b.OlderThan(a))
    ensures a == b <==> !a.OlderThan(b) && !b.OlderThan(a)
    ensures a.startedAt < b.startedAt ==> a.OlderThan(b)
  {
  }

  /** The stored state of an ingress never gets older, unless the ingress is deleted. */
  lemma StepKeepsStateFresh(s: State, e: Event, id: IngressId)
    requires TxInv(s) && id in s.db.states && !(e.Delete? && e.id == id)
    ensures id in Step(s, e).db.states && !Step(s, e).db.states[id].OlderThan(s.db.states[id])
  {
    if e.Commit? && e.tx in s.pending {
      assert UpToDate(s.db, s.pending[e.tx]);
    }
  }

  lemma {:induction false} StateNeverOlder(s: State, events: seq<Event>, id: IngressId)
    requires TxInv(s) && id in s.db.states
    requires forall i :: 0 <= i < |events| ==> !(events[i].Delete? && events[i].id == id)
    ensures id in Run(s, events).db.states && !Run(s, events).db.states[id].OlderThan(s.db.states[id])
    decreases |events|
  {
    if events != [] {
      StepIsWatched(s, events[0]);
      StepKeepsStateFresh(s, events[0], id);
      StateNeverOlder(Step(s, events[0]), events[1..], id);
    }
  }

  /** A report that nobody interferes with is stored exactly when it is not older than what is stored. */
  lemma FreshReportIsStored(s: State, tx: nat, id: IngressId, state: IngressState)
    ensures var t := Step(Step(s, BeginState(tx, id, state)), Commit(tx));
            if state.OlderThan(s.db.StoredState(id)) then t.db == s.db else t.db.StoredState(id) == state
  {
  }

  /** After it, until the ingress is deleted, the stored state is never older than the report. */
  lemma ReportIsKept(s: State, tx: nat, id: IngressId, state: IngressState, events: seq<Event>)
    requires TxInv(s) && (id in s.db.states || !state.OlderThan(NO_STATE))
    requires forall i :: 0 <= i < |events| ==> !(events[i].Delete? && events[i].id == id)
    ensures var db := Run(Step(Step(s, BeginState(tx, id, state)), Commit(tx)), events).db;
            id in db.states && !db.states[id].OlderThan(state)
  {
    var begun := Step(s, BeginState(tx, id, state));
    StepIsWatched(s, BeginState(tx, id, state));
    StepIsWatched(begun, Commit(tx));
    FreshReportIsStored(s, tx, id, state);
    StateNeverOlder(Step(begun, Commit(tx)), events, id);
  }
}
