/**
 A dummy receiver stands in for a media receiver that does not exist yet, and hands over to the real
 one when it comes: the steps of the hand-over interleave with every other call between lock regions.
 */
module ReceiverHandover {
  import opened Common

  // ---------------------------------------------------------------------------------- down tracks

  type Subscriber = nat

  datatype Track = Track(subscriber: Subscriber, serial: nat)

  /**
   Down tracks waiting for the real receiver. History: those it was given, those ever added, and those
   pushed out of the map by another one of the same subscriber.
   */
  datatype Holder = Holder(
    swapped: bool, downTracks: map<Subscriber, Track>, given: seq<Track>, added: seq<Track>, replaced: seq<Track>)

  const NEW_HOLDER := Holder(false, map[], [], [], [])

  function Swap(h: Holder): Holder { h.(swapped := true) }

  function AddTrack(h: Holder, t: Track): Holder {
    var h1 := h.(added := h.added + [t]);
    if h.swapped then h1.(given := h.given + [t])
    else
      h1.(downTracks := h.downTracks[t.subscriber := t],
          replaced := h.replaced + if t.subscriber in h.downTracks then [h.downTracks[t.subscriber]] else [])
  }

  function InOrder(m: map<Subscriber, Track>, order: seq<Subscriber>): seq<Track>
    requires forall i :: 0 <= i < |order| ==> order[i] in m
  {
    if order == [] then [] else [m[order[0]]] + InOrder(m, order[1..])
  }

  function Drain(h: Holder, order: seq<Subscriber>): Holder {
    if !IsOrder(order, h.downTracks.Keys) then h
    else h.(downTracks := map[], given := h.given + InOrder(h.downTracks, order))
  }

  function Waiting(h: Holder, t: Track): nat {
    if t.subscriber in h.downTracks && h.downTracks[t.subscriber] == t then 1 else 0
  }

  /** Every track added was given to the receiver, waits, or was pushed out: as often as it was added. */
  ghost predicate TracksInv(h: Holder) {
    && (forall k :: k in h.downTracks ==> h.downTracks[k].subscriber == k)
    && (forall t :: Tally(h.added, t) == Tally(h.given, t) + Waiting(h, t) + Tally(h.replaced, t))
  }

  predicate SharesSubscriber(added: seq<Track>, i: nat, j: nat) {
    i < j < |added| && added[i].subscriber == added[j].subscriber
  }

  /** Nothing is pushed out unless two tracks of one subscriber were added. */
  ghost predicate ReplacedInv(h: Holder) {
    && (forall k :: k in h.downTracks ==> h.downTracks[k].subscriber == k && h.downTracks[k] in h.added)
    && (h.replaced != [] ==> exists i, j :: SharesSubscriber(h.added, i, j))
  }

  lemma AddKeepsReplaced(h: Holder, t: Track)
    requires ReplacedInv(h)
    ensures ReplacedInv(AddTrack(h, t))
  {
    var h' := AddTrack(h, t);
    if h.replaced != [] {
      var i, j :| SharesSubscriber(h.added, i, j);
      assert SharesSubscriber(h'.added, i, j);
    } else if !h.swapped && t.subscriber in h.downTracks {
      var i :| 0 <= i < |h.added| && h.added[i] == h.downTracks[t.subscriber];
      assert SharesSubscriber(h'.added, i, |h.added|);
    }
  }

  lemma AddKeepsTracks(h: Holder, t: Track)
    requires TracksInv(h)
    ensures TracksInv(AddTrack(h, t))
  {
    var h' := AddTrack(h, t);
    forall x: Track
      ensures Tally(h'.added, x) == Tally(h'.given, x) + Waiting(h', x) + Tally(h'.replaced, x)
    {
      TallyAppends(h.added, [t], x);
      if h.swapped {
        TallyAppends(h.given, [t], x);
      } else if t.subscriber in h.downTracks {
        TallyAppends(h.replaced, [h.downTracks[t.subscriber]], x);
      } else {
        assert h.replaced + [] == h.replaced;
      }
    }
  }

  lemma {:induction false} InOrderTally(m: map<Subscriber, Track>, order: seq<Subscriber>, t: Track)
    requires forall i :: 0 <= i < |order| ==> order[i] in m && m[order[i]].subscriber == order[i]
    requires forall i, j :: 0 <= i < j < |order| ==> order[i] != order[j]
    ensures Tally(InOrder(m, order), t) == if t.subscriber in order && m[t.subscriber] == t then 1 else 0
  {
    if order == [] {
    } else {
      InOrderTally(m, order[1..], t);
      assert order == [order[0]] + order[1..];
      assert InOrder(m, order)[1..] == InOrder(m, order[1..]);
      if t.subscriber == order[0] {
        assert t.subscriber !in order[1..];
      }
    }
  }

  lemma DrainKeepsTracks(h: Holder, order: seq<Subscriber>)
    requires TracksInv(h)
    ensures TracksInv(Drain(h, order))
  {
    if IsOrder(order, h.downTracks.Keys) {
      var h' := Drain(h, order);
      forall x: Track
        ensures Tally(h'.added, x) == Tally(h'.given, x) + Waiting(h', x) + Tally(h'.replaced, x)
      {
        TallyAppends(h.given, InOrder(h.downTracks, order), x);
        InOrderTally(h.downTracks, order, x);
      }
    }
  }

  // ---------------------------------------------------------------------------------- callbacks

  type Callback = nat

  /** Callbacks waiting, taken for delivery, and held by a caller that saw the receiver; and history. */
  datatype Callbacks = Callbacks(
    waiting: seq<Callback>, taken: seq<Callback>, held: seq<Callback>, given: seq<Callback>, added: seq<Callback>)

  const NO_CALLBACKS := Callbacks([], [], [], [], [])

  function AddCallback(c: Callbacks, swapped: bool, f: Callback): Callbacks {
    if swapped then c.(held := c.held + [f], added := c.added + [f])
    else c.(waiting := c.waiting + [f], added := c.added + [f])
  }

  /** One of the callers that saw the receiver reaches it. */
  function FinishAdd(c: Callbacks, i: nat): Callbacks {
    if i < |c.held| then c.(held := c.held[..i] + c.held[i + 1..], given := c.given + [c.held[i]]) else c
  }

  function Take(c: Callbacks): Callbacks { c.(waiting := [], taken := c.waiting) }

  function Deliver(c: Callbacks): Callbacks {
    if c.taken == [] then c else c.(taken := c.taken[1..], given := c.given + [c.taken[0]])
  }

  ghost predicate CallbacksInv(c: Callbacks) {
    forall f: Callback ::
      Tally(c.added, f) == Tally(c.given, f) + Tally(c.waiting, f) + Tally(c.taken, f) + Tally(c.held, f)
  }

  lemma AddKeepsCallbacks(c: Callbacks, swapped: bool, f: Callback)
    requires CallbacksInv(c)
    ensures CallbacksInv(AddCallback(c, swapped, f))
  {
    forall x: Callback
      ensures var c' := AddCallback(c, swapped, f);
        Tally(c'.added, x) == Tally(c'.given, x) + Tally(c'.waiting, x) + Tally(c'.taken, x) + Tally(c'.held, x)
    {
      TallyAppends(c.added, [f], x);
      TallyAppends(c.held, [f], x);
      TallyAppends(c.waiting, [f], x);
    }
  }

  lemma FinishKeepsCallbacks(c: Callbacks, i: nat)
    requires CallbacksInv(c)
    ensures CallbacksInv(FinishAdd(c, i))
  {
    if i < |c.held| {
      forall x: Callback
        ensures var c' := FinishAdd(c, i);
          Tally(c'.added, x) == Tally(c'.given, x) + Tally(c'.waiting, x) + Tally(c'.taken, x) + Tally(c'.held, x)
      {
        TallyAppends(c.given, [c.held[i]], x);
        TallyAppends(c.held[..i], c.held[i + 1..], x);
        TallyAppends(c.held[..i], [c.held[i]] + c.held[i + 1..], x);
        assert c.held == c.held[..i] + ([c.held[i]] + c.held[i + 1..]);
      }
    }
  }

  lemma TakeKeepsCallbacks(c: Callbacks)
    requires CallbacksInv(c) && c.taken == []
    ensures CallbacksInv(Take(c))
  {
  }

  lemma DeliverKeepsCallbacks(c: Callbacks)
    requires CallbacksInv(c)
    ensures CallbacksInv(Deliver(c))
  {
    if c.taken != [] {
      forall x: Callback
        ensures var c' := Deliver(c);
          Tally(c'.added, x) == Tally(c'.given, x) + Tally(c'.waiting, x) + Tally(c'.taken, x) + Tally(c'.held, x)
      {
        TallyAppends(c.given, [c.taken[0]], x);
      }
    }
  }

  // ---------------------------------------------------------------------------------- settings

  /** A setting kept for the receiver, what the receiver has, and what was set last. */
  datatype Setting<T> = Setting(valid: bool, value: T, applied: Option<T>, last: Option<T>)

  function SetTo<T>(s: Setting<T>, swapped: bool, value: T): Setting<T> {
    if swapped then s.(valid := false, applied := Some(value), last := Some(value))
    else s.(valid := true, value := value, last := Some(value))
  }

  function Apply<T>(s: Setting<T>): Setting<T> {
    if s.valid then s.(valid := false, applied := Some(s.value)) else s
  }

  /** What is kept, or else what the receiver has, is what was set last. */
  ghost predicate SettingInv<T>(s: Setting<T>) {
    if s.valid then s.last == Some(s.value) else s.applied == s.last
  }

  // ---------------------------------------------------------------------------------- the dummy receiver

  /**
   How far the hand-over is: from `Applied` to `RedSwapped` it holds the settings lock while it passes
   the receiver on to the two dummy receivers for redundant encoding.
   */
  datatype Stage = Fresh | Swapped | Drained | Applied | PrimarySwapped | PrimaryDone | RedSwapped | Done

  datatype State = State(
    stage: Stage, main: Holder, ready: Callbacks, codec: Callbacks, paused: Setting<bool>, layer: Setting<int>,
    primary: Option<Holder>, red: Option<Holder>)

  const INIT := State(
    Fresh, NEW_HOLDER, NO_CALLBACKS, NO_CALLBACKS,
    Setting(false, false, None, None), Setting(false, 0, None, None), None, None)

  predicate SettingsLocked(stage: Stage) {
    stage == Applied || stage == PrimarySwapped || stage == PrimaryDone || stage == RedSwapped
  }

  datatype Event =
    | Upgrade
    | DrainTracks(order: seq<Subscriber>)
    | DeliverReady
    | DeliverCodec
    | ApplySettings
    | SwapPrimary
    | DrainPrimary(order: seq<Subscriber>)
    | SwapRed
    | DrainRed(order: seq<Subscriber>)
    | AddDownTrack(track: Track)
    | AddOnReady(callback: Callback)
    | FinishOnReady(index: nat)
    | AddOnCodec(callback: Callback)
    | FinishOnCodec(index: nat)
    | SetPaused(paused: bool)
    | SetLayer(layer: int)
    | GetPrimary
    | GetRed
    | PrimaryAdd(track: Track)
    | RedAdd(track: Track)

  /** A dummy for redundant encoding made after the swap is upgraded before anyone else can see it. */
  function Made(r: Option<Holder>, swapped: bool): Option<Holder> {
    if r.Some? then r else Some(if swapped then Swap(NEW_HOLDER) else NEW_HOLDER)
  }

  function SwapIn(r: Option<Holder>): Option<Holder> {
    if r.Some? then Some(Swap(r.value)) else None
  }

  function DrainIn(r: Option<Holder>, order: seq<Subscriber>): Option<Holder> {
    if r.Some? then Some(Drain(r.value, order)) else None
  }

  function AddIn(r: Option<Holder>, t: Track): Option<Holder> {
    if r.Some? then Some(AddTrack(r.value, t)) else None
  }

  /** The hand-over's own steps, in its own order; a second upgrade fails its compare-and-swap. */
  function StepUpgrade(s: State, e: Event): State {
    match e
    case Upgrade => if s.main.swapped then s else s.(stage := Swapped, main := Swap(s.main))
    case DrainTracks(order) =>
      if s.stage == Swapped && IsOrder(order, s.main.downTracks.Keys)
      then s.(stage := Drained, main := Drain(s.main, order), ready := Take(s.ready), codec := Take(s.codec)) else s
    case DeliverReady => if s.stage == Drained then s.(ready := Deliver(s.ready)) else s
    case DeliverCodec => if s.stage == Drained && s.ready.taken == [] then s.(codec := Deliver(s.codec)) else s
    case ApplySettings =>
      if s.stage == Drained && s.ready.taken == [] && s.codec.taken == []
      then s.(stage := Applied, layer := Apply(s.layer), paused := Apply(s.paused)) else s
    case SwapPrimary =>
      if s.stage == Applied then s.(stage := PrimarySwapped, primary := SwapIn(s.primary)) else s
    case DrainPrimary(order) =>
      if s.stage == PrimarySwapped && (s.primary.Some? ==> IsOrder(order, s.primary.value.downTracks.Keys))
      then s.(stage := PrimaryDone, primary := DrainIn(s.primary, order)) else s
    case SwapRed =>
      if s.stage == PrimaryDone then s.(stage := RedSwapped, red := SwapIn(s.red)) else s
    case DrainRed(order) =>
      if s.stage == RedSwapped && (s.red.Some? ==> IsOrder(order, s.red.value.downTracks.Keys))
      then s.(stage := Done, red := DrainIn(s.red, order)) else s
    case _ => s
  }

  /** The other calls; those that take the settings lock cannot happen while the hand-over holds it. */
  function StepCall(s: State, e: Event): State {
    match e
    case AddDownTrack(t) => s.(main := AddTrack(s.main, t))
    case AddOnReady(f) => s.(ready := AddCallback(s.ready, s.main.swapped, f))
    case FinishOnReady(i) => s.(ready := FinishAdd(s.ready, i))
    case AddOnCodec(f) => s.(codec := AddCallback(s.codec, s.main.swapped, f))
    case FinishOnCodec(i) => s.(codec := FinishAdd(s.codec, i))
    case SetPaused(v) => if SettingsLocked(s.stage) then s else s.(paused := SetTo(s.paused, s.main.swapped, v))
    case SetLayer(v) => if SettingsLocked(s.stage) then s else s.(layer := SetTo(s.layer, s.main.swapped, v))
    case GetPrimary => if SettingsLocked(s.stage) then s else s.(primary := Made(s.primary, s.main.swapped))
    case GetRed => if SettingsLocked(s.stage) then s else s.(red := Made(s.red, s.main.swapped))
    case PrimaryAdd(t) => s.(primary := AddIn(s.primary, t))
    case RedAdd(t) => s.(red := AddIn(s.red, t))
    case _ => s
  }

  function Step(s: State, e: Event): State {
    if e.Upgrade? || e.DrainTracks? || e.DeliverReady? || e.DeliverCodec? || e.ApplySettings?
       || e.SwapPrimary? || e.DrainPrimary? || e.SwapRed? || e.DrainRed?
    then StepUpgrade(s, e) else StepCall(s, e)
  }

  function Run(s: State, events: seq<Event>): State
    decreases |events|
  {
    if events == [] then s else Run(Step(s, events[0]), events[1..])
  }

  // ---------------------------------------------------------------------------------- in place

  /** Stands in for the receiver of a redundant encoding; `given` are the calls made on the real one. */
  class DummyRedReceiver {
    var redReceiver: bool
    var downTracks: map<Subscriber, Track>
    var given: seq<Track>
    ghost var added: seq<Track>
    ghost var replaced: seq<Track>

    constructor ()
      ensures Tracks() == NEW_HOLDER
    {
      redReceiver, downTracks, given := false, map[], [];
      added, replaced := [], [];
    }

    ghost function Tracks(): Holder
      reads this
    {
      Holder(redReceiver, downTracks, given, added, replaced)
    }

    method AddDownTrack(t: Track)
      modifies this
      ensures Tracks() == AddTrack(old(Tracks()), t)
    {
      added := added + [t];
      if redReceiver {
        given := given + [t];
      } else {
        replaced := replaced + if t.subscriber in downTracks then [downTracks[t.subscriber]] else [];
        downTracks := downTracks[t.subscriber := t];
      }
    }

    method StoreReceiver()
      modifies this
      ensures Tracks() == Swap(old(Tracks()))
    {
      redReceiver := true;
    }

    method DrainDownTracks() returns (order: seq<Subscriber>)
      modifies this
      ensures IsOrder(order, old(downTracks).Keys) && Tracks() == Drain(old(Tracks()), order)
    {
      var list;
      list, order := ListTracks(downTracks);
      given := given + list;
      downTracks := map[];
    }

    method Upgrade() returns (order: seq<Subscriber>)
      modifies this
      ensures IsOrder(order, old(downTracks).Keys) && Tracks() == Drain(Swap(old(Tracks())), order)
    {
      StoreReceiver();
      order := DrainDownTracks();
    }
  }

  /** Ranges over the map, in whatever order it comes. */
  method ListTracks(m: map<Subscriber, Track>) returns (list: seq<Track>, order: seq<Subscriber>)
    ensures IsOrder(order, m.Keys) && list == InOrder(m, order)
  {
    list, order := [], [];
    var rest := m.Keys;
    while rest != {}
      invariant rest <= m.Keys
      invariant IsOrder(order, m.Keys - rest)
      invariant list == InOrder(m, order)
      decreases |rest|
    {
      var k :| k in rest;
      InOrderExtends(m, order, k);
      order, list, rest := order + [k], list + [m[k]], rest - {k};
    }
    assert m.Keys - rest == m.Keys;
  }

  lemma {:induction false} InOrderExtends(m: map<Subscriber, Track>, order: seq<Subscriber>, k: Subscriber)
    requires k in m && forall i :: 0 <= i < |order| ==> order[i] in m
    ensures InOrder(m, order + [k]) == InOrder(m, order) + [m[k]]
  {
    if order == [] {
      assert [] + [k] == [k] && [k][1..] == [];
    } else {
      InOrderExtends(m, order[1..], k);
      assert (order + [k])[1..] == order[1..] + [k];
    }
  }

  /** The dummy receiver's own fields; `given`, `readyGiven` and so on are the calls made on the real one. */
  class DummyReceiver {
    var receiver: bool
    var downTracks: map<Subscriber, Track>
    var onReadyCallbacks: seq<Callback>
    var onCodecStateChange: seq<Callback>
    var maxExpectedLayerValid: bool
    var maxExpectedLayer: int
    var pausedValid: bool
    var paused: bool
    var given: seq<Track>
    var readyGiven: seq<Callback>
    var codecGiven: seq<Callback>
    var layerGiven: Option<int>
    var pausedGiven: Option<bool>
    var primaryReceiver: DummyRedReceiver?
    var redReceiver: DummyRedReceiver?
    ghost var added: seq<Track>
    ghost var replaced: seq<Track>
    ghost var lastLayer: Option<int>
    ghost var lastPaused: Option<bool>

    constructor ()
      ensures Tracks() == NEW_HOLDER && onReadyCallbacks == [] && onCodecStateChange == []
      ensures Paused() == INIT.paused && Layer() == INIT.layer
      ensures Valid() && primaryReceiver == null && redReceiver == null
    {
      primaryReceiver, redReceiver := null, null;
      receiver, downTracks, given := false, map[], [];
      onReadyCallbacks, onCodecStateChange, readyGiven, codecGiven := [], [], [], [];
      maxExpectedLayerValid, maxExpectedLayer, pausedValid, paused := false, 0, false, false;
      layerGiven, pausedGiven := None, None;
      added, replaced, lastLayer, lastPaused := [], [], None, None;
    }

    ghost function Tracks(): Holder
      reads this
    {
      Holder(receiver, downTracks, given, added, replaced)
    }

    /** The two dummies for redundant encoding are not the same one. */
    ghost predicate Valid()
      reads this
    {
      primaryReceiver != null && redReceiver != null ==> primaryReceiver != redReceiver
    }

    ghost function Paused(): Setting<bool>
      reads this
    {
      Setting(pausedValid, paused, pausedGiven, lastPaused)
    }

    ghost function Layer(): Setting<int>
      reads this
    {
      Setting(maxExpectedLayerValid, maxExpectedLayer, layerGiven, lastLayer)
    }

    method AddDownTrack(t: Track)
      modifies `downTracks, `given, `added, `replaced
      ensures Tracks() == AddTrack(old(Tracks()), t)
    {
      added := added + [t];
      if receiver {
        given := given + [t];
      } else {
        replaced := replaced + if t.subscriber in downTracks then [downTracks[t.subscriber]] else [];
        downTracks := downTracks[t.subscriber := t];
      }
    }

    /** The locked half: the caller is told whether it must still hand the callback to the receiver. */
    method AddOnReady(f: Callback) returns (hold: bool)
      modifies `onReadyCallbacks
      ensures hold == receiver
      ensures onReadyCallbacks == old(onReadyCallbacks) + if hold then [] else [f]
    {
      hold := receiver;
      if !receiver {
        onReadyCallbacks := onReadyCallbacks + [f];
      }
    }

    method AddOnCodecStateChange(f: Callback) returns (hold: bool)
      modifies `onCodecStateChange
      ensures hold == receiver
      ensures onCodecStateChange == old(onCodecStateChange) + if hold then [] else [f]
    {
      hold := receiver;
      if !receiver {
        onCodecStateChange := onCodecStateChange + [f];
      }
    }

    method SetUpTrackPaused(value: bool)
      modifies `pausedValid, `paused, `pausedGiven, `lastPaused
      ensures Paused() == SetTo(old(Paused()), receiver, value)
      ensures if receiver then pausedGiven == Some(value) && !pausedValid
              else pausedGiven == old(pausedGiven) && pausedValid && paused == value
    {
      lastPaused := Some(value);
      if receiver {
        pausedValid := false;
        pausedGiven := Some(value);
      } else {
        pausedValid := true;
        paused := value;
      }
    }

    method SetMaxExpectedSpatialLayer(value: int)
      modifies `maxExpectedLayerValid, `maxExpectedLayer, `layerGiven, `lastLayer
      ensures Layer() == SetTo(old(Layer()), receiver, value)
      ensures if receiver then layerGiven == Some(value) && !maxExpectedLayerValid
              else layerGiven == old(layerGiven) && maxExpectedLayerValid && maxExpectedLayer == value
    {
      lastLayer := Some(value);
      if receiver {
        maxExpectedLayerValid := false;
        layerGiven := Some(value);
      } else {
        maxExpectedLayerValid := true;
        maxExpectedLayer := value;
      }
    }

    /** Only the first upgrade wins. */
    method CompareAndSwapReceiver() returns (won: bool)
      modifies `receiver
      ensures won == !old(receiver) && Tracks() == Swap(old(Tracks()))
    {
      won := !receiver;
      receiver := true;
    }

    /** The region under the down-track lock: drains the tracks and takes the callbacks. */
    method DrainUnderLock() returns (ready: seq<Callback>, codec: seq<Callback>, order: seq<Subscriber>)
      modifies `downTracks, `given, `onReadyCallbacks, `onCodecStateChange
      ensures IsOrder(order, old(downTracks).Keys) && Tracks() == Drain(old(Tracks()), order)
      ensures ready == old(onReadyCallbacks) && codec == old(onCodecStateChange)
      ensures onReadyCallbacks == [] && onCodecStateChange == []
    {
      var list;
      list, order := ListTracks(downTracks);
      given := given + list;
      downTracks := map[];
      ready, codec := onReadyCallbacks, onCodecStateChange;
      onReadyCallbacks, onCodecStateChange := [], [];
    }

    /** The region under the settings lock, up to the redundant encodings. */
    method ApplySettings()
      modifies `maxExpectedLayerValid, `layerGiven, `pausedValid, `pausedGiven
      ensures Paused() == Apply(old(Paused())) && Layer() == Apply(old(Layer()))
      ensures pausedGiven == if old(pausedValid) then Some(paused) else old(pausedGiven)
      ensures layerGiven == if old(maxExpectedLayerValid) then Some(maxExpectedLayer) else old(layerGiven)
      ensures !pausedValid && !maxExpectedLayerValid
    {
      if maxExpectedLayerValid {
        layerGiven := Some(maxExpectedLayer);
      }
      maxExpectedLayerValid := false;
      if pausedValid {
        pausedGiven := Some(paused);
      }
      pausedValid := false;
    }

    /** After the lock has been let go: the callbacks taken, ready ones first. */
    method DeliverCallbacks(ready: seq<Callback>, codec: seq<Callback>)
      modifies `readyGiven, `codecGiven
      ensures readyGiven == old(readyGiven) + ready && codecGiven == old(codecGiven) + codec
    {
      for i := 0 to |ready|
        invariant readyGiven == old(readyGiven) + ready[..i] && codecGiven == old(codecGiven)
      {
        readyGiven := readyGiven + [ready[i]];
      }
      assert ready[..|ready|] == ready;
      for i := 0 to |codec|
        invariant readyGiven == old(readyGiven) + ready && codecGiven == old(codecGiven) + codec[..i]
      {
        codecGiven := codecGiven + [codec[i]];
      }
      assert codec[..|codec|] == codec;
    }

    /** What the upgrade that won does, with no other call between its steps. */
    method HandOver() returns (order: seq<Subscriber>)
      modifies `downTracks, `given, `onReadyCallbacks, `onCodecStateChange, `readyGiven, `codecGiven
      modifies `maxExpectedLayerValid, `layerGiven, `pausedValid, `pausedGiven
      ensures IsOrder(order, old(downTracks).Keys) && Tracks() == Drain(old(Tracks()), order)
      ensures onReadyCallbacks == [] && readyGiven == old(readyGiven) + old(onReadyCallbacks)
      ensures onCodecStateChange == [] && codecGiven == old(codecGiven) + old(onCodecStateChange)
      ensures Paused() == Apply(old(Paused())) && Layer() == Apply(old(Layer()))
    {
      var ready, codec;
      ready, codec, order := DrainUnderLock();
      DeliverCallbacks(ready, codec);
      ApplySettings();
    }

    method GetPrimaryReceiverForRed() returns (r: DummyRedReceiver)
      requires Valid()
      modifies `primaryReceiver
      ensures Valid() && r == primaryReceiver
      ensures old(primaryReceiver) != null ==> r == old(primaryReceiver)
      ensures old(primaryReceiver) == null ==> fresh(r) && Some(r.Tracks()) == Made(None, receiver)
    {
      if primaryReceiver == null {
        var made := new DummyRedReceiver();
        if receiver {
          var order := made.Upgrade();
          assert made.Tracks() == Swap(NEW_HOLDER);
        }
        primaryReceiver := made;
      }
      r := primaryReceiver;
    }

    method GetRedReceiver() returns (r: DummyRedReceiver)
      requires Valid()
      modifies `redReceiver
      ensures Valid() && r == redReceiver
      ensures old(redReceiver) != null ==> r == old(redReceiver)
      ensures old(redReceiver) == null ==> fresh(r) && Some(r.Tracks()) == Made(None, receiver)
    {
      if redReceiver == null {
        var made := new DummyRedReceiver();
        if receiver {
          var order := made.Upgrade();
          assert made.Tracks() == Swap(NEW_HOLDER);
        }
        redReceiver := made;
      }
      r := redReceiver;
    }

    /** The receiver is passed on to the dummies for redundant encoding that exist. */
    method UpgradeRedundant() returns (primaryOrder: seq<Subscriber>, redOrder: seq<Subscriber>)
      requires Valid()
      modifies primaryReceiver, redReceiver
      ensures primaryReceiver != null ==>
        && IsOrder(primaryOrder, old(primaryReceiver.downTracks).Keys)
        && primaryReceiver.Tracks() == Drain(Swap(old(primaryReceiver.Tracks())), primaryOrder)
      ensures redReceiver != null ==>
        && IsOrder(redOrder, old(redReceiver.downTracks).Keys)
        && redReceiver.Tracks() == Drain(Swap(old(redReceiver.Tracks())), redOrder)
    {
      primaryOrder, redOrder := [], [];
      if primaryReceiver != null {
        primaryOrder := primaryReceiver.Upgrade();
      }
      if redReceiver != null {
        redOrder := redReceiver.Upgrade();
      }
    }

    /** The whole hand-over. */
    method Upgrade() returns (order: seq<Subscriber>, primaryOrder: seq<Subscriber>, redOrder: seq<Subscriber>)
      requires Valid()
      modifies this, primaryReceiver, redReceiver
      ensures primaryReceiver == old(primaryReceiver) && redReceiver == old(redReceiver)
      ensures old(receiver) ==>
        && unchanged(this)
        && (primaryReceiver != null ==> unchanged(primaryReceiver)) && (redReceiver != null ==> unchanged(redReceiver))
      ensures !old(receiver) ==>
        && IsOrder(order, old(downTracks).Keys) && Tracks() == Drain(Swap(old(Tracks())), order)
        && onReadyCallbacks == [] && readyGiven == old(readyGiven) + old(onReadyCallbacks)
        && onCodecStateChange == [] && codecGiven == old(codecGiven) + old(onCodecStateChange)
        && Paused() == Apply(old(Paused())) && Layer() == Apply(old(Layer()))
      ensures !old(receiver) && primaryReceiver != null ==>
        && IsOrder(primaryOrder, old(primaryReceiver.downTracks).Keys)
        && primaryReceiver.Tracks() == Drain(Swap(old(primaryReceiver.Tracks())), primaryOrder)
      ensures !old(receiver) && redReceiver != null ==>
        && IsOrder(redOrder, old(redReceiver.downTracks).Keys)
        && redReceiver.Tracks() == Drain(Swap(old(redReceiver.Tracks())), redOrder)
    {
      order, primaryOrder, redOrder := [], [], [];
      var won := CompareAndSwapReceiver();
      if !won {
        return;
      }
      order := HandOver();
      primaryOrder, redOrder := UpgradeRedundant();
    }
  }

  // ---------------------------------------------------------------------------------- invariant

  /** A dummy for redundant encoding is swapped once the hand-over has come past it, and then drained. */
  ghost predicate RedInv(r: Option<Holder>, swapped: bool, drained: bool) {
    r.Some? ==>
      && TracksInv(r.value) && ReplacedInv(r.value)
      && (swapped ==> r.value.swapped) && (drained ==> r.value.downTracks == map[])
  }

  function Rank(stage: Stage): nat {
    match stage
    case Fresh => 0 case Swapped => 1 case Drained => 2 case Applied => 3
    case PrimarySwapped => 4 case PrimaryDone => 5 case RedSwapped => 6 case Done => 7
  }

  ghost predicate MainInv(s: State) {
    && TracksInv(s.main) && ReplacedInv(s.main)
    && (s.main.swapped <==> Rank(s.stage) >= 1)
    && (Rank(s.stage) >= 2 ==> s.main.downTracks == map[])
  }

  ghost predicate CallbackInv(c: Callbacks, stage: Stage) {
    && CallbacksInv(c)
    && (Rank(stage) >= 2 ==> c.waiting == [])
    && (Rank(stage) != 2 ==> c.taken == [])
  }

  ghost predicate SettingsInv(s: State) {
    && SettingInv(s.paused) && SettingInv(s.layer)
    && (Rank(s.stage) >= 3 ==> !s.paused.valid && !s.layer.valid)
  }

  ghost predicate RedsInv(s: State) {
    && RedInv(s.primary, Rank(s.stage) >= 4, Rank(s.stage) >= 5)
    && RedInv(s.red, Rank(s.stage) >= 6, Rank(s.stage) >= 7)
  }

  ghost predicate Inv(s: State) {
    MainInv(s) && CallbackInv(s.ready, s.stage) && CallbackInv(s.codec, s.stage) && SettingsInv(s) && RedsInv(s)
  }

  lemma StepKeepsMain(s: State, e: Event)
    requires MainInv(s)
    ensures MainInv(Step(s, e))
  {
    match e
    case DrainTracks(order) => DrainKeepsTracks(s.main, order);
    case AddDownTrack(t) =>
      AddKeepsTracks(s.main, t);
      AddKeepsReplaced(s.main, t);
    case _ =>
  }

  lemma StepKeepsReady(s: State, e: Event)
    requires MainInv(s) && CallbackInv(s.ready, s.stage)
    ensures CallbackInv(Step(s, e).ready, Step(s, e).stage)
  {
    match e
    case DrainTracks(_) =>
      if s.stage == Swapped {
        TakeKeepsCallbacks(s.ready);
      }
    case DeliverReady => DeliverKeepsCallbacks(s.ready);
    case AddOnReady(f) => AddKeepsCallbacks(s.ready, s.main.swapped, f);
    case FinishOnReady(i) => FinishKeepsCallbacks(s.ready, i);
    case _ => assert Step(s, e).ready == s.ready;
  }

  lemma StepKeepsCodec(s: State, e: Event)
    requires MainInv(s) && CallbackInv(s.codec, s.stage)
    ensures CallbackInv(Step(s, e).codec, Step(s, e).stage)
  {
    match e
    case DrainTracks(_) =>
      if s.stage == Swapped {
        TakeKeepsCallbacks(s.codec);
      }
    case DeliverCodec => DeliverKeepsCallbacks(s.codec);
    case AddOnCodec(f) => AddKeepsCallbacks(s.codec, s.main.swapped, f);
    case FinishOnCodec(i) => FinishKeepsCallbacks(s.codec, i);
    case _ => assert Step(s, e).codec == s.codec;
  }

  lemma StepKeepsSettings(s: State, e: Event)
    requires MainInv(s) && SettingsInv(s)
    ensures SettingsInv(Step(s, e))
  {
  }

  lemma OthersKeepPrimary(s: State, e: Event)
    requires s.primary.Some? && !e.DrainPrimary? && !e.PrimaryAdd?
    ensures
      var t := Step(s, e);
      && t.primary == (if e.SwapPrimary? && s.stage == Applied then SwapIn(s.primary) else s.primary)
      && (Rank(t.stage) >= 4 ==> Rank(s.stage) >= 4 || (e.SwapPrimary? && s.stage == Applied))
      && (Rank(t.stage) >= 5 ==> Rank(s.stage) >= 5 || (e.Upgrade? && !s.main.swapped))
  {
  }

  lemma OthersKeepRed(s: State, e: Event)
    requires s.red.Some? && !e.DrainRed? && !e.RedAdd?
    ensures
      var t := Step(s, e);
      && t.red == (if e.SwapRed? && s.stage == PrimaryDone then SwapIn(s.red) else s.red)
      && (Rank(t.stage) >= 6 ==> Rank(s.stage) >= 6 || (e.SwapRed? && s.stage == PrimaryDone))
      && (Rank(t.stage) >= 7 ==> Rank(s.stage) >= 7)
  {
  }

  lemma StepKeepsPrimary(s: State, e: Event)
    requires MainInv(s) && RedInv(s.primary, Rank(s.stage) >= 4, Rank(s.stage) >= 5)
    ensures RedInv(Step(s, e).primary, Rank(Step(s, e).stage) >= 4, Rank(Step(s, e).stage) >= 5)
  {
    if s.primary.Some? {
      match e
      case DrainPrimary(order) => DrainKeepsTracks(s.primary.value, order);
      case PrimaryAdd(t) =>
        AddKeepsTracks(s.primary.value, t);
        AddKeepsReplaced(s.primary.value, t);
      case _ => OthersKeepPrimary(s, e);
    }
  }

  lemma StepKeepsRed(s: State, e: Event)
    requires MainInv(s) && RedInv(s.red, Rank(s.stage) >= 6, Rank(s.stage) >= 7)
    ensures RedInv(Step(s, e).red, Rank(Step(s, e).stage) >= 6, Rank(Step(s, e).stage) >= 7)
  {
    if s.red.Some? {
      match e
      case DrainRed(order) => DrainKeepsTracks(s.red.value, order);
      case RedAdd(t) =>
        AddKeepsTracks(s.red.value, t);
        AddKeepsReplaced(s.red.value, t);
      case _ => OthersKeepRed(s, e);
    }
  }

  lemma StepKeepsInv(s: State, e: Event)
    requires Inv(s)
    ensures Inv(Step(s, e))
  {
    StepKeepsMain(s, e);
    StepKeepsReady(s, e);
    StepKeepsCodec(s, e);
    StepKeepsSettings(s, e);
    StepKeepsPrimary(s, e);
    StepKeepsRed(s, e);
  }

  lemma {:induction false} RunKeepsInv(s: State, events: seq<Event>)
    requires Inv(s)
    ensures Inv(Run(s, events))
    decreases |events|
  {
    if events != [] {
      StepKeepsInv(s, events[0]);
      RunKeepsInv(Step(s, events[0]), events[1..]);
    }
  }

  lemma ReachableInv(events: seq<Event>)
    ensures Inv(Run(INIT, events))
  {
    RunKeepsInv(INIT, events);
  }

  // ---------------------------------------------------------------------------------- what calls do

  /** Every track handed in is counted as added, once, and either given at once or kept. */
  lemma AddedExactly(s: State, e: Event)
    ensures
      var t := Step(s, e);
      && t.main.added == s.main.added + (if e.AddDownTrack? then [e.track] else [])
      && (e.AddDownTrack? ==>
            if s.main.swapped then t.main.given == s.main.given + [e.track]
            else t.main.downTracks == s.main.downTracks[e.track.subscriber := e.track])
      && (s.primary.Some? ==>
            t.primary.Some? && t.primary.value.added
                               == s.primary.value.added + if e.PrimaryAdd? then [e.track] else [])
      && (s.red.Some? ==>
            t.red.Some? && t.red.value.added == s.red.value.added + if e.RedAdd? then [e.track] else [])
  {
  }

  /** A callback added waits, or once there is a receiver is held by its caller until that one reaches it. */
  lemma CallbacksExactly(s: State, e: Event)
    ensures
      var c, d := s.ready, Step(s, e).ready;
      && d.added == c.added + (if e.AddOnReady? then [e.callback] else [])
      && (e.AddOnReady? ==>
            if s.main.swapped then d.held == c.held + [e.callback] else d.waiting == c.waiting + [e.callback])
      && (e.FinishOnReady? && e.index < |c.held| ==>
            d.held == c.held[..e.index] + c.held[e.index + 1..] && d.given == c.given + [c.held[e.index]])
    ensures
      var c, d := s.codec, Step(s, e).codec;
      && d.added == c.added + (if e.AddOnCodec? then [e.callback] else [])
      && (e.AddOnCodec? ==>
            if s.main.swapped then d.held == c.held + [e.callback] else d.waiting == c.waiting + [e.callback])
      && (e.FinishOnCodec? && e.index < |c.held| ==>
            d.held == c.held[..e.index] + c.held[e.index + 1..] && d.given == c.given + [c.held[e.index]])
  {
    assert s.ready.added + [] == s.ready.added && s.codec.added + [] == s.codec.added;
  }

  /** The hand-over does not hold the settings lock. */
  predicate SettingsFree(stage: Stage) { stage == Fresh || stage == Swapped || stage == Drained || stage == Done }

  /**
   A call that gets the settings lock sets the value last: on the receiver once there is one, else it is
   kept for it.
   */
  ghost predicate WasSet<T>(s: Setting<T>, t: Setting<T>, swapped: bool, value: T) {
    && t.last == Some(value)
    && (if swapped then t.applied == Some(value) && !t.valid
        else t.applied == s.applied && t.valid && t.value == value)
  }

  /** The settings change by such calls, and by what was kept being applied. */
  lemma SetExactly(s: State, e: Event)
    ensures
      var t, swapped := Step(s, e), s.main.swapped;
      && (e.SetPaused? && SettingsFree(s.stage) ==> WasSet(s.paused, t.paused, swapped, e.paused))
      && (e.SetLayer? && SettingsFree(s.stage) ==> WasSet(s.layer, t.layer, swapped, e.layer))
      && (!e.ApplySettings? && !(e.SetPaused? && SettingsFree(s.stage)) ==> t.paused == s.paused)
      && (!e.ApplySettings? && !(e.SetLayer? && SettingsFree(s.stage)) ==> t.layer == s.layer)
      && (e.ApplySettings? ==> t.paused.last == s.paused.last && t.layer.last == s.layer.last)
  {
  }

  /**
   A dummy for redundant encoding is made on the first call that gets the settings lock, upgraded if the
   swap is over.
   */
  lemma MadeExactly(s: State)
    ensures
      var made := Some(Holder(s.main.swapped, map[], [], [], []));
      && Step(s, GetPrimary).primary == (if SettingsFree(s.stage) && s.primary.None? then made else s.primary)
      && Step(s, GetRed).red == (if SettingsFree(s.stage) && s.red.None? then made else s.red)
  {
  }

  /** The callbacks taken are delivered from the first on, the ready ones before the others. */
  lemma DeliveredExactly(s: State)
    requires Inv(s)
    ensures
      var t := Step(s, DeliverReady);
      if s.ready.taken == [] then t == s
      else t.ready.taken == s.ready.taken[1..] && t.ready.given == s.ready.given + [s.ready.taken[0]]
    ensures
      var t := Step(s, DeliverCodec);
      if s.codec.taken == [] || s.ready.taken != [] then t == s
      else t.codec.taken == s.codec.taken[1..] && t.codec.given == s.codec.given + [s.codec.taken[0]]
  {
  }

  /** The first upgrade begins the hand-over; any other finds it begun. */
  lemma UpgradesOnce(s: State)
    requires Inv(s)
    ensures s.stage == Fresh ==> Step(s, Upgrade).stage == Swapped && Step(s, Upgrade).main.swapped
    ensures s.stage != Fresh ==> Step(s, Upgrade) == s
  {
  }

  // ---------------------------------------------------------------------------------- what is promised

  ghost predicate DistinctSubscribers(h: Holder) {
    forall i, j :: 0 <= i < j < |h.added| ==> h.added[i].subscriber != h.added[j].subscriber
  }

  /** Once the map is empty, each of a set of tracks with distinct subscribers was given as often as it was added. */
  lemma NothingReplaced(h: Holder, t: Track)
    requires TracksInv(h) && ReplacedInv(h) && h.downTracks == map[] && DistinctSubscribers(h)
    ensures Tally(h.given, t) == Tally(h.added, t)
  {
    assert forall i, j :: !SharesSubscriber(h.added, i, j);
  }

  /**
   However the hand-over interleaves with the other calls: once it is done, the receiver, and those for
   redundant encoding, were given every down track exactly as often as it was added.
   */
  lemma EveryTrackOnce(events: seq<Event>, t: Track)
    requires Run(INIT, events).stage == Done
    ensures
      var s := Run(INIT, events);
      && (DistinctSubscribers(s.main) ==> Tally(s.main.given, t) == Tally(s.main.added, t))
      && (s.primary.Some? && DistinctSubscribers(s.primary.value) ==>
            Tally(s.primary.value.given, t) == Tally(s.primary.value.added, t))
      && (s.red.Some? && DistinctSubscribers(s.red.value) ==>
            Tally(s.red.value.given, t) == Tally(s.red.value.added, t))
  {
    ReachableInv(events);
    var s := Run(INIT, events);
    if DistinctSubscribers(s.main) {
      NothingReplaced(s.main, t);
    }
    if s.primary.Some? && DistinctSubscribers(s.primary.value) {
      NothingReplaced(s.primary.value, t);
    }
    if s.red.Some? && DistinctSubscribers(s.red.value) {
      NothingReplaced(s.red.value, t);
    }
  }

  /** At no point on the way is anything given more often than it was added. */
  lemma NeverTwice(events: seq<Event>, t: Track, f: Callback)
    ensures
      var s := Run(INIT, events);
      && Tally(s.main.given, t) <= Tally(s.main.added, t)
      && Tally(s.ready.given, f) <= Tally(s.ready.added, f)
      && Tally(s.codec.given, f) <= Tally(s.codec.added, f)
  {
    ReachableInv(events);
  }

  /** Once the callbacks have been delivered and no caller still holds one, each has been given exactly once per add. */
  lemma EveryCallbackOnce(events: seq<Event>, f: Callback)
    requires Rank(Run(INIT, events).stage) >= 3
    ensures
      var s := Run(INIT, events);
      && (s.ready.held == [] ==> Tally(s.ready.given, f) == Tally(s.ready.added, f))
      && (s.codec.held == [] ==> Tally(s.codec.given, f) == Tally(s.codec.added, f))
  {
    ReachableInv(events);
  }

  /** The receiver ends with the settings that were set last, whether before, during or after the hand-over. */
  lemma LastSettingWins(events: seq<Event>)
    requires Rank(Run(INIT, events).stage) >= 3
    ensures
      var s := Run(INIT, events);
      s.paused.applied == s.paused.last && s.layer.applied == s.layer.last
  {
    ReachableInv(events);
  }

  // ---------------------------------------------------------------------------------- it can always finish

  lemma {:induction false} SomeOrder(keys: set<Subscriber>)
    ensures exists order :: IsOrder(order, keys)
    decreases keys
  {
    if keys == {} {
      assert IsOrder([], keys);
    } else {
      var k :| k in keys;
      SomeOrder(keys - {k});
      var order :| IsOrder(order, keys - {k});
      var longer := order + [k];
      assert forall x :: x in keys ==> x in order || x == k;
      assert longer[|order|] == k;
      assert IsOrder(longer, keys);
    }
  }

  /** The hand-over's next step. */
  ghost predicate Advances(s: State, e: Event) {
    var s' := Step(s, e);
    || Rank(s'.stage) > Rank(s.stage)
    || (s'.stage == s.stage && |s'.ready.taken| + |s'.codec.taken| < |s.ready.taken| + |s.codec.taken|)
  }

  lemma CanAdvance(s: State)
    requires 1 <= Rank(s.stage) < 7
    ensures exists e :: Advances(s, e)
  {
    match s.stage
    case Swapped =>
      SomeOrder(s.main.downTracks.Keys);
      var order :| IsOrder(order, s.main.downTracks.Keys);
      assert Advances(s, DrainTracks(order));
    case Drained =>
      if s.ready.taken != [] {
        assert Advances(s, DeliverReady);
      } else if s.codec.taken != [] {
        assert Advances(s, DeliverCodec);
      } else {
        assert Advances(s, ApplySettings);
      }
    case Applied => assert Advances(s, SwapPrimary);
    case PrimarySwapped =>
      var keys: set<Subscriber> := if s.primary.Some? then s.primary.value.downTracks.Keys else {};
      SomeOrder(keys);
      var order :| IsOrder(order, keys);
      assert Advances(s, DrainPrimary(order));
    case PrimaryDone => assert Advances(s, SwapRed);
    case RedSwapped =>
      var keys: set<Subscriber> := if s.red.Some? then s.red.value.downTracks.Keys else {};
      SomeOrder(keys);
      var order :| IsOrder(order, keys);
      assert Advances(s, DrainRed(order));
  }

  lemma RankBound(stage: Stage)
    ensures Rank(stage) <= 7 && (Rank(stage) == 7 <==> stage == Done)
  {
  }

  /** From any point of the hand-over, whatever the other calls did, its remaining steps lead to its end. */
  lemma {:induction false} CanFinish(s: State)
    requires Rank(s.stage) >= 1
    ensures exists events :: Run(s, events).stage == Done
    decreases 7 - Rank(s.stage), |s.ready.taken| + |s.codec.taken|
  {
    RankBound(s.stage);
    if s.stage == Done {
      assert Run(s, []).stage == Done;
    } else {
      CanAdvance(s);
      var e :| Advances(s, e);
      RankBound(Step(s, e).stage);
      CanFinish(Step(s, e));
      var rest :| Run(Step(s, e), rest).stage == Done;
      assert ([e] + rest)[1..] == rest;
      assert Run(s, [e] + rest) == Run(Step(s, e), rest);
    }
  }
}
