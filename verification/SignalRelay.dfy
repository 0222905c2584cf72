/**
 The signal relay: a sink that queues messages and keeps re-sending its whole queue until a send
 succeeds or it gives up, a stream that may lose, repeat or reorder frames or report a failure for
 a frame it delivered, and a reader that drops what it has already seen and refuses gaps.
 */
module SignalRelay {
  import opened Common

  /** The relay never looks inside a message. */
  type Message = string

  datatype Frame = Frame(seqNo: nat, close: bool, msgs: seq<Message>)
  {
    /** The position just after the last message of this frame. */
    function End(): nat { seqNo + |msgs| }
  }

  // ---------------------------------------------------------------------------------- sink

  /** The mutable fields of a signal message sink. */
  datatype Sink = Sink(seqNo: nat, queue: seq<Message>, writing: bool, draining: bool)
  {
    function Enqueue(msg: Message): Sink {
      this.(queue := queue + [msg], writing := true)
    }

    function Drain(): Sink { this.(draining := true, writing := true) }

    /** The frame of a send attempt: the whole queue, closing once draining. */
    function NextFrame(): Frame { Frame(seqNo, draining, queue) }

    /** A send of the first `n` queued messages succeeded. */
    function Confirm(n: nat): Sink
      requires n <= |queue|
    {
      this.(seqNo := seqNo + n, queue := queue[n..])
    }

    /** The retry deadline passed: the queue is thrown away, its positions are skipped. */
    function GiveUp(): Sink { this.(seqNo := seqNo + |queue|, queue := []) }

    function StopWriting(): Sink { this.(writing := false) }
  }

  /** The stream under a sink or a reader: all that is observed is whether it is closed. */
  class Stream {
    var open: bool

    constructor ()
      ensures open
    {
      open := true;
    }

    method Close()
      modifies this
      ensures !open
    {
      open := false;
    }
  }

  /** How WriteMessage answers its caller. */
  datatype WriteResult = Accepted | StreamFailed | StreamClosed

  class SignalMessageSink {
    const stream: Stream
    const closeOnFailure: bool
    var seqNo: nat
    var queue: seq<Message>
    var writing: bool
    var draining: bool

    constructor (stream: Stream, closeOnFailure: bool)
      ensures this.stream == stream && this.closeOnFailure == closeOnFailure
      ensures Fields() == Sink(0, [], false, false)
    {
      this.stream := stream;
      this.closeOnFailure := closeOnFailure;
      seqNo, queue, writing, draining := 0, [], false, false;
    }

    function Fields(): Sink
      reads this
    {
      Sink(seqNo, queue, writing, draining)
    }

    /** Queues a message; `spawned` says that a write loop was started for it. */
    method WriteMessage(msg: Message) returns (result: WriteResult, spawned: bool)
      modifies this
      ensures result.Accepted? <==> stream.open && !old(draining)
      ensures result.StreamFailed? <==> !stream.open
      ensures Fields() == if result.Accepted? then old(Fields()).Enqueue(msg) else old(Fields())
      ensures result.Accepted? ==> queue == old(queue) + [msg] && writing
      ensures seqNo == old(seqNo) && draining == old(draining)
      ensures spawned <==> result.Accepted? && !old(writing)
    {
      spawned := false;
      if !stream.open {
        return StreamFailed, false;
      } else if draining {
        return StreamClosed, false;
      }
      queue := queue + [msg];
      if !writing {
        writing := true;
        spawned := true;
      }
      result := Accepted;
    }

    method Close() returns (spawned: bool)
      modifies this
      ensures Fields() == old(Fields()).Drain()
      ensures draining && writing && queue == old(queue) && seqNo == old(seqNo)
      ensures spawned <==> !old(writing)
    {
      draining := true;
      spawned := false;
      if !writing {
        writing := true;
        spawned := true;
      }
    }

    /** Top of the write loop: leave the loop, or build the frame of the next attempt. */
    method PrepareSend(failed: bool) returns (frame: Option<Frame>)
      modifies this, stream
      ensures frame.Some? <==> old(stream.open) && (old(draining) || old(queue) != [])
      ensures frame.Some? ==>
                && frame.value == old(Fields()).NextFrame()
                && (frame.value.close <==> old(draining))
                && frame.value.seqNo == old(seqNo) && frame.value.msgs == old(queue)
                && Fields() == old(Fields()) && stream.open == old(stream.open)
      ensures frame.None? ==>
                && Fields() == old(Fields()).StopWriting()
                && !writing && queue == old(queue) && seqNo == old(seqNo) && draining == old(draining)
                && stream.open == (old(stream.open) && !old(draining) && !(failed && closeOnFailure))
    {
      var close := draining;
      if (!close && |queue| == 0) || !stream.open {
        LeaveLoop(failed);
        return None;
      }
      return Some(Frame(seqNo, close, queue));
    }

    /** A send returned without error: retire what it carried, stop after a close frame. */
    method SendSucceeded(n: nat, close: bool) returns (done: bool)
      requires n <= |queue|
      modifies this, stream
      ensures done == close
      ensures Fields() == if close then old(Fields()).Confirm(n).StopWriting() else old(Fields()).Confirm(n)
      ensures seqNo == old(seqNo) + n && old(queue) == old(queue)[..n] + queue
      ensures writing == (old(writing) && !close) && draining == old(draining)
      ensures stream.open == (old(stream.open) && !(close && old(draining)))
    {
      seqNo := seqNo + n;
      queue := queue[n..];
      done := close;
      if close {
        LeaveLoop(false);
      }
    }

    /** A send failed: keep everything for the next attempt, unless the deadline has passed. */
    method SendFailed(expired: bool) returns (done: bool)
      modifies this, stream
      ensures done == expired
      ensures Fields() == if expired then old(Fields()).GiveUp().StopWriting() else old(Fields())
      ensures expired ==> queue == [] && !writing && seqNo == old(seqNo) + |old(queue)| && draining == old(draining)
      ensures stream.open == (old(stream.open) && !(expired && (old(draining) || closeOnFailure)))
    {
      done := expired;
      if expired {
        seqNo := seqNo + |queue|;
        queue := [];
        LeaveLoop(true);
      }
    }

    method LeaveLoop(failed: bool)
      modifies this`writing, stream
      ensures !writing
      ensures stream.open == (old(stream.open) && !draining && !(failed && closeOnFailure))
    {
      writing := false;
      if draining {
        stream.Close();
      }
      if failed && closeOnFailure {
        stream.Close();
      }
    }
  }

  // ---------------------------------------------------------------------------------- reader

  datatype ReadStatus = Running | EndedByClose | EndedDropped | EndedDecode | EndedChannel | EndedStream

  datatype Reader = Reader(seqNo: nat, delivered: seq<Message>, status: ReadStatus)

  /** What is new in a frame for a reader at position `at`. */
  function Fresh(at: nat, frame: Frame): seq<Message>
    requires frame.seqNo <= at
  {
    frame.msgs[if at - frame.seqNo <= |frame.msgs| then at - frame.seqNo else |frame.msgs|..]
  }

  /** One round of the copy loop; `room` is how many messages the message channel still takes. */
  function CopyFrame(r: Reader, frame: Frame, decodes: bool, room: nat): Reader
    requires r.status.Running?
  {
    if !decodes then r.(status := EndedDecode)
    else if r.seqNo < frame.seqNo then r.(status := EndedDropped)
    else
      var unread := Fresh(r.seqNo, frame);
      var taken := if room < |unread| then unread[..room] else unread;
      Reader(r.seqNo + |unread|, r.delivered + taken,
             if room < |unread| then EndedChannel else if frame.close then EndedByClose else Running)
  }

  /** The bounded channel the copy loop writes into. */
  class MessageChannel {
    var contents: seq<Message>
    var room: nat

    constructor (room: nat)
      ensures contents == [] && this.room == room
    {
      contents, this.room := [], room;
    }

    method WriteMessage(msg: Message) returns (ok: bool)
      modifies this
      ensures ok == (old(room) > 0)
      ensures contents == if ok then old(contents) + [msg] else old(contents)
      ensures room == if ok then old(room) - 1 else old(room)
    {
      ok := room > 0;
      if ok {
        contents, room := contents + [msg], room - 1;
      }
    }
  }

  class SignalMessageReader {
    var seqNo: nat

    constructor ()
      ensures seqNo == 0
    {
      seqNo := 0;
    }

    /** Drops what was already read and advances; a frame from further ahead is refused. */
    method Read(frame: Frame) returns (unread: Option<seq<Message>>)
      modifies this
      ensures unread.None? <==> old(seqNo) < frame.seqNo
      ensures unread.None? ==> seqNo == old(seqNo)
      ensures unread.Some? ==> unread.value == Fresh(old(seqNo), frame) && seqNo == old(seqNo) + |unread.value|
      ensures unread.Some? && old(seqNo) <= frame.End() ==>
                frame.msgs == frame.msgs[..old(seqNo) - frame.seqNo] + unread.value && seqNo == frame.End()
      ensures unread.Some? && old(seqNo) > frame.End() ==> unread.value == [] && seqNo == old(seqNo)
    {
      if seqNo < frame.seqNo {
        return None;
      }
      var res := frame.msgs;
      if seqNo > frame.seqNo {
        var n := seqNo - frame.seqNo;
        if n > |res| {
          n := |res|;
        }
        res := res[n..];
      }
      seqNo := seqNo + |res|;
      return Some(res);
    }
  }

  /** One round of CopySignalStreamToMessageChannel: hand on what a frame brings, message by message. */
  method CopySignalFrame(reader: SignalMessageReader, ch: MessageChannel, frame: Frame, decodes: bool)
      returns (status: ReadStatus)
    modifies reader, ch
    ensures Reader(reader.seqNo, ch.contents, status)
         == CopyFrame(Reader(old(reader.seqNo), old(ch.contents), Running), frame, decodes, old(ch.room))
  {
    if !decodes {
      return EndedDecode;
    }
    var res := reader.Read(frame);
    if res.None? {
      return EndedDropped;
    }
    var unread := res.value;
    ghost var before, space := ch.contents, ch.room;
    for i := 0 to |unread|
      invariant reader.seqNo == old(reader.seqNo) + |unread|
      invariant i <= space && ch.room == space - i
      invariant ch.contents == before + unread[..i]
    {
      var ok := ch.WriteMessage(unread[i]);
      if !ok {
        return EndedChannel;
      }
    }
    assert unread[..|unread|] == unread;
    return if frame.close then EndedByClose else Running;
  }

  // ---------------------------------------------------------------------------------- system

  /** A write loop goroutine: about to take the lock, or waiting for a send to return. */
  datatype WriteLoop = Ready(failed: bool) | Sending(frame: Frame)

  /**
   Sink, stream and reader together. `sent` holds every frame ever given to the stream, whether or
   not its send was reported to work; the reader may be handed any of them, at any time, any number
   of times. `accepted`, `confirmed`, `discarded` and `received` record history: the messages
   WriteMessage took, the frames whose send succeeded, the queues given up on, the frames read.
   */
  datatype System = System(
    sink: Sink, closeOnFailure: bool, open: bool, loops: seq<WriteLoop>, reader: Reader,
    accepted: seq<Message>, sent: set<Frame>, confirmed: set<Frame>, discarded: set<Frame>, received: set<Frame>)

  datatype Event =
    | Write(msg: Message)
    | Close
    | Advance(loop: nat)
    | SendReturns(loop: nat, ok: bool, expired: bool)
    | StreamBreaks
    | Receive(frame: Frame, decodes: bool, room: nat)
    | StreamEnds

  function Init(closeOnFailure: bool): System {
    System(Sink(0, [], false, false), closeOnFailure, true, [], Reader(0, [], Running), [], {}, {}, {}, {})
  }

  /** Starts a write loop unless one is marked as running. */
  function Spawn(writing: bool, loops: seq<WriteLoop>): seq<WriteLoop> {
    if writing then loops else loops + [Ready(false)]
  }

  function RemoveAt<T>(s: seq<T>, i: nat): seq<T>
    requires i < |s|
  {
    s[..i] + s[i+1..]
  }

  /** The tail of write(): the loop ends, a draining or failed sink closes the stream. */
  function LeaveLoop(s: System, sink: Sink, loop: nat, failed: bool): System
    requires loop < |s.loops|
  {
    s.(sink := sink.StopWriting(),
       open := s.open && !sink.draining && !(failed && s.closeOnFailure),
       loops := RemoveAt(s.loops, loop))
  }

  function StepWrite(s: System, msg: Message): System {
    if !s.open || s.sink.draining then s
    else s.(sink := s.sink.Enqueue(msg), loops := Spawn(s.sink.writing, s.loops), accepted := s.accepted + [msg])
  }

  function StepClose(s: System): System {
    s.(sink := s.sink.Drain(), loops := Spawn(s.sink.writing, s.loops))
  }

  function StepAdvance(s: System, loop: nat): System {
    if loop >= |s.loops| || !s.loops[loop].Ready? then s
    else if (!s.sink.draining && |s.sink.queue| == 0) || !s.open then
      LeaveLoop(s, s.sink, loop, s.loops[loop].failed)
    else
      var frame := s.sink.NextFrame();
      s.(loops := s.loops[loop := Sending(frame)], sent := s.sent + {frame})
  }

  function StepSendReturns(s: System, loop: nat, ok: bool, expired: bool): System {
    if loop >= |s.loops| || !s.loops[loop].Sending? then s
    else
      var frame := s.loops[loop].frame;
      if ok then
        if |frame.msgs| > |s.sink.queue| then s  // in no reachable state
        else
          var t := s.(sink := s.sink.Confirm(|frame.msgs|), confirmed := s.confirmed + {frame});
          if frame.close then LeaveLoop(t, t.sink, loop, false) else t.(loops := t.loops[loop := Ready(false)])
      else if expired then
        LeaveLoop(s.(discarded := s.discarded + {s.sink.NextFrame()}), s.sink.GiveUp(), loop, true)
      else
        s.(loops := s.loops[loop := Ready(true)])
  }

  function StepReceive(s: System, frame: Frame, decodes: bool, room: nat): System {
    if frame !in s.sent || !s.reader.status.Running? then s
    else s.(reader := CopyFrame(s.reader, frame, decodes, room), received := s.received + {frame})
  }

  function Step(s: System, e: Event): System {
    match e
    case Write(msg) => StepWrite(s, msg)
    case Close => StepClose(s)
    case Advance(loop) => StepAdvance(s, loop)
    case SendReturns(loop, ok, expired) => StepSendReturns(s, loop, ok, expired)
    case StreamBreaks => s.(open := false)
    case Receive(frame, decodes, room) => StepReceive(s, frame, decodes, room)
    case StreamEnds => if s.reader.status.Running? then s.(reader := s.reader.(status := EndedStream)) else s
  }

  function Run(s: System, events: seq<Event>): System
    decreases |events|
  {
    if events == [] then s else Run(Step(s, events[0]), events[1..])
  }

  // ---------------------------------------------------------------------------------- invariant

  /** A frame carries a stretch of the accepted messages; a close frame carries all that remains. */
  ghost predicate FrameOk(s: System, f: Frame) {
    && f.End() <= |s.accepted|
    && f.msgs == s.accepted[f.seqNo..f.End()]
    && f.seqNo <= s.sink.seqNo
    && (f.close ==> s.sink.draining && f.End() == |s.accepted|)
  }

  ghost predicate SinkInv(s: System) {
    && s.sink.seqNo + |s.sink.queue| == |s.accepted|
    && s.sink.queue == s.accepted[s.sink.seqNo..]
    && (s.sink.draining && !s.sink.writing ==> !s.open)
    && (!s.sink.writing && s.open ==> s.sink.queue == [])
    && (s.closeOnFailure && s.open ==> s.discarded == {})
  }

  ghost predicate LoopInv(s: System) {
    && |s.loops| == (if s.sink.writing then 1 else 0)
    && (|s.loops| == 1 && s.loops[0].Sending? ==>
          var f := s.loops[0].frame;
          f in s.sent && f.seqNo == s.sink.seqNo && f.msgs <= s.sink.queue)
  }

  ghost predicate FramesInv(s: System) {
    && (forall f :: f in s.sent ==> FrameOk(s, f))
    && (forall f :: f in s.discarded ==> FrameOk(s, f))
    && s.confirmed <= s.sent
    && s.received <= s.sent
  }

  ghost predicate Covers(f: Frame, i: nat) { f.seqNo <= i < f.End() }

  ghost predicate Carried(frames: set<Frame>, accepted: seq<Message>, i: nat)
    requires i < |accepted|
  {
    exists f :: f in frames && Covers(f, i) && f.msgs[i - f.seqNo] == accepted[i]
  }

  ghost predicate CoveredBy(frames: set<Frame>, i: nat) { exists f :: f in frames && Covers(f, i) }

  /** Every position the sink has moved past was confirmed or given up on. */
  ghost predicate Accounted(s: System) {
    forall i: nat :: i < s.sink.seqNo ==> CoveredBy(s.confirmed, i) || CoveredBy(s.discarded, i)
  }

  ghost predicate ReaderInv(s: System) {
    && s.reader.seqNo <= |s.accepted|
    && s.reader.delivered <= s.accepted
    && (s.reader.status.Running? || s.reader.status.EndedDropped? ==> |s.reader.delivered| == s.reader.seqNo)
    && (s.reader.status.EndedByClose? ==> s.sink.draining && s.reader.delivered == s.accepted)
    && (s.reader.status.Running? ==> forall f :: f in s.received ==> f.End() <= s.reader.seqNo)
  }

  ghost predicate Inv(s: System) {
    SinkInv(s) && LoopInv(s) && FramesInv(s) && Accounted(s) && ReaderInv(s)
  }

  lemma WriteKeepsInv(s: System, msg: Message)
    requires Inv(s)
    ensures Inv(StepWrite(s, msg))
  {
    var t := StepWrite(s, msg);
    forall f | f in t.sent + t.discarded
      ensures FrameOk(t, f)
    {
      assert FrameOk(s, f);
    }
  }

  lemma AdvanceKeepsInv(s: System, loop: nat)
    requires Inv(s)
    ensures Inv(StepAdvance(s, loop))
  {
    var t := StepAdvance(s, loop);
    forall f | f in t.sent + t.discarded
      ensures FrameOk(t, f)
    {
      if f in s.sent + s.discarded {
        assert FrameOk(s, f);
      }
    }
  }

  lemma SendReturnsKeepsInv(s: System, loop: nat, ok: bool, expired: bool)
    requires Inv(s)
    ensures Inv(StepSendReturns(s, loop, ok, expired))
  {
    SendReturnsKeepsSink(s, loop, ok, expired);
    SendReturnsKeepsFrames(s, loop, ok, expired);
    SendReturnsKeepsAccounts(s, loop, ok, expired);
  }

  lemma SendReturnsKeepsSink(s: System, loop: nat, ok: bool, expired: bool)
    requires SinkInv(s) && LoopInv(s) && FramesInv(s)
    ensures var t := StepSendReturns(s, loop, ok, expired);
            && SinkInv(t) && LoopInv(t)
            && t.reader == s.reader && t.received == s.received && t.accepted == s.accepted
            && t.sink.draining == s.sink.draining
  {
    if loop < |s.loops| && s.loops[loop].Sending? {
      assert FrameOk(s, s.loops[loop].frame);
    }
  }

  lemma SendReturnsKeepsFrames(s: System, loop: nat, ok: bool, expired: bool)
    requires Inv(s)
    ensures FramesInv(StepSendReturns(s, loop, ok, expired))
  {
    var t := StepSendReturns(s, loop, ok, expired);
    forall f | f in t.sent + t.discarded
      ensures FrameOk(t, f)
    {
      if f in s.sent + s.discarded {
        assert FrameOk(s, f);
      }
    }
  }

  lemma SendReturnsKeepsAccounts(s: System, loop: nat, ok: bool, expired: bool)
    requires Inv(s)
    ensures Accounted(StepSendReturns(s, loop, ok, expired))
  {
    var t := StepSendReturns(s, loop, ok, expired);
    if t.sink.seqNo > s.sink.seqNo {
      AccountFor(s, t, if ok then s.loops[loop].frame else s.sink.NextFrame());
    } else {
      assert s.confirmed <= t.confirmed && s.discarded <= t.discarded;
    }
  }

  /** Moving the sink past the end of a frame that is booked keeps every position accounted for. */
  lemma AccountFor(s: System, t: System, f: Frame)
    requires Accounted(s) && s.confirmed <= t.confirmed && s.discarded <= t.discarded
    requires f.seqNo == s.sink.seqNo && t.sink.seqNo == f.End()
    requires f in t.confirmed || f in t.discarded
    ensures Accounted(t)
  {
    forall i: nat | i < t.sink.seqNo
      ensures CoveredBy(t.confirmed, i) || CoveredBy(t.discarded, i)
    {
      if i < s.sink.seqNo {
        assert CoveredBy(s.confirmed, i) || CoveredBy(s.discarded, i);
      } else {
        assert Covers(f, i);
      }
    }
  }

  lemma ReceiveKeepsInv(s: System, frame: Frame, decodes: bool, room: nat)
    requires Inv(s)
    ensures Inv(StepReceive(s, frame, decodes, room))
  {
    var t := StepReceive(s, frame, decodes, room);
    forall f | f in t.sent + t.discarded
      ensures FrameOk(t, f)
    {
      assert FrameOk(s, f);
    }
    if frame in s.sent && s.reader.status.Running? {
      assert FrameOk(s, frame);
      CopyFrameDelivers(s.accepted, s.reader, frame, decodes, room);
    }
  }

  /** One round of the copy loop keeps the delivered messages a prefix of the accepted ones. */
  lemma CopyFrameDelivers(accepted: seq<Message>, r: Reader, f: Frame, decodes: bool, room: nat)
    requires r.status.Running? && r.seqNo <= |accepted| && r.delivered == accepted[..r.seqNo]
    requires f.End() <= |accepted| && f.msgs == accepted[f.seqNo..f.End()]
    ensures var q := CopyFrame(r, f, decodes, room);
            && r.seqNo <= q.seqNo <= |accepted| && q.delivered <= accepted
            && (q.status.Running? || q.status.EndedByClose? ==> |q.delivered| == q.seqNo && f.End() <= q.seqNo)
            && (q.status.EndedDropped? ==> q.delivered == r.delivered && q.seqNo == r.seqNo)
  {
    if decodes && f.seqNo <= r.seqNo {
      FreshExtends(accepted, r.seqNo, f);
    }
  }

  /** What a reader takes from a well-formed frame continues the accepted messages exactly. */
  lemma FreshExtends(accepted: seq<Message>, at: nat, f: Frame)
    requires f.seqNo <= at <= |accepted|
    requires f.End() <= |accepted| && f.msgs == accepted[f.seqNo..f.End()]
    ensures accepted[..at] + Fresh(at, f) == accepted[..if at <= f.End() then f.End() else at]
  {
    if at <= f.End() {
      assert Fresh(at, f) == accepted[at..f.End()];
    } else {
      assert Fresh(at, f) == [];
    }
  }

  lemma StepKeepsInv(s: System, e: Event)
    requires Inv(s)
    ensures Inv(Step(s, e))
  {
    var t := Step(s, e);
    match e
    case Write(msg) => WriteKeepsInv(s, msg);
    case Advance(loop) => AdvanceKeepsInv(s, loop);
    case SendReturns(loop, ok, expired) => SendReturnsKeepsInv(s, loop, ok, expired);
    case Receive(frame, decodes, room) => ReceiveKeepsInv(s, frame, decodes, room);
    case _ =>
      assert forall f :: f in s.sent + s.discarded ==> FrameOk(s, f) && FrameOk(t, f);
  }

  lemma {:induction false} RunKeepsInv(s: System, events: seq<Event>)
    requires Inv(s)
    ensures Inv(Run(s, events))
    decreases |events|
  {
    if events != [] {
      StepKeepsInv(s, events[0]);
      RunKeepsInv(Step(s, events[0]), events[1..]);
    }
  }

  lemma ReachableInv(closeOnFailure: bool, events: seq<Event>)
    ensures Inv(Run(Init(closeOnFailure), events))
  {
    RunKeepsInv(Init(closeOnFailure), events);
  }

  // ---------------------------------------------------------------------------------- theorems

  /** Whatever the stream does, the reader hands on an exact prefix of the accepted messages. */
  lemma DeliveredIsPrefix(closeOnFailure: bool, events: seq<Event>)
    ensures var s := Run(Init(closeOnFailure), events);
            s.reader.delivered <= s.accepted
  {
    ReachableInv(closeOnFailure, events);
  }

  /** At most one write loop runs; an idle sink on an open stream has nothing left to send. */
  lemma NothingStranded(closeOnFailure: bool, events: seq<Event>)
    ensures var s := Run(Init(closeOnFailure), events);
            && |s.loops| <= 1
            && (s.loops == [] && s.open ==> s.sink.queue == [] && !s.sink.draining)
  {
    ReachableInv(closeOnFailure, events);
  }

  /** Every accepted message was sent with success, given up on, or is still queued in its place. */
  lemma EveryMessageAccounted(closeOnFailure: bool, events: seq<Event>, i: nat)
    requires i < |Run(Init(closeOnFailure), events).accepted|
    ensures var s := Run(Init(closeOnFailure), events);
            || Carried(s.confirmed, s.accepted, i)
            || Carried(s.discarded, s.accepted, i)
            || (s.sink.seqNo <= i < s.sink.seqNo + |s.sink.queue| && s.sink.queue[i - s.sink.seqNo] == s.accepted[i])
  {
    ReachableInv(closeOnFailure, events);
    var s := Run(Init(closeOnFailure), events);
    if i < s.sink.seqNo {
      assert CoveredBy(s.confirmed, i) || CoveredBy(s.discarded, i);
      var f :| f in s.confirmed + s.discarded && Covers(f, i) && (f in s.confirmed || !CoveredBy(s.confirmed, i));
      assert FrameOk(s, f);
      assert f.msgs[i - f.seqNo] == s.accepted[i];
    }
  }

  /** A sink that closes on failure never skips a message while its stream is open. */
  lemma FailureClosesStream(events: seq<Event>, i: nat)
    requires var s := Run(Init(true), events);
             s.open && i < s.sink.seqNo
    ensures CoveredBy(Run(Init(true), events).confirmed, i)
  {
    ReachableInv(true, events);
    KeepsPolicy(Init(true), events);
    var s := Run(Init(true), events);
    assert CoveredBy(s.confirmed, i) || CoveredBy(s.discarded, i);
  }

  lemma {:induction false} KeepsPolicy(s: System, events: seq<Event>)
    ensures Run(s, events).closeOnFailure == s.closeOnFailure
    decreases |events|
  {
    if events != [] {
      KeepsPolicy(Step(s, events[0]), events[1..]);
    }
  }

  /** A reader that ended on a close frame has delivered every message accepted, then and later. */
  lemma CloseDeliversAll(closeOnFailure: bool, events: seq<Event>, later: seq<Event>)
    requires Run(Init(closeOnFailure), events).reader.status.EndedByClose?
    ensures var s := Run(Run(Init(closeOnFailure), events), later);
            s.reader.status.EndedByClose? && s.reader.delivered == s.accepted
  {
    ReachableInv(closeOnFailure, events);
    ClosedStays(Run(Init(closeOnFailure), events), later);
  }

  lemma {:induction false} ClosedStays(s: System, events: seq<Event>)
    requires Inv(s) && s.reader.status.EndedByClose?
    ensures var t := Run(s, events);
            t.reader.status.EndedByClose? && t.reader.delivered == t.accepted
    decreases |events|
  {
    if events != [] {
      StepKeepsInv(s, events[0]);
      ClosedStays(Step(s, events[0]), events[1..]);
    }
  }

  /** A message is accepted exactly on an open stream before draining, and then it is queued behind the others. */
  lemma AcceptedExactly(s: System, msg: Message)
    ensures var t := Step(s, Write(msg));
            if s.open && !s.sink.draining then
              t.accepted == s.accepted + [msg] && t.sink.queue == s.sink.queue + [msg]
            else t == s
  {
  }

  /** A running reader ends with the dropped error exactly on a frame from beyond its position. */
  lemma DroppedExactlyOnGap(s: System, f: Frame, room: nat)
    requires f in s.sent && s.reader.status.Running?
    ensures Step(s, Receive(f, true, room)).reader.status.EndedDropped? <==> s.reader.seqNo < f.seqNo
    ensures s.reader.seqNo < f.seqNo ==> Step(s, Receive(f, true, room)).reader.delivered == s.reader.delivered
  {
  }

  /**
   What the end of a send does: with success the sink moves past what was carried, and after a close frame the
   loop ends; a failed one is tried again, or past the deadline the queue is given up and the loop ends.
   */
  lemma SendReturnsExactly(closeOnFailure: bool, events: seq<Event>, ok: bool, expired: bool)
    requires var s := Run(Init(closeOnFailure), events); |s.loops| == 1 && s.loops[0].Sending?
    ensures
      var s := Run(Init(closeOnFailure), events);
      var f, t := s.loops[0].frame, Step(s, SendReturns(0, ok, expired));
      && t.accepted == s.accepted && t.sent == s.sent && t.reader == s.reader
      && t.confirmed == (if ok then s.confirmed + {f} else s.confirmed)
      && (if ok then
            && t.sink.seqNo == f.End() <= |s.accepted| && t.sink.queue == s.accepted[f.End()..]
            && t.loops == (if f.close then [] else [Ready(false)])
            && t.open == (s.open && !f.close)
          else if expired then
            && t.sink.seqNo == |s.accepted| && t.sink.queue == []
            && t.discarded == s.discarded + {Frame(s.sink.seqNo, s.sink.draining, s.sink.queue)}
            && t.loops == [] && t.open == (s.open && !s.sink.draining && !closeOnFailure)
          else t == s.(loops := [Ready(true)]))
  {
    ReachableInv(closeOnFailure, events);
    KeepsPolicy(Init(closeOnFailure), events);
    var s := Run(Init(closeOnFailure), events);
    assert FrameOk(s, s.loops[0].frame);
  }

  /** A broken stream is not open, and a stream that ends, ends a running reader; nothing else changes. */
  lemma StreamFailsExactly(s: System)
    ensures var t := Step(s, StreamBreaks); !t.open && t == s.(open := t.open)
    ensures var t := Step(s, StreamEnds);
            && t.reader.status == (if s.reader.status == Running then EndedStream else s.reader.status)
            && t == s.(reader := s.reader.(status := t.reader.status))
  {
  }

  /**
   How reading one frame ends: undecodable or from beyond the reader's position it hands nothing on and ends
   the reader; else the messages not read yet are handed on, as many as there is room for, and the reader
   ends when there was no room for all of them, or with a close frame.
   */
  lemma ReceiveExactly(s: System, f: Frame, decodes: bool, room: nat)
    requires f in s.sent && s.reader.status.Running?
    ensures Step(s, Receive(f, decodes, room)).received == s.received + {f}
    ensures var r, q := s.reader, Step(s, Receive(f, decodes, room)).reader;
            && (!decodes ==> q == r.(status := EndedDecode))
            && (decodes && r.seqNo < f.seqNo ==> q == r.(status := EndedDropped))
            && (decodes && f.seqNo <= r.seqNo ==>
                  var more := if r.seqNo < f.End() then f.End() - r.seqNo else 0;
                  && q.seqNo == r.seqNo + more
                  && q.delivered == r.delivered + f.msgs[|f.msgs| - more..][..if room < more then room else more]
                  && (q.status.EndedChannel? <==> room < more)
                  && (q.status.EndedByClose? <==> f.close && more <= room)
                  && (q.status.Running? <==> !f.close && more <= room))
  {
  }

  /** Lost, repeated and reordered frames never break a reader that saw all confirmed frames. */
  lemma NoSpuriousDrop(closeOnFailure: bool, events: seq<Event>, f: Frame, room: nat)
    requires var s := Run(Init(closeOnFailure), events);
             f in s.sent && s.discarded == {} && s.confirmed <= s.received
    ensures !Run(Init(closeOnFailure), events).reader.status.EndedDropped? ==>
              !Step(Run(Init(closeOnFailure), events), Receive(f, true, room)).reader.status.EndedDropped?
  {
    var s := Run(Init(closeOnFailure), events);
    ReachableInv(closeOnFailure, events);
    if s.reader.status.Running? && s.sink.seqNo > 0 {
      var last := s.sink.seqNo - 1;
      assert CoveredBy(s.confirmed, last) || CoveredBy(s.discarded, last);
      var g :| g in s.confirmed && Covers(g, last);
      assert g in s.received;
    }
    assert FrameOk(s, f);
    if s.reader.status.Running? {
      DroppedExactlyOnGap(s, f, room);
    }
  }

  /** Delivery only ever appends. */
  lemma {:induction false} DeliveredOnlyGrows(s: System, events: seq<Event>)
    ensures s.reader.delivered <= Run(s, events).reader.delivered
    decreases |events|
  {
    if events != [] {
      DeliveredOnlyGrows(Step(s, events[0]), events[1..]);
    }
  }

  /**
   After any failures short of giving up, one attempt that gets through brings the reader fully up
   to date and leaves the sink idle: the frame of a retry always starts where the reader may stand.
   */
  lemma RetryRecovers(closeOnFailure: bool, events: seq<Event>, room: nat)
    requires var s := Run(Init(closeOnFailure), events);
             && s.open && !s.sink.draining && |s.loops| == 1 && s.loops[0].Ready? && s.sink.queue != []
             && s.reader.status.Running? && s.reader.seqNo >= s.sink.seqNo && room >= |s.sink.queue|
    ensures var s := Run(Init(closeOnFailure), events);
            var t := Run(s, [Advance(0), Receive(Frame(s.sink.seqNo, false, s.sink.queue), true, room),
                             SendReturns(0, true, false), Advance(0)]);
            && t.reader.delivered == t.accepted == s.accepted && t.reader.status.Running?
            && t.loops == [] && t.sink.queue == [] && t.open
  {
    ReachableInv(closeOnFailure, events);
    var s := Run(Init(closeOnFailure), events);
    var f := Frame(s.sink.seqNo, false, s.sink.queue);
    var s1 := Step(s, Advance(0));
    var s2 := Step(s1, Receive(f, true, room));
    var s3 := Step(s2, SendReturns(0, true, false));
    var s4 := Step(s3, Advance(0));
    StepKeepsInv(s, Advance(0));
    FreshExtends(s.accepted, s.reader.seqNo, f);
    StepKeepsInv(s1, Receive(f, true, room));
    assert s2.reader.delivered == s.accepted;
    assert s4.loops == [];
    RunFour(s, Advance(0), Receive(f, true, room), SendReturns(0, true, false), Advance(0));
  }

  /**
   And once draining such an attempt, a close frame, delivers all there is, ends the reader and the loop, and
   closes the stream.
   */
  lemma DrainEnds(closeOnFailure: bool, events: seq<Event>, room: nat)
    requires var s := Run(Init(closeOnFailure), events);
             && s.open && s.sink.draining && |s.loops| == 1 && s.loops[0].Ready?
             && s.reader.status.Running? && s.reader.seqNo >= s.sink.seqNo && room >= |s.sink.queue|
    ensures var s := Run(Init(closeOnFailure), events);
            var t := Run(s, [Advance(0), Receive(Frame(s.sink.seqNo, true, s.sink.queue), true, room),
                             SendReturns(0, true, false)]);
            && t.reader.status.EndedByClose? && t.reader.delivered == t.accepted == s.accepted
            && t.loops == [] && t.sink.queue == [] && !t.sink.writing && !t.open
  {
    ReachableInv(closeOnFailure, events);
    var s := Run(Init(closeOnFailure), events);
    var f := Frame(s.sink.seqNo, true, s.sink.queue);
    var s1 := Step(s, Advance(0));
    var s2 := Step(s1, Receive(f, true, room));
    StepKeepsInv(s, Advance(0));
    FreshExtends(s.accepted, s.reader.seqNo, f);
    StepKeepsInv(s1, Receive(f, true, room));
    assert s2.reader.status.EndedByClose?;
    RunThree(s, Advance(0), Receive(f, true, room), SendReturns(0, true, false));
  }

  /** The first message of all goes through, and leaves both ends as they were. */
  lemma FirstMessageArrives(closeOnFailure: bool, msg: Message, room: nat)
    requires room > 0
    ensures var t := Run(Step(Init(closeOnFailure), Write(msg)),
                         [Advance(0), Receive(Frame(0, false, [msg]), true, room),
                          SendReturns(0, true, false), Advance(0)]);
            && t.reader.delivered == t.accepted == [msg] && t.reader.status.Running?
            && t.loops == [] && t.sink.queue == [] && t.open
  {
    var s := Step(Init(closeOnFailure), Write(msg));
    assert [Write(msg)][1..] == [];
    assert Run(Init(closeOnFailure), [Write(msg)]) == s;
    assert s.sink.queue == [msg] && s.accepted == [msg];
    RetryRecovers(closeOnFailure, [Write(msg)], room);
  }

  /** Closing an open idle sink leads there: a loop is started, and its first frame closes. */
  lemma CloseStartsDraining(closeOnFailure: bool, events: seq<Event>)
    requires var s := Run(Init(closeOnFailure), events); s.open && s.loops == []
    ensures var t := Step(Run(Init(closeOnFailure), events), Close);
            && t.open && t.sink.draining && |t.loops| == 1 && t.loops[0].Ready? && t.sink.queue == []
            && Step(t, Advance(0)).loops == [Sending(Frame(t.sink.seqNo, true, []))]
  {
    ReachableInv(closeOnFailure, events);
  }

  lemma RunThree(s: System, a: Event, b: Event, c: Event)
    ensures Run(s, [a, b, c]) == Step(Step(Step(s, a), b), c)
  {
    assert [a, b, c][1..] == [b, c] && [b, c][1..] == [c] && [c][1..] == [];
    var s1, s2 := Step(s, a), Step(Step(s, a), b);
    assert Run(s2, [c]) == Step(s2, c);
    assert Run(s1, [b, c]) == Run(s2, [c]);
  }

  lemma RunFour(s: System, a: Event, b: Event, c: Event, d: Event)
    ensures Run(s, [a, b, c, d]) == Step(Step(Step(Step(s, a), b), c), d)
  {
    assert [a, b, c, d][1..] == [b, c, d] && [b, c, d][1..] == [c, d] && [c, d][1..] == [d] && [d][1..] == [];
    var s1, s2, s3 := Step(s, a), Step(Step(s, a), b), Step(Step(Step(s, a), b), c);
    assert Run(s3, [d]) == Step(s3, d);
    assert Run(s2, [c, d]) == Run(s3, [d]);
    assert Run(s1, [b, c, d]) == Run(s2, [c, d]);
  }
}
