/**
 The one-deep queue through which a participant trickles its local candidates to the client: a
 candidate is sent only when the next one, or the end mark, has arrived, so that the last of a
 batch can be marked final (end of candidates, section 13 of RFC 8838).
 */
module Trickle {
  import opened Common
  import opened Negotiation

  datatype TrickleMessage = TrickleMessage(candidate: Candidate, final: bool)

  /** The queue slot of one signal target; the calls it has seen, and the messages the client got. */
  class IceQueue {
    var slot: Option<Candidate>
    ghost var seen: seq<Call>
    ghost var sent: seq<TrickleMessage>

    ghost predicate Valid()
      reads this
    {
      slot == Pending(seen) && sent == Messages(seen)
    }

    constructor ()
      ensures Valid() && seen == []
    {
      slot, seen, sent := None, [], [];
    }

    /**
     Swaps the new candidate (or end mark) in and sends the one that was waiting; `written` says how the
     write ends. The new one stays even when the write fails.
     */
    method SendICECandidate(ic: Option<Candidate>, written: bool) returns (ok: bool)
      requires Valid()
      modifies this
      ensures Valid() && seen == old(seen) + [Call(ic, ok)]
      ensures ok <==> old(slot).None? || written
    {
      var prev := slot;
      slot := ic;
      ok := prev.None? || written;
      if prev.Some? && ok {
        sent := sent + [TrickleMessage(prev.value, ic.None?)];
      }
      MessagesAppend(seen, Call(ic, ok));
      seen := seen + [Call(ic, ok)];
    }
  }

  /** What is still waiting after a stream of calls: the last candidate. */
  function Pending(s: seq<Call>): Option<Candidate> {
    if s == [] then None else s[|s|-1].candidate
  }

  /**
   Each candidate that a successful call follows becomes a message, final exactly when that call brings the
   end mark.
   */
  function Messages(s: seq<Call>): seq<TrickleMessage> {
    if |s| < 2 then []
    else (if s[0].candidate.Some? && s[1].ok then [TrickleMessage(s[0].candidate.value, s[1].candidate.None?)] else [])
         + Messages(s[1..])
  }

  lemma Regroup(a: seq<TrickleMessage>, b: seq<TrickleMessage>, c: seq<TrickleMessage>)
    ensures a + (b + c) == (a + b) + c
  {
  }

  lemma {:induction false} MessagesAppend(s: seq<Call>, c: Call)
    ensures Messages(s + [c])
         == Messages(s)
            + (if Pending(s).Some? && c.ok then [TrickleMessage(Pending(s).value, c.candidate.None?)] else [])
  {
    if |s| >= 2 {
      assert (s + [c])[1..] == s[1..] + [c] && (s + [c])[0] == s[0] && (s + [c])[1] == s[1];
      MessagesAppend(s[1..], c);
      Regroup(
        if s[0].candidate.Some? && s[1].ok then [TrickleMessage(s[0].candidate.value, s[1].candidate.None?)] else [],
        Messages(s[1..]),
        if Pending(s).Some? && c.ok then [TrickleMessage(Pending(s).value, c.candidate.None?)] else []);
    } else if |s| == 1 {
      assert (s + [c])[1..] == [c];
      assert Messages([c]) == [];
    }
  }

  /** A candidate arrives when the call after its own succeeds. */
  predicate Arrives(s: seq<Call>, i: nat) { i + 1 < |s| && s[i].candidate.Some? && s[i + 1].ok }

  /** Where in the stream of calls the messages come from. */
  function Origins(s: seq<Call>): seq<nat> {
    if |s| < 2 then []
    else Origins(s[..|s| - 1]) + if Arrives(s, |s| - 2) then [|s| - 2] else []
  }

  /** The messages are the candidates that arrive, in the order of their calls, final exactly before an end mark. */
  ghost predicate InOrder(ms: seq<TrickleMessage>, s: seq<Call>, at: seq<nat>) {
    && |ms| == |at|
    && (forall i, j :: 0 <= i < j < |at| ==> at[i] < at[j])
    && (forall i: nat :: i in at <==> Arrives(s, i))
    && (forall k :: 0 <= k < |at| ==>
          Arrives(s, at[k]) && ms[k] == TrickleMessage(s[at[k]].candidate.value, s[at[k] + 1].candidate.None?))
  }

  lemma ArrivesLater(s: seq<Call>, c: Call)
    requires s != []
    ensures forall i: nat :: Arrives(s + [c], i) <==> Arrives(s, i) || (i == |s| - 1 && s[i].candidate.Some? && c.ok)
  {
  }

  lemma InOrderAppends(ms: seq<TrickleMessage>, s: seq<Call>, at: seq<nat>, c: Call)
    requires InOrder(ms, s, at) && s != []
    ensures
      var last := s[|s| - 1].candidate;
      if last.Some? && c.ok then InOrder(ms + [TrickleMessage(last.value, c.candidate.None?)], s + [c], at + [|s| - 1])
      else InOrder(ms, s + [c], at)
  {
    ArrivesLater(s, c);
    assert forall k :: 0 <= k < |at| ==> at[k] in at;
  }

  /** Whatever fails, the client gets exactly the candidates whose next call succeeds, in order. */
  lemma {:induction false} MessagesInOrder(s: seq<Call>)
    ensures InOrder(Messages(s), s, Origins(s))
  {
    if |s| >= 2 {
      var front, c := s[..|s| - 1], s[|s| - 1];
      assert s == front + [c];
      MessagesInOrder(front);
      MessagesAppend(front, c);
      InOrderAppends(Messages(front), front, Origins(front), c);
    }
  }

  function Present(s: seq<Call>): seq<Candidate> {
    if s == [] then [] else (if s[0].candidate.Some? then [s[0].candidate.value] else []) + Present(s[1..])
  }

  function Received(ms: seq<TrickleMessage>): seq<Candidate> {
    if ms == [] then [] else [ms[0].candidate] + Received(ms[1..])
  }

  /** The candidates whose message could not be written: those that a failed call follows. */
  function Unwritten(s: seq<Call>): nat {
    if |s| < 2 then 0
    else (if s[0].candidate.Some? && !s[1].ok then 1 else 0) + Unwritten(s[1..])
  }

  /** A failed write loses the one candidate that was waiting, no more and no other. */
  lemma {:induction false} OneLostPerFailure(s: seq<Call>)
    ensures |Present(s)| == |Received(Messages(s))| + Unwritten(s) + if Pending(s).Some? then 1 else 0
  {
    if |s| >= 2 {
      OneLostPerFailure(s[1..]);
      if s[0].candidate.Some? && s[1].ok {
        var m := TrickleMessage(s[0].candidate.value, s[1].candidate.None?);
        assert ([m] + Messages(s[1..]))[1..] == Messages(s[1..]);
      } else {
        assert Messages(s) == Messages(s[1..]);
      }
    } else if |s| == 1 {
      assert s[1..] == [];
    }
  }

  /** With no failed write the client gets every candidate, in order, but for the one still waiting. */
  lemma {:induction false} AtMostOneBehind(s: seq<Call>)
    requires Unwritten(s) == 0
    ensures Present(s) == Received(Messages(s)) + (if Pending(s).Some? then [Pending(s).value] else [])
  {
    if |s| >= 2 {
      AtMostOneBehind(s[1..]);
      if s[0].candidate.Some? {
        var m := TrickleMessage(s[0].candidate.value, s[1].candidate.None?);
        assert ([m] + Messages(s[1..]))[1..] == Messages(s[1..]);
      } else {
        assert Messages(s) == Messages(s[1..]) && Present(s) == Present(s[1..]);
      }
    } else if |s| == 1 {
      assert s[1..] == [];
    }
  }

  /** A batch of candidates closed by the end mark, all written, arrives whole, and only its last one is final. */
  lemma {:induction false} BatchIsClosedByFinal(batch: seq<Candidate>, rest: seq<Call>)
    requires batch != []
    ensures var marked := seq(|batch|, i requires 0 <= i < |batch| => Call(Some(batch[i]), true));
            var s := marked + [Call(None, true)] + rest;
            && |batch| <= |Messages(s)|
            && (forall i :: 0 <= i < |batch| ==> Messages(s)[i] == TrickleMessage(batch[i], i == |batch| - 1))
            && Messages(s)[|batch|..] == Messages([Call(None, true)] + rest)
    decreases |batch|
  {
    var marked := seq(|batch|, i requires 0 <= i < |batch| => Call(Some(batch[i]), true));
    var s := marked + [Call(None, true)] + rest;
    if |batch| == 1 {
      assert s[1..] == [Call(None, true)] + rest;
    } else {
      var shorter := seq(|batch| - 1, i requires 0 <= i < |batch| - 1 => Call(Some(batch[1..][i]), true));
      assert s[1..] == shorter + [Call(None, true)] + rest;
      BatchIsClosedByFinal(batch[1..], rest);
    }
  }

  /**
   From peer connection to client, over any run of the transport: the client gets, in order, exactly the
   candidates passed on whose next call succeeds, so it lacks one for each failed write and one still
   waiting; and those calls end with the ones for the candidates handled since the last clear.
   */
  lemma ClientSeesEmitted(events: seq<Event>)
    ensures var c := Run(INIT, events).candidates;
            && InOrder(Messages(c.calls), c.calls, Origins(c.calls))
            && |Present(c.calls)|
               == |Received(Messages(c.calls))| + Unwritten(c.calls) + (if Pending(c.calls).Some? then 1 else 0)
            && (Unwritten(c.calls) == 0 ==> Received(Messages(c.calls)) <= Present(c.calls))
            && |c.fates| <= |c.handled|
            && EndsWith(c.calls, CallsOf(c.handled[..|c.fates|], c.fates))
  {
    var calls := Run(INIT, events).candidates.calls;
    MessagesInOrder(calls);
    OneLostPerFailure(calls);
    if Unwritten(calls) == 0 {
      AtMostOneBehind(calls);
    }
    RunKeepsInv(INIT, events);
  }
}
