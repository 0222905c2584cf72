/** From a room's batch of updates to what one client knows. */
module Broadcast {
  import opened Common
  import Batcher = UpdateBatcher
  import Gate = UpdateGate

  /** Hidden participants never enter the batch. */
  function AsSent(info: Batcher.Info): Gate.Info { Gate.Info(info.sid, info.version, false) }

  /** Every update the batch has given out was handed to the client, at whatever time and in whatever order. */
  ghost predicate HandedOn(out: seq<Batcher.Update>, received: seq<Gate.Info>) {
    forall i :: 0 <= i < |out| ==> Tally(received, AsSent(out[i].info)) > 0
  }

  /**
   Once the batch has been flushed, a client that is sent full lists, has joined and not left, knows
   every session of which the batch accepted an update, at that version or a later one.
   */
  lemma ClientsCatchUp(
    pushes: seq<Batcher.Event>, order: seq<Batcher.Identity>, self: Gate.Id, sends: seq<Gate.Event>, n: nat)
    requires IsOrder(order, Batcher.Run(Batcher.INIT, pushes).cache.Keys)
    requires HandedOn(Batcher.StepFlush(Batcher.Run(Batcher.INIT, pushes), order).out,
                      Gate.Run(Gate.Init(self), sends).received)
    requires Gate.OrderlyRun(Gate.Init(self), sends) && Gate.FewIds(Gate.Run(Gate.Init(self), sends).gate)
    requires Gate.Run(Gate.Init(self), sends).stage == Gate.Done
    requires Gate.Run(Gate.Init(self), sends).phase != Gate.Disconnected
    requires n < |Batcher.Run(Batcher.INIT, pushes).accepted|
    ensures
      var info := Batcher.Run(Batcher.INIT, pushes).accepted[n];
      var told := Gate.Run(Gate.Init(self), sends).gate.told;
      info.sid in told && told[info.sid] >= info.version
  {
    Batcher.NothingLost(pushes, order, n);
    var info := Batcher.Run(Batcher.INIT, pushes).accepted[n];
    var out := Batcher.StepFlush(Batcher.Run(Batcher.INIT, pushes), order).out;
    var i :| 0 <= i < |out| && Batcher.Carries(out[i], info, n);
    Gate.EveryUpdateTold(self, sends, AsSent(out[i].info));
  }
}
