# VoiceKit server: verified models of the signalling, subscription and store protocols

VoiceKit is a WebRTC selective forwarding unit. Most of the server joins other systems together; some
parts are small protocols of their own, with state that several goroutines, callbacks and clients change
in turn. These Dafny files model thirteen of them and prove what each keeps over every run.

Most files have the same shape. A `State` holds the fields the Go code keeps, and what happened so far
(history that only the theorems read). An `Event` is one critical section of the code: a call, a callback,
a timer that ran out, an answer from the network. `Step` is what the code does on it, `Run` a whole list of
events, so a statement about `Run` holds for every interleaving. A class with the fields of the Go struct
does the same in place; each of its methods is proved to change its fields exactly as `Step`, or the
function `Step` is made of, says. The theorems are about the state after any run. Peer connections,
streams, Redis answers, clocks, timers, random draws and map order are inputs that may take any value.

| file | what it models |
|---|---|
| `SignalRelay.dfy` | the relay between signal node and media node: sequence numbers, retries, give-up, draining, and the reader that drops overlap and refuses gaps |
| `Subscriptions.dfy` | the subscription reconciler: desired against held tracks, counters and limits, per-publisher index, close callbacks |
| `Negotiation.dfy` | the offerer: None/Remote/Retry, ICE restarts put off by gathering or an outstanding offer, candidates held back until the description is sent (section 4 of RFC 3264) |
| `Trickle.dfy` | the one-deep candidate queue that marks the last candidate of a batch final (section 13 of RFC 8838) |
| `IngressStore.dfy` | the ingress table, room index and state in Redis under WATCH transactions |
| `TrunkPaging.dfy` | paged listings of SIP trunks over two or three key spaces, in which a trunk may have more than one record |
| `SortedIds.dfy` | the first ids of a set, and what merging sorted lists, or the cuts of them, gives |
| `PacketDeduper.dfy` | the data packet deduper: a linked list inside a map, bounded to 100 ids |
| `PendingTracks.dfy` | the queues of publish requests and the live tracks made from them |
| `UpdateBatcher.dfy` | the room's batch of participant updates and the order of sessions |
| `UpdateGate.dfy` | what one client is told: queue until the join response, version gate over an LRU cache of 128 ids |
| `Broadcast.dfy` | the two above together: what a client knows once a batch is flushed |
| `ReceiverHandover.dfy` | handing over from the dummy receiver to the real one, interleaved with every other call |
| `WorkerSelection.dfy` | choosing an agent worker at random by spare capacity, and trying the next one |
| `LossWindow.dfy` | the 32-report loss window behind the TCP fallback, and the smoothed round-trip time |
| `Common.dfy` | definitions and set, sequence and order lemmas shared by the others |

Some properties one would expect do not hold of the code. Each has a lemma with an input that shows it,
and the exact condition under which the property holds:

- A publish request queued behind a track that is live under another client id is never announced: the
  close callback looks at the id the track was requested under only (`PendingTracks.StrandingHappens`,
  exactly: `PendingTracks.ServedExactly`).
- `CompareParticipant` is no order on three sessions that joined in the same second if one has no
  millisecond time, its sid lies between the other two, and their times and sids are ordered differently
  (`UpdateBatcher.CompareCycles`, exactly: `UpdateBatcher.CompareTransitive`).
- Updates can go back to an older session of an identity when nothing is cached and the room has no newer
  participant (`UpdateBatcher.SessionsGoBack`, exactly: `UpdateBatcher.SessionsNeverGoBack` and
  `UpdateBatcher.PushForwardExactly`).
- A negotiation request, or an ICE restart that is owed, is lost when the fresh offer for it cannot be
  created or set, a restart also when recovery fails (`Negotiation.RequestIsLost`,
  `Negotiation.RestartIsLost`, exactly: `Negotiation.RequestLostExactly`, `Negotiation.RestartLostExactly`).
  The server answers such an error with a full reconnect (pkg/rtc/participant.go:3131-3136).
- When the answer to the outstanding offer applies but a candidate received ahead of it is rejected, the
  handler returns before it resets the state (pkg/rtc/transport.go:2275-2280, 2396-2404): the transport waits
  for an answer it has had, and no event makes it offer again, so what waits for the next offer is never
  served; again only the full reconnect helps (`Negotiation.RejectedCandidateSticks`, exactly:
  `Negotiation.StuckExactly`, `Negotiation.OffersAgainExactly`, `Negotiation.RequestStrandedExactly`).
- `DeleteIngress` trusts the room its caller names; another room leaves a stale index entry
  (`IngressStore.WrongRoomMisleads`, exactly: `IngressStore.StepKeepsExact`).
- Chained SIP pages with a filter can skip trunks, because ids are cut off before the filter
  (`TrunkPaging.FilteredChainSkips`, exactly: `TrunkPaging.FilteredChainExactly`).
- A listing can give a SIP trunk twice: updating a legacy trunk stores it in the key space of its direction,
  and the legacy record stays (`TrunkPaging.UpdatedTrunkTwice`, exactly:
  `TrunkPaging.UpdateKeepsOneRecordExactly`, `TrunkPaging.PageOnceExactly`, `TrunkPaging.EachOnceExactly`).
- A participant made active before its join response is written is sent updates ahead of it
  (`UpdateGate.EarlyActivation`, exactly: `UpdateGate.EarlyExactly`).
- With more than 128 ids in use a client may be told an older version (`UpdateGate.OlderVersionTold`,
  exactly: `UpdateGate.StaleExactly`).
- The smoothed round-trip time stops one unit short of a constant sample (`LossWindow.SmoothedStuck`,
  exactly: `LossWindow.SmoothedReachesExactly`).

The comment on `setTrackID` says that several requests under one client id should not happen; the queue
beside it serves exactly that case, and the model follows the code.

## Model

| member | source | states |
|---|---|---|
| SignalRelay.SignalMessageSink.WriteMessage | pkg/routing/signal.go:351-367 | a closed or draining sink refuses; otherwise the message joins the queue and a write loop is started unless one runs |
| SignalRelay.SignalMessageSink.Close | pkg/routing/signal.go:268-290 | closing starts draining; an idle sink closes its stream through one more loop |
| SignalRelay.SignalMessageSink.PrepareSend | pkg/routing/signal.go:302-310 | the loop ends exactly when there is nothing to send or the stream is closed, else the frame carries the whole queue from the sink's position, and closes exactly once draining |
| SignalRelay.SignalMessageSink.SendSucceeded | pkg/routing/signal.go:327-339 | exactly what was carried leaves the queue and the position moves past it |
| SignalRelay.SignalMessageSink.SendFailed | pkg/routing/signal.go:311-325 | a failed attempt keeps the queue; past the deadline it is thrown away and its positions are skipped |
| SignalRelay.SignalMessageSink.LeaveLoop | pkg/routing/signal.go:341-348 | the loop is no longer running; a draining sink closes the stream, a failed one too if it closes on failure |
| SignalRelay.SignalMessageReader.Read | pkg/routing/signal.go:221-240 | a frame from beyond the reader's position is an error; of any other only what is new is returned |
| SignalRelay.CopySignalFrame | pkg/routing/signal.go:193-211 | one round of the copy loop is the function the reader's theorems are about |
| SignalRelay.DeliveredIsPrefix | pkg/routing/signal.go:183-240 | however frames are lost, repeated, reordered, failed yet delivered or given up on, what is handed on is an exact prefix of what was accepted |
| SignalRelay.NothingStranded | pkg/routing/signal.go:296-348 | at most one write loop runs, and an idle sink on an open stream has an empty queue |
| SignalRelay.EveryMessageAccounted | pkg/routing/signal.go:296-366 | every accepted message was sent with success, given up on, or is still queued in its place |
| SignalRelay.FailureClosesStream | pkg/routing/signal.go:341-348 | a sink that closes on failure never skips a message while its stream is open |
| SignalRelay.CloseDeliversAll | pkg/routing/signal.go:208-211 | a reader that ended on a close frame has delivered every message accepted, then and later |
| SignalRelay.NoSpuriousDrop | pkg/routing/signal.go:221-240 | lost, repeated and reordered frames never break a reader that has seen what was confirmed |
| SignalRelay.DeliveredOnlyGrows | pkg/routing/signal.go:183-211 | no run takes back or changes what was delivered |
| SignalRelay.RetryRecovers | pkg/routing/signal.go:302-339 | after failures short of giving up one attempt that gets through brings the reader fully up to date and leaves the sink idle |
| SignalRelay.FirstMessageArrives | pkg/routing/signal.go:302-367 | the first message of all goes through and leaves sink, stream and reader ready for the next |
| SignalRelay.DrainEnds | pkg/routing/signal.go:302-348 | once draining such an attempt brings a close frame: everything accepted is delivered, the reader and the loop end, and the stream is closed |
| SignalRelay.CloseStartsDraining | pkg/routing/signal.go:268-290 | closing an idle sink on an open stream starts a loop whose first frame is a close frame |
| SignalRelay.AcceptedExactly | pkg/routing/signal.go:351-367 | a message is accepted exactly on an open stream before draining, and queued behind all others |
| SignalRelay.SendReturnsExactly | pkg/routing/signal.go:311-339 | in every reachable state: success moves the sink past what the frame carried and ends the loop after a close frame, failure is retried, the deadline gives the queue up and closes as the policy says |
| SignalRelay.ReceiveExactly | pkg/routing/signal.go:183-240 | reading a frame hands on exactly what is new and fits, and ends the reader exactly on a decode error, a gap, a full channel or a close frame |
| Subscriptions.MediaTracks.AddSubscriber | pkg/rtc/mediatracksubscriptions.go:96-106 | a listed subscriber is refused, any other is listed |
| Subscriptions.MediaTracks.DownTrackClosed | pkg/rtc/mediatracksubscriptions.go:465-487 | the list entry is gone before the close callback runs |
| Subscriptions.SubscriptionManager.SubscribeToTrack | pkg/rtc/subscriptionmanager.go:142-167 | the track is desired from now on, whether its entry was there or is new, and the entry is otherwise as it was |
| Subscriptions.SubscriptionManager.UnsubscribeFromTrack | pkg/rtc/subscriptionmanager.go:169-182 | a known track is no longer desired; an unknown one changes nothing |
| Subscriptions.SubscriptionManager.ClearAllSubscriptions | pkg/rtc/subscriptionmanager.go:184-199 | no track is desired any more; the entries stay |
| Subscriptions.SubscriptionManager.HandleSourceTrackRemoved | pkg/rtc/subscriptionmanager.go:762-770 | a track whose source is gone for good is no longer desired |
| Subscriptions.AskingSetsDesired | pkg/rtc/subscriptionmanager.go:142-199 | asking for a track adds it to what is desired, asking no more or a removed source takes it out, clearing empties it, settings change nothing of it |
| Subscriptions.AskingHoldsNothing | pkg/rtc/subscriptionmanager.go:142-199 | none of these takes or gives up a track: list entries, books and holdings are as before, and entries only appear |
| Subscriptions.DesiredExactly | pkg/rtc/subscriptionmanager.go:395-407 | no other event changes what is desired, but a reconcile whose track does not resolve within its time: that one is given up |
| Subscriptions.DesiredSinceLastWant | pkg/rtc/subscriptionmanager.go:142-199 | over every run a track is desired exactly when it was asked for and nothing that revokes it came since |
| Subscriptions.SubscriptionManager.HasCapacityForSubscription | pkg/rtc/subscriptionmanager.go:496-509 | false exactly when the kind has a limit and has reached it |
| Subscriptions.SubscriptionManager.IndexTrack | pkg/rtc/subscriptionmanager.go:620-637 | the track enters its publisher's index and the first one is announced |
| Subscriptions.SubscriptionManager.TrySubscribe | pkg/rtc/subscriptionmanager.go:511-638 | the checks of one attempt, in the order that decides which error is reported |
| Subscriptions.SubscriptionManager.ReconcileSubscription | pkg/rtc/subscriptionmanager.go:358-461 | unsubscribe, subscribe or clean up as the entry needs |
| Subscriptions.SubscriptionManager.HandleSubscribedTrackClose | pkg/rtc/subscriptionmanager.go:777-878 | the slot, the index entry and the track are given back; an unexpected close of a desired track is retried |
| Subscriptions.SubscribeOutcome | pkg/rtc/subscriptionmanager.go:511-638 | an attempt succeeds exactly when nothing is in its way, and touches one entry only |
| Subscriptions.ErrorsInOrder | pkg/rtc/subscriptionmanager.go:511-638 | which of the checks that fail is reported, and that the kind is recorded once the track resolves |
| Subscriptions.StageMoves | pkg/rtc/subscriptionmanager.go:343-461 | a held track goes from attached to closing, detached and gone, each on its own event only |
| Subscriptions.EntryGoesExactly | pkg/rtc/subscriptionmanager.go:452-460 | an entry is removed exactly when it is reconciled while neither desired nor held |
| Subscriptions.BooksAgree | pkg/rtc/subscriptionmanager.go:496-638 | in every reachable state each counter is the number of held tracks of its kind and within its limit, and the index of a publisher is exactly its held tracks, never empty |
| Subscriptions.NoticesAlternate | pkg/rtc/subscriptionmanager.go:620-637 | per publisher the subscribed and unsubscribed notices are issued strictly in turn and the one issued last tells whether a track is held |
| Subscriptions.NeverSubscribedTwice | pkg/rtc/mediatracksubscriptions.go:96-106 | a subscribe attempt never meets a media track that still lists the participant |
| Subscriptions.QuietStepRanks | pkg/rtc/subscriptionmanager.go:1162-1184 | once nothing new is asked for, a step touches one entry and lowers its distance from the goal exactly when it is effective |
| Subscriptions.MeasureFalls | pkg/rtc/subscriptionmanager.go:343-461 | the distance summed over all subscriptions never rises and falls on every effective step |
| Subscriptions.Progress | pkg/rtc/subscriptionmanager.go:343-461 | while the goal is not reached some step is effective |
| Subscriptions.SlotToFree | pkg/rtc/subscriptionmanager.go:496-509 | a kind at its limit holds a track that is about to be freed |
| Subscriptions.Converges | pkg/rtc/subscriptionmanager.go:343-461 | from any settled reachable state the held set can be brought to equal the desired set, with undesired entries gone |
| Subscriptions.ConvergedExactly | pkg/rtc/subscriptionmanager.go:343-461 | the goal is reached exactly when no step has an effect any more |
| Subscriptions.FewEffectiveSteps | pkg/rtc/subscriptionmanager.go:343-461 | in whatever order the steps come, no more than the measure can have an effect |
| Subscriptions.EnoughStepsConverge | pkg/rtc/subscriptionmanager.go:343-461 | and a schedule that has had as many has reached the goal |
| Negotiation.PCTransport.CreateOffer | pkg/rtc/transport.go:2126-2218 | an offer is created, or the request is kept for later, as the state demands; what becomes of the candidates is in the theorems on releasing them |
| Negotiation.PCTransport.MakeOffer | pkg/rtc/transport.go:2168-2218 | a failure at any point leaves the state that point had reached |
| Negotiation.PCTransport.ClearLocalDescriptionSent | pkg/rtc/transport.go:1974-1978 | candidates are held back anew and those held back are dropped |
| Negotiation.PCTransport.DoICERestart | pkg/rtc/transport.go:2417-2478 | a restart goes out, or waits for gathering or for the next offer; recovery re-applies the last answer first, which can succeed only while an offer is outstanding |
| Negotiation.PCTransport.HandleRemoteAnswerReceived | pkg/rtc/transport.go:2393-2415 | an answer ends the outstanding offer, and a retry waiting for it goes out |
| Negotiation.PCTransport.HandleICEGatheringComplete | pkg/rtc/transport.go:1921-1937 | a restart put off by gathering resumes |
| Negotiation.PCTransport.HandleLocalICECandidate | pkg/rtc/transport.go:1980-2007 | a candidate is filtered out, held back or sent on |
| Negotiation.PCTransport.LocalDescriptionSent | pkg/rtc/transport.go:1955-1972 | held-back candidates are passed on in order up to the first failed call; the rest is not called for |
| Negotiation.OffersOnlyWhenIdle | pkg/rtc/transport.go:2126-2218 | every fresh offer was created from state None with no offer outstanding, whatever failed |
| Negotiation.NoRequestLost | pkg/rtc/transport.go:2126-2166 | on an open connection a request that no later offer has served keeps the state in Retry, exactly unless a failure made the transport lose it |
| Negotiation.RequestsCoalesce | pkg/rtc/transport.go:2393-2415 | any number of requests during an outstanding offer end in one offer after the answer |
| Negotiation.RestartNotForgotten | pkg/rtc/transport.go:2417-2478 | on an open connection an owed restart is on record until an offer that restarts ICE is created, exactly unless a failure made the transport lose it |
| Negotiation.RequestLostExactly | pkg/rtc/transport.go:2393-2415 | an event leaves requests with nothing on record exactly when it tries a fresh offer for them that cannot be created or set as local description |
| Negotiation.RestartLostExactly | pkg/rtc/transport.go:2150-2193 | an event leaves an owed restart with nothing on record exactly when such an offer fails, or recovery by the last answer does with none on record for the next offer, and no restart waits for gathering |
| Negotiation.StuckExactly | pkg/rtc/transport.go:2275-2280 | an event makes a transport stuck, waiting for an answer it has had, exactly when it is the answer to the outstanding offer and a candidate received ahead of it is rejected |
| Negotiation.StuckForever | pkg/rtc/transport.go:2126-2147 | whatever happens to a stuck transport, it makes no offer and serves no request until it is closed |
| Negotiation.OffersAgainExactly | pkg/rtc/transport.go:2393-2415 | on an open connection some run makes another offer exactly if the transport is not stuck |
| Negotiation.AnswerServesExactly | pkg/rtc/transport.go:2406-2411 | the next answer that applies serves the waiting requests, and carries the restart due, exactly unless the transport is stuck, which takes no answer |
| Negotiation.RequestStrandedExactly | pkg/rtc/transport.go:2396-2404 | an event takes requests past serving exactly when a fresh offer for them fails, a rejected candidate makes the transport that holds them stuck, or they are made to a stuck one |
| Negotiation.RestartStrandedExactly | pkg/rtc/transport.go:2396-2404 | and an owed restart exactly when it is lost, or in the same two cases |
| Negotiation.RejectedCandidateSticks | pkg/rtc/transport.go:2396-2404 | a second request waiting behind the first offer, whose answer applies but for a candidate, is on record and never served |
| Negotiation.RequestIsLost | pkg/rtc/transport.go:2168-2177 | a first request whose offer cannot be created |
| Negotiation.RestartIsLost | pkg/rtc/transport.go:2406-2410 | a restart waiting for the next offer, when that offer cannot be created |
| Negotiation.NextOfferRestarts | pkg/rtc/transport.go:2150-2166 | an event creates at most one offer, and a restart due at the next offer is in that offer |
| Negotiation.OfferMadeExactly | pkg/rtc/transport.go:2126-2218 | an event makes one offer exactly when it tries one that can be created and set, and the offer restarts ICE exactly when a restart was asked for, due, or a previous answer is set |
| Negotiation.RestartRecordedExactly | pkg/rtc/transport.go:2150-2166 | what makes the next offer restart ICE is recorded when it comes up and kept until an offer is tried; a restart asked for while gathering waits for its end |
| Negotiation.CountedExactly | pkg/rtc/transport.go:2126-2218 | every request counts, an offer made serves all there are, and an owed restart is settled by an offer that restarts ICE only |
| Negotiation.ClosedExactly | pkg/rtc/transport.go:2168-2193 | a connection counts as closed exactly from when it says so or a call on it finds it closed |
| Negotiation.DeferredRestartResumes | pkg/rtc/transport.go:1929-1937 | when gathering ends, a restart that waited for it goes out or waits for the outstanding offer, unless that very offer or recovery fails |
| Negotiation.CandidatesInOrder | pkg/rtc/transport.go:1955-2007 | since the last clear, the unfiltered candidates are those passed on, in order, then those held back; nothing is missing exactly when no call for one of them failed |
| Negotiation.CandidateLostExactly | pkg/rtc/transport.go:1955-2007 | an event that tries no restart leaves a candidate out exactly when a call to the handler fails in it |
| Negotiation.SentOfferReleases | pkg/rtc/transport.go:2212-2217 | once an offer is written no candidate is held back any more |
| Negotiation.OfferTreatsCandidates | pkg/rtc/transport.go:2168-2218 | an offer that is to restart ICE starts anew and passes nothing on; any other, when written, passes on what was held back in order until a call fails; an offer not written changes nothing |
| Negotiation.CachingExactly | pkg/rtc/transport.go:1955-1978 | over every run candidates are held back exactly from an attempt to restart ICE until the next offer is written |
| Negotiation.LocalCandidateExactly | pkg/rtc/transport.go:1980-2007 | a candidate not filtered out is held back while holding back, and called for at once otherwise |
| Trickle.IceQueue.SendICECandidate | pkg/rtc/participant_signal.go:279-293 | the waiting candidate is written when the next one or the end mark comes, final exactly before the end mark; the new one waits even when that write fails |
| Trickle.AtMostOneBehind | pkg/rtc/participant_signal.go:279-293 | with no failed write the client has every candidate in order but for the one still waiting |
| Trickle.OneLostPerFailure | pkg/rtc/participant_signal.go:279-293 | each failed write loses exactly the one candidate that was waiting |
| Trickle.MessagesInOrder | pkg/rtc/participant_signal.go:279-293 | the messages are the candidates whose next call succeeds, each once, in the order of the calls, final exactly before an end mark |
| Trickle.BatchIsClosedByFinal | pkg/rtc/participant_signal.go:279-293 | a batch closed by the end mark and written without failure arrives whole and only its last candidate is final |
| Trickle.ClientSeesEmitted | pkg/rtc/participant_signal.go:279-293 | over any run of the transport, failures included: the client gets, in the order of the calls, exactly the candidates whose next call succeeds, so each one missing is followed by a failed call or still waiting |
| IngressStore.RedisStore.StoreIngress | pkg/service/redisstore.go:530-605 | it writes in the first of five attempts during which nobody changes the watched table, once, and succeeds exactly if there is one; otherwise it gives up silently and the store is what the others made of it |
| IngressStore.StoresExactly | pkg/service/redisstore.go:593-605 | the same for any number of attempts and any interleaving: record and index entry are moved on top of what the others did, nothing else is touched |
| IngressStore.UndisturbedStores | pkg/service/redisstore.go:561-575 | with nobody changing the table during the first attempt it stores at once |
| IngressStore.RedisStore.ExecStore | pkg/service/redisstore.go:561-575 | table and index change together, the index only if the room changed |
| IngressStore.RedisStore.DeleteRecord | pkg/service/redisstore.go:826-839 | record, state and the entry under the caller's room are removed |
| IngressStore.StepKeepsExact | pkg/service/redisstore.go:826-839 | a step keeps the index free of stale entries if and only if it is not a delete that names another room than the stored one |
| IngressStore.IndexStaysComplete | pkg/service/redisstore.go:547-605 | under any interleaving the room index lists every stored ingress under its current room |
| IngressStore.IndexStaysExact | pkg/service/redisstore.go:547-605 | and nothing else, as long as deletes carry the stored room |
| IngressStore.StoreAttemptsKeepIndex | pkg/service/redisstore.go:593-605 | the retry loop keeps the index complete, and a store that succeeded left its record there |
| IngressStore.ListingFindsRoom | pkg/service/redisstore.go:752-816 | listing a room finds its ingresses and beyond them exactly the stored ones a stale entry leads to, of which there are none when deletes carry the stored room |
| IngressStore.WrongRoomMisleads | pkg/service/redisstore.go:826-839 | a concrete run in which a delete with another room makes a later listing wrong |
| IngressStore.StateNeverOlder | pkg/service/redisstore.go:607-680 | the stored (StartedAt, UpdatedAt) pair never decreases between deletes |
| IngressStore.OlderIsTotal | pkg/service/redisstore.go:637-648 | of two different pairs one is the older, and an earlier start makes older |
| IngressStore.ReportIsKept | pkg/service/redisstore.go:607-680 | after a report that nobody interferes with, the stored pair is never older than the reported one until the ingress is deleted |
| TrunkPaging.RedisIterPage | pkg/service/redisstore.go:1038-1073 | the page of one key space is its smallest ids above the after-id, at most the limit, or 1000 with no limit; without a page it is everything, in order |
| TrunkPaging.LoadBatch | pkg/service/redisstore.go:985-1020 | the records found for the ids, in their order; ids without a record are left out |
| TrunkPaging.FoundExactly | pkg/service/redisstore.go:985-1020 | for each id, as often as it is asked for, exactly its record as it is stored, if it has one |
| TrunkPaging.FoundInOrder | pkg/service/redisstore.go:985-1020 | and in the order asked for |
| TrunkPaging.ListSIPTrunk | pkg/service/redisstore_sip.go:140-174 | three filtered pages appended, sorted and cut again |
| TrunkPaging.ListSIPDirectionTrunk | pkg/service/redisstore_sip.go:176-226 | the same for one direction and the legacy key space |
| TrunkPaging.UnpagedListsAll | pkg/service/redisstore_sip.go:140-174 | without a page the listing is all that the filter keeps of the three key spaces, in order, an id as often as it has such records |
| TrunkPaging.UnlimitedListsThousands | pkg/service/redisstore_sip.go:140-174 | with a page but no limit it is what the filter keeps of the first 1000 ids above the after-id of each key space, in order, not cut again |
| TrunkPaging.UnpagedDirectionListsAll | pkg/service/redisstore_sip.go:176-226 | the first of these for a direction and the legacy key space |
| TrunkPaging.UnlimitedDirectionListsThousands | pkg/service/redisstore_sip.go:176-226 | the second of these for a direction and the legacy key space |
| TrunkPaging.ListedAreRecords | pkg/service/redisstore_sip.go:140-174 | every trunk listed is a record that the filter keeps, as one of the key spaces stores it |
| SortedIds.CutThenMerge | pkg/service/redisstore.go:1075-1083 | cutting each of two lists first does not change the first n of what they merge to, repeated ids included |
| TrunkPaging.TrunkPageIsNext | pkg/service/redisstore_sip.go:140-174 | with no filter a page is the first `limit` of the ids above the after-id of all three key spaces in order, an id as often as it has records |
| TrunkPaging.DirectionPageIsNext | pkg/service/redisstore_sip.go:176-226 | the same for the two key spaces of a direction |
| TrunkPaging.DistinctPageIsNext | pkg/service/redisstore_sip.go:140-174 | with one record for each trunk that is the next `limit` ids of their union |
| TrunkPaging.ChainedPagesAreComplete | pkg/service/redisstore.go:1022-1083 | chained pages of one set of ids end and return every id above the start exactly once, ascending |
| TrunkPaging.ChainedListingIsComplete | pkg/service/redisstore_sip.go:140-174 | chaining the full listing with no filter returns every trunk above the start of the three key spaces and nothing else, in order, none in two pages |
| TrunkPaging.DistinctChainSorts | pkg/service/redisstore_sip.go:140-174 | with one record for each trunk it returns each exactly once, ascending |
| TrunkPaging.FilteredPage | pkg/service/redisstore_sip.go:140-174 | whatever the filter, a page is the first `limit`, in order, of the records that the cuts of the key spaces leave and the filter keeps |
| TrunkPaging.PassesNothingExactly | pkg/service/redisstore_sip.go:140-174 | asking on from a page passes no kept id over exactly when of every key space what the filter keeps beyond the cut, and no other cut has left, lies above the last listed id, or there is no such thing after an empty page |
| TrunkPaging.KeptCutsPassNothing | pkg/service/redisstore_sip.go:140-174 | so it is when the filter drops nothing within the cuts |
| TrunkPaging.ChainIsSound | pkg/service/redisstore_sip.go:140-174 | whatever the filter, a chain ends, collects only kept ids, never goes down and has no id in two pages |
| TrunkPaging.FilteredChainExactly | pkg/service/redisstore_sip.go:140-174 | and all of them exactly when every page on its way meets that condition |
| TrunkPaging.LargeLimitIsClear | pkg/service/redisstore_sip.go:140-174 | which a limit that no key space exceeds always does |
| TrunkPaging.PageOnceExactly | pkg/service/redisstore.go:1075-1083 | a page gives each of its ids once exactly when no id has two kept records within the cuts with at most `limit` - 2 records of smaller ids ahead of them |
| TrunkPaging.EachOnceExactly | pkg/service/redisstore_sip.go:140-174 | and a chain exactly when every page on its way does |
| TrunkPaging.OneRecordOnce | pkg/service/redisstore_sip.go:140-174 | as with one record for each trunk, or pages of one |
| TrunkPaging.UpdateExactly | pkg/service/redisstore_sip.go:77-109 | an update changes the direction's own record, or else a copy of the legacy one, in the direction's key space, and nothing else |
| TrunkPaging.UpdateKeepsOneRecordExactly | pkg/service/sip.go:193-258 | an update leaves each trunk its one record exactly unless it goes through for a legacy trunk, whose legacy record stays |
| TrunkPaging.UpdatedTrunkTwice | pkg/service/sip.go:193-222 | a legacy trunk that was updated as an inbound one is given twice by a page of two |
| TrunkPaging.DirectionIsStore | pkg/service/redisstore_sip.go:176-226 | the inbound and outbound listings are the full listing of a store with two key spaces, so all of this holds for them |
| TrunkPaging.FilteredChainSkips | pkg/service/redisstore_sip.go:140-174 | a store and a filter for which a kept trunk is in no page of the chain |
| PacketDeduper.UserPacketDeduper.IsDuplicate | pkg/rtc/user_packet_deduper.go:41-66 | true exactly for members of the window; a new id enters and the oldest leaves beyond 100; the chain stays acyclic and free of repeats |
| PacketDeduper.WindowIsLastFresh | pkg/rtc/user_packet_deduper.go:35-66 | the window is exactly the last 100 fresh ids, the zero id first |
| PacketDeduper.DuplicateExactly | pkg/rtc/user_packet_deduper.go:41-66 | an id is called a duplicate exactly when it is among the last 100 fresh ones |
| PacketDeduper.RepeatsAreFarApart | pkg/rtc/user_packet_deduper.go:41-66 | an id that is let through again has at least 99 other fresh ids in between |
| PendingTracks.ParticipantTracks.AddTrackRequest | pkg/rtc/participant.go:2464-2476 | a request is announced at once or queued, as the pending and live tracks demand |
| PendingTracks.ParticipantTracks.GetPendingTrack | pkg/rtc/participant.go:2859-2898 | media is matched by its own id, then by codec id, then by kind, and is unmatched only if no queue fits |
| PendingTracks.ParticipantTracks.MediaTrackReceived | pkg/rtc/participant.go:2584-2626 | media of a published or unmatched or queued entry changes nothing, any other publishes a track |
| PendingTracks.ParticipantTracks.AddMediaTrack | pkg/rtc/participant.go:2760-2777 | the first request leaves its queue, an empty queue leaves the map, the rest is marked queued |
| PendingTracks.ParticipantTracks.OnTrackClosed | pkg/rtc/participant.go:2780-2801 | the close announces the next request under the track's signalled id |
| PendingTracks.QueuedExactly | pkg/rtc/participant.go:2464-2476 | a request joins the queue of its client id under the track id of the first one waiting; a queue it opens waits exactly if the id is in use |
| PendingTracks.PublishedExactly | pkg/rtc/participant.go:2584-2626 | media becomes a track exactly when no live one goes by its id and a queue that suits it, by id, codec or kind, is not waiting |
| PendingTracks.ClosedExactly | pkg/rtc/participant.go:2780-2801 | a close removes the track and lets the queue under its signalled id go on |
| PendingTracks.AnnouncedInOrder | pkg/rtc/participant.go:1077-1084 | after any run each request is announced at most once, in order, those waiting are exactly those not announced, and no queue is empty |
| PendingTracks.AnnouncedExactlyWhen | pkg/rtc/participant.go:2464-2476 | a request is announced exactly when it comes to a free id, or, queued, when the live track under its id has closed |
| PendingTracks.LiveOnlyOnceAnnounced | pkg/rtc/participant.go:2584-2626 | a live track's request was announced, and no two live tracks share a signalled or an SDP id |
| PendingTracks.StrandedForever | pkg/rtc/participant.go:2795-2801 | a queue with no live track under its id is never announced again, whatever happens |
| PendingTracks.ServedExactly | pkg/rtc/participant.go:2464-2476 | every waiting request has a live track whose close announces it, exactly when no request was queued behind a track live under another signalled id |
| PendingTracks.StrandingHappens | pkg/rtc/participant.go:2464-2476 | three events after which a request is never announced |
| UpdateBatcher.CompareTotal | pkg/rtc/room.go:1792-1820 | of any two sessions exactly one is older, unless they agree on all that is compared |
| UpdateBatcher.CompareTransitive | pkg/rtc/room.go:1792-1820 | older-than is transitive on three sessions exactly when no missing millisecond time twists them |
| UpdateBatcher.CompareTransitiveStamped | pkg/rtc/room.go:1792-1820 | with all millisecond times present it is a strict total order |
| UpdateBatcher.CompareCycles | pkg/rtc/room.go:1792-1820 | three sessions each older than the next |
| UpdateBatcher.Batch.PushAndDequeueUpdates | pkg/rtc/room.go:1833-1886 | what one push caches, rejects, supersedes and returns |
| UpdateBatcher.Batch.TakeBatch | pkg/rtc/room.go:1412-1422 | the tick gives out every cached update once and leaves an empty cache |
| UpdateBatcher.PushOutcome | pkg/rtc/room.go:1833-1886 | a push changes nothing only when a higher version or a newer session is known; otherwise its info is cached or comes out last |
| UpdateBatcher.PushExactly | pkg/rtc/room.go:1833-1886 | a push is turned away exactly for a known higher version or a session not older; else it is cached exactly when it need not go out at once, is of no publisher and supersedes nothing, and goes out, behind the disconnect of what it supersedes, otherwise |
| UpdateBatcher.OlderExactly | pkg/rtc/room.go:1792-1820 | which of two sessions is older: the join second, then the millisecond if both have one, then the sid |
| UpdateBatcher.NothingLost | pkg/rtc/room.go:1833-1886 | over any run every accepted info is given out or held by an update of its session at no lower version; after a flush all are given out |
| UpdateBatcher.NothingRepeated | pkg/rtc/room.go:1833-1886 | no push comes out twice or comes out and stays, and what comes out is a push as it was or as a disconnect |
| UpdateBatcher.SwitchesComeInPairs | pkg/rtc/room.go:1852-1879 | a made-up disconnect is followed at once by the newer session of the same identity |
| UpdateBatcher.SessionsNeverGoBack | pkg/rtc/room.go:1852-1874 | over any run of sessions that keep a millisecond join time, and a last flush, what is given out for an identity never goes back to an older session exactly when no push of the run goes back |
| UpdateBatcher.PushForwardExactly | pkg/rtc/room.go:1845-1874 | a push breaks the order of an identity's accepted sessions exactly when a newer one was accepted, nothing is cached, and the room has no participant of the identity or none that is newer |
| UpdateBatcher.PresentDoesNotGoBack | pkg/rtc/room.go:1866-1874 | no push goes back while the room has a participant not older than any accepted session |
| UpdateBatcher.LeavingDoesNotGoBack | pkg/rtc/room.go:678-772 | nor does the last update of a participant that was taken out of the room first, as every ordinary departure is |
| UpdateBatcher.SessionsGoBack | pkg/rtc/room.go:1845-1874 | two pushes after which an older session follows a newer one |
| UpdateBatcher.SendParticipantUpdates | pkg/rtc/room.go:1888-1923 | each client is sent the full or the filtered list by what it can handle |
| UpdateBatcher.SwitchAsSent | pkg/rtc/room.go:1893-1910 | on a switch old clients see the old session leave and the new one come, others the new one only, unless that update closes for a duplicate identity, of which they see nothing |
| UpdateGate.ParticipantSignal.SendParticipantUpdate | pkg/rtc/participant_signal.go:83-141 | updates are dropped, queued or passed through the gate one by one; what is sent is what the gate accepted |
| UpdateGate.ParticipantSignal.RememberOthers | pkg/rtc/participant_signal.go:44-55 | the participants of the join response enter the cache unchecked |
| UpdateGate.ParticipantSignal.JoinResponseWritten | pkg/rtc/participant_signal.go:57-65 | a write that failed ends the join; otherwise it goes on |
| UpdateGate.ParticipantSignal.TakeQueuedUpdates | pkg/rtc/participant_signal.go:67-74 | the state moves to joined and the queue is taken as one step |
| UpdateGate.ParticipantSignal.ReplayQueuedUpdates | pkg/rtc/participant_signal.go:76-80 | the taken queue goes through the ordinary path |
| UpdateGate.StaleExactly | pkg/rtc/participant_signal.go:97-113 | an update is refused as stale exactly when its id is among the 128 used last and was last told at a higher version |
| UpdateGate.SentExactly | pkg/rtc/participant_signal.go:83-141 | after any run: an update waits before the join, is dropped after a disconnect, and otherwise is accepted exactly unless a higher version was told or it is hidden and about someone else |
| UpdateGate.SentOneByOne | pkg/rtc/participant_signal.go:83-141 | a list of updates is treated as its updates one by one |
| UpdateGate.UsedExactly | pkg/rtc/participant_signal.go:97-113 | looking up a remembered id counts as a use of it, looking up another does not |
| UpdateGate.PhasesExactly | pkg/rtc/participant_signal.go:44-81 | what joining, activation and disconnect make of the participant and of its join response, which only move forward |
| UpdateGate.OlderVersionTold | pkg/rtc/participant_signal.go:97-125 | from the start: a client that joined, and was then told of 128 other ids or more, is told a lower version of the first one |
| UpdateGate.VersionsNeverGoDown | pkg/rtc/participant_signal.go:83-141 | with at most 128 ids the accepted versions of an id never go down |
| UpdateGate.NotBelowJoin | pkg/rtc/participant_signal.go:44-55 | nor below the version the join response gave |
| UpdateGate.NothingBeforeJoin | pkg/rtc/participant_signal.go:57-74 | no update is accepted before the join response has been handed over |
| UpdateGate.EarlyActivation | pkg/rtc/participant.go:438-449 | an activation before the join response lets updates pass it |
| UpdateGate.EarlyExactly | pkg/rtc/participant.go:438-449 | before the join response an update that passes the gate is accepted exactly when the participant was already made active |
| UpdateGate.EveryUpdateResolved | pkg/rtc/participant_signal.go:44-141 | every update handed in is accepted, older than what was told, hidden, dropped by disconnect, or still waiting, as often as it was handed in; after the join nothing waits |
| UpdateGate.EveryUpdateTold | pkg/rtc/participant_signal.go:44-141 | a client that joined and did not leave was told of every visible update handed in, at its version or a later one |
| Broadcast.ClientsCatchUp | pkg/rtc/room.go:1350-1369 | from push to client: after a flush each such client knows every session the batch accepted an update of, at that version or a later one |
| ReceiverHandover.DummyReceiver.AddDownTrack | pkg/rtc/wrappedreceiver.go:334-344 | a track goes to the receiver once there is one, else into the map |
| ReceiverHandover.DummyReceiver.AddOnReady | pkg/rtc/wrappedreceiver.go:433-445 | the callback is kept, or its caller must hand it on, exactly when there is a receiver |
| ReceiverHandover.DummyReceiver.AddOnCodecStateChange | pkg/rtc/wrappedreceiver.go:451-463 | the same for codec callbacks |
| ReceiverHandover.DummyReceiver.SetUpTrackPaused | pkg/rtc/wrappedreceiver.go:310-320 | with a receiver the flag goes to it and what was kept is void, else it is kept |
| ReceiverHandover.DummyReceiver.SetMaxExpectedSpatialLayer | pkg/rtc/wrappedreceiver.go:322-332 | the same for the layer |
| ReceiverHandover.DummyReceiver.CompareAndSwapReceiver | pkg/rtc/wrappedreceiver.go:211-213 | only the first upgrade wins |
| ReceiverHandover.DummyReceiver.DrainUnderLock | pkg/rtc/wrappedreceiver.go:215-224 | the map is emptied into the receiver and both callback lists are taken |
| ReceiverHandover.DummyReceiver.DeliverCallbacks | pkg/rtc/wrappedreceiver.go:226-232 | the callbacks taken reach the receiver in their order, ready ones first |
| ReceiverHandover.DummyReceiver.ApplySettings | pkg/rtc/wrappedreceiver.go:234-243 | settings kept are applied once and forgotten |
| ReceiverHandover.DummyReceiver.Upgrade | pkg/rtc/wrappedreceiver.go:210-252 | a second upgrade changes nothing; the first hands over tracks, callbacks and settings and upgrades both redundant-encoding dummies |
| ReceiverHandover.DummyReceiver.GetPrimaryReceiverForRed | pkg/rtc/wrappedreceiver.go:401-412 | the dummy is made once, upgraded at once if there is a receiver already |
| ReceiverHandover.DummyReceiver.GetRedReceiver | pkg/rtc/wrappedreceiver.go:414-424 | the same for the other encoding |
| ReceiverHandover.DummyReceiver.UpgradeRedundant | pkg/rtc/wrappedreceiver.go:245-250 | the dummies that exist are drained into their receivers |
| ReceiverHandover.DummyRedReceiver.AddDownTrack | pkg/rtc/wrappedreceiver.go:493-503 | a redundant-encoding dummy keeps or hands on a track by its own receiver |
| ReceiverHandover.DummyRedReceiver.StoreReceiver | pkg/rtc/wrappedreceiver.go:533-540 | from here on tracks go to the receiver |
| ReceiverHandover.DummyRedReceiver.DrainDownTracks | pkg/rtc/wrappedreceiver.go:542-547 | the map of a redundant-encoding dummy is emptied into its receiver |
| ReceiverHandover.AddedExactly | pkg/rtc/wrappedreceiver.go:334-344 | every track handed in counts once as added, and is given at once or kept, by the presence of a receiver |
| ReceiverHandover.CallbacksExactly | pkg/rtc/wrappedreceiver.go:433-463 | every callback handed in counts once; it waits, or its caller holds it until it reaches the receiver |
| ReceiverHandover.SetExactly | pkg/rtc/wrappedreceiver.go:310-332 | a setting changes exactly by a call that is not shut out by the settings lock, which reaches the receiver once there is one and is kept for it before, and by the hand-over applying what was kept |
| ReceiverHandover.MadeExactly | pkg/rtc/wrappedreceiver.go:401-424 | the first call for a redundant encoding makes its dummy, upgraded at once exactly if the swap is over |
| ReceiverHandover.DeliveredExactly | pkg/rtc/wrappedreceiver.go:226-232 | callbacks are delivered first to last, and the codec ones only when no ready one is left |
| ReceiverHandover.UpgradesOnce | pkg/rtc/wrappedreceiver.go:210-213 | the first upgrade begins the hand-over and any other changes nothing |
| ReceiverHandover.EveryTrackOnce | pkg/rtc/wrappedreceiver.go:210-252 | however the hand-over interleaves, in the end main, primary and red receivers have been given each track exactly as often as it was added, for distinct subscribers |
| ReceiverHandover.NothingReplaced | pkg/rtc/wrappedreceiver.go:334-344 | once the map is empty each of a set of tracks with distinct subscribers was given as often as it was added |
| ReceiverHandover.NeverTwice | pkg/rtc/wrappedreceiver.go:334-344 | at no point has anything been given more often than it was added |
| ReceiverHandover.EveryCallbackOnce | pkg/rtc/wrappedreceiver.go:433-463 | every ready and codec callback reaches the receiver exactly once |
| ReceiverHandover.LastSettingWins | pkg/rtc/wrappedreceiver.go:310-332 | the receiver ends with the paused flag and layer set last |
| ReceiverHandover.CanFinish | pkg/rtc/wrappedreceiver.go:210-252 | whatever other calls did, the remaining steps of a begun hand-over lead to its end |
| WorkerSelection.SelectWorkerWeightedByLoad | pkg/service/agentservice.go:497-526 | fails exactly without workers or spare capacity; otherwise the worker in whose share the drawn point falls is selected and the code after the loop is not reached |
| WorkerSelection.NormalizeLoads | pkg/service/agentservice.go:506-513 | exactly the available workers not ignored, each with its spare capacity, and their sum |
| WorkerSelection.SelectsSome | pkg/service/agentservice.go:519-525 | every point up to the whole capacity is in some worker's share |
| WorkerSelection.SelectsOne | pkg/service/agentservice.go:519-525 | and in no two |
| WorkerSelection.ShareOfDraws | pkg/service/agentservice.go:518-524 | the draws that select a worker form an interval as long as its part of the whole capacity |
| WorkerSelection.CapacityOfSet | pkg/service/agentservice.go:506-518 | the whole capacity does not depend on the order of adding, so neither do the shares |
| WorkerSelection.BusyOnlyAtZero | pkg/service/agentservice.go:519-524 | a worker without spare capacity is selected by the draw zero only, when visited first |
| WorkerSelection.AgentHandler.JobRequest | pkg/service/agentservice.go:378-427 | no worker is tried twice, all but the last turned the job down, exhaustion leaves no available worker with spare capacity untried, and the job is recorded exactly when assigned |
| LossWindow.TransportManager.OnMediaLossUpdate | pkg/rtc/transportmanager.go:813-832 | one report shifts its verdict in and fails the transport exactly when the trigger condition holds |
| LossWindow.TransportManager.UpdateMediaRTT | pkg/rtc/transportmanager.go:847-855 | the first sample is taken as it is, later ones move half the way, cut towards zero |
| LossWindow.ShiftsWindow | pkg/rtc/transportmanager.go:818-820 | shifting a 32-bit word drops the oldest of 32 verdicts and appends the newest |
| LossWindow.WordIsWindow | pkg/rtc/transportmanager.go:813-832 | after any run the word is the last 32 verdicts since the last reset and its ones are the unstable ones |
| LossWindow.TriggersExactly | pkg/rtc/transportmanager.go:819-829 | a fall-back happens exactly with at least 20 of the last 32 verdicts unstable and a usable signal connection |
| LossWindow.ReportExactly | pkg/rtc/transportmanager.go:813-832 | in every reachable state: a loss of 63 of 255 or more is unstable, and falls back with 20 such of the last 32, UDP measured, a recent signal, and its time below the threshold and 1.3 times that of UDP |
| LossWindow.FallbacksAreSpaced | pkg/rtc/transportmanager.go:813-832 | between any two fall-backs there are at least 20 unstable reports |
| LossWindow.SmoothedBetween | pkg/rtc/transportmanager.go:847-855 | a smoothed time lies between the old one and the sample, at half the distance, and never returns to zero |
| LossWindow.SmoothedConverges | pkg/rtc/transportmanager.go:847-855 | a constant sample is reached to within one in logarithmically many steps |
| LossWindow.SmoothedReachesExactly | pkg/rtc/transportmanager.go:847-855 | however often a constant sample is measured it is reached exactly if the time was equal to it from the start |
| LossWindow.SmoothedStuck | pkg/rtc/transportmanager.go:847-855 | a time of 11 that stays at 11 while 10 is measured |
| LossWindow.MeasuredStays | pkg/rtc/transportmanager.go:847-855 | once a time is known it stays known, so that part of the trigger condition holds for ever |

## Left out

- Ids (identities, sids, client ids, ingress ids, trunk ids, rooms, workers) are natural numbers; only equality and, for trunk ids and sids, order matter.
- Clocks, deadlines, timers, retry intervals and debouncing: each is an event that may or may not happen. So are the answers of peer connections, streams, sinks and Redis.
- The 64-bit sequence numbers of the signal relay and its int conversion are unbounded here.
- Subscription entries are values in a map, so sharing one `trackSubscription` between goroutines is not modelled; look-up and insert, subscribe, and each kind of close are one step each. Bind timeouts, permission notices to clients, telemetry and the synchronous path of one-shot signalling are left out.
- The state Idle of `Negotiation` is the code's state None. The answering side of the transport, remote restart offers, the generation of a candidate (only order and completeness since the last clear), SDP text, one-shot signalling, the signalling-state timer.
- Trickle.ClientSeesEmitted: a connected client that does not migrate; otherwise the participant's handler returns without handing the candidate to the queue (pkg/rtc/participant.go:2122-2132).
- IngressStore.RedisStore.StoreIngress: the stream-key index, argument checks and decoding errors are left out; a store or state report that gives up returns no error, as in the code, so success is read from the store itself.
- IngressStore.RedisStore.ExecStore: the write of the stream-key index is left out.
- IngressStore.RedisStore.DeleteRecord: the delete from the stream-key index is left out.
- Subscriptions.MediaTracks.DownTrackClosed: that the close callback comes after it is the order of the two steps in `Step`, not part of this contract.
- Subscriptions.NoticesAlternate: the order in which notices are issued; the unsubscribed one runs in a goroutine of its own (pkg/rtc/subscriptionmanager.go:813-815) and may arrive later.
- Subscriptions.SubscriptionManager.HandleSubscribedTrackClose: the reconcile queue is left out; a reconcile may happen at any time.
- TrunkPaging.ListSIPTrunk: of two records of one id the one of the key space read first comes first; the code's sort leaves their order open, and the theorems are about ids only.
- TrunkPaging.FilteredChainExactly: a limit above zero and a store that does not change; without a limit the default cuts at 1000 ids and the code offers no later page.
- Pending tracks: pending remote tracks that wait for a request, migration, permission checks, the checks of kinds and codecs, and the list of tracks being published. A close is one step with the look-up of the next request.
- UpdateBatcher.SessionsNeverGoBack: for sessions that have a millisecond join time and keep their times, without which older and newer have no meaning.
- UpdateBatcher.Batch.PushAndDequeueUpdates: the superseded info is marked disconnected as a new value; the code writes into the info the cache points to.
- UpdateGate.NothingBeforeJoin: handed over means that the write returned no error; the code returns none either when there is no sink or the channel is closed. For participants that do not migrate, and that become active only afterwards.
- UpdateGate.VersionsNeverGoDown: acceptance order only; the lock is released before the write, so concurrent calls may write in another order.
- ReceiverHandover.EveryTrackOnce: no track is deleted during the hand-over; the code lets a delete between the swap and the drain miss its track.
- ReceiverHandover.DummyReceiver.Upgrade: one call from start to end; the interleavings are those of `Step`. The real receiver is the record of the calls made on it; its own behaviour is not modelled.
- WorkerSelection.SelectWorkerWeightedByLoad: exact arithmetic; with 32-bit floats the sums may round and the code after the loop is the safeguard.
- WorkerSelection.AgentHandler.JobRequest: the status and load of a worker may change between attempts, the registry does not change while a job is being assigned.
- LossWindow.TriggersExactly: the factor 1.3 is exact; the code computes it in 32-bit floats.
- LossWindow: of the transport configuration only what resets the word; the candidate priorities, failure counts and the choice of the next ICE configuration are left out.
- Egress, dispatch rules, room and participant records, agents' job life cycle, data tracks, congestion control, telemetry, configuration, authentication and the command line: they join libraries together or would add only easy members.
