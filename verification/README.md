# Verified model of DSoftBus core components

A Dafny model of the parts of DSoftBus in which a mistake is hardest to see, with proofs about all
inputs, all runs and all interleavings. `dafny verify dfyconfig.toml` checks everything.

| component | modules | form |
|---|---|---|
| Lock-free ring queue | Bits, RingSteps, RingInvariant, RingTheorems, RingOperations, RingSnapshots, RingQueue | step system over any number of threads for the multi-producer and multi-consumer operations, a class for the others |
| Authentication session | Session, SessionRuns, SessionVerdicts, AuthFsms | step function with run theorems, and a class that keeps them as its invariant |
| Client and server joined | AuthProtocol, AuthSummaries, AuthInvariant, AuthSteps, AuthTheorems, AuthSafety, AuthProgress, AuthStall, AuthStallExact, AuthOutcomes, AuthNegotiation | two sessions over first-in first-out links |
| Session list | ConnIds, SessionTables | class and runs |
| Intrusive list and looper | ListRing, LooperSpec, LooperTheorems, LooperHeap | heap rings, a step system, and a class on the heap |
| Session keys | Bytes, SessionKeys | class and window lemmas |
| Waiting requests | AuthRequests, AuthReports, AuthServes, AuthCallbacks, AuthRequestLists | specification, conservation, class |
| Framing and ids | Bytes, ConnIds, Framing, SeqIds | codecs over arrays, counters |

## Assumptions

- Ring: steps are sequentially consistent in the order the barriers enforce. The number of units is a
  power of two from 1. A thread compares and swaps fewer than 2^32 claims after it read the head; refusals
  are truthful when fewer than 2^32 - mask claims came between. `SwapIsExact`, `SwapBreaksOrderWhenStale`
  and `RefusalIsExact` say what these two bounds are for, `RingSnapshots` shows states beyond them.
- Sessions: a session handles the messages posted to it in order, a state transition runs the entry
  function of the new state at once, and everything a handler calls is a value of `World` chosen freely at
  each message. Hichain reports a session key only after a client started it; its other events, timeouts,
  distrust and disconnects may come at any time.
- `QuietMeansPassed` and `CloseAckIsNeverDropped`: device info that came early can be copied and posted
  again. Any other failure ends the session that meets it and is covered by the condition that none failed.
  Fast authentication in a round whose id exchange failed needs no assumption here: it can only leave the
  client without a key, as `StuckExactlyAfterFastReturn` says.
  `PassedAfterPeerAccepted`, `SessionsComeToRest`, `FailedExactly` and `NetworkIdNeedsBoth` need no assumption on failures at all.
- Looper: its thread does not start after the looper has been drained. Destroying a looper whose thread
  has not started finds it not running and frees what the thread would use.
- Session list: messages are dispatched one at a time, and none arrives on a closed socket.
- Session keys: sealing and opening are inverse for 12-byte nonces and add 28 bytes, as sections 7.1 and
  7.2 of NIST SP 800-38D describe AES-GCM.
- Requests: ids are unique, and callbacks leave the list alone.
- `memcpy_s` copies exactly into 1 to 0x7FFFFFFF bytes that are enough.

## Model

| member | source | states |
|---|---|---|
| Bits.PowerOfTwoTestExact | core/common/queue/softbus_queue.c:38-41 | The power-of-two test on a uint32 accepts exactly zero and the powers of two. |
| Bits.AndMask | core/common/include/softbus_queue.h:127 | ANDing with a power of two minus one is the remainder by that power. |
| Bits.SlotOfResidue | core/common/include/softbus_queue.h:127 | For a power-of-two number of units, masking the 32-bit residue of an unbounded counter gives the counter's remainder by the number of units. |
| RingInvariant.AvailableIs | core/common/include/softbus_queue.h:157-163 | However stale the head, the wrapped free or filled count a thread computes is congruent to the true distance from that head to its limit. |
| RingInvariant.TakeClaimInv | core/common/include/softbus_queue.h:181-183 | A successful compare-and-swap keeps the whole invariant: order, residues, tiling, ownership, thread and slot facts. |
| RingInvariant.StoreNodeInv | core/common/include/softbus_queue.h:185-189 | The store of a node overwrites no node that has not been read. |
| RingInvariant.FetchFinds | core/common/include/softbus_queue.h:300-305 | A consumer that holds a ticket finds in its slot the node of the producer that had the same ticket. |
| RingInvariant.PublishInv | core/common/include/softbus_queue.h:191-202 | Publishing a tail keeps the invariant although reading and writing the tail are two steps. |
| RingInvariant.StepInv | core/common/include/softbus_queue.h:143-204 | Any step of any one of any number of threads keeps the invariant. |
| RingTheorems.RunInvariant | core/common/include/softbus_queue.h:143-204 | The invariant holds in every state of every interleaving. |
| RingTheorems.CountersInOrder | core/common/include/softbus_queue.h:157-202 | In every reachable state consumer tail, consumer head, producer tail, producer head and consumer tail plus mask are in this order, and the uint32 fields are the residues of the unbounded counters. |
| RingTheorems.SwapIsExact | core/common/include/softbus_queue.h:181-183 | The 32-bit compare succeeds, and the step claims the head, exactly if a multiple of 2^32 claims came since the read, which for fewer than 2^32 means none; otherwise the operation starts over. |
| RingTheorems.SwapBreaksOrderWhenStale | core/common/include/softbus_queue.h:181-183 | Without that bound: a step that compares and swaps breaks the order of the counters if and only if a multiple of 2^32 claims came since the read and the side is at its limit. |
| RingTheorems.CountIsExact | core/common/queue/softbus_queue.c:77-93 | On a reachable snapshot the wrapped difference of the tails is the number of published nodes not yet released. |
| RingTheorems.RefusalIsExact | core/common/include/softbus_queue.h:157-179 | The step that reads the opposite tail ends the operation with full or empty exactly if the distance from the head it read to the limit is a multiple of 2^32, which for less stale heads means zero; otherwise it goes on to its swap. |
| RingTheorems.RefusalIsTruthful | core/common/include/softbus_queue.h:274-298 | When full is reported the ring did hold mask unreleased claims, and when empty is reported every published node was claimed, at the moment the opposite tail was read. |
| RingTheorems.StepRefinesFifo | core/common/include/softbus_queue.h:143-204 | Every step is a step of a bounded first-in first-out queue: a put at publication, a get at the consumer's claim, a truthful refusal, or nothing. |
| RingTheorems.RunRefinesFifo | core/common/include/softbus_queue.h:143-204 | Every run is a run of that queue, starting empty. |
| RingTheorems.PutsAndGets | core/common/include/softbus_queue.h:181-202 | After any prefix of a run the nodes put are the published part of the claims in claim order, and the nodes got a prefix of them. |
| RingTheorems.DeliveredInOrder | core/common/include/softbus_queue.h:300-321 | Nodes come out in the order they went in, none lost, repeated or invented. |
| RingTheorems.DequeueReturnsItsTicket | core/common/include/softbus_queue.h:300-321 | The consumer with ticket k returns the node the producer with ticket k stored. |
| RingTheorems.ClaimsTile | core/common/include/softbus_queue.h:185-202 | The claims in flight are exactly the tickets between tail and head, on each side. |
| RingTheorems.ClaimsUseDifferentSlots | core/common/include/softbus_queue.h:185-202 | No two claims in flight, on one side or on both, use the same slot. |
| RingTheorems.OnePublisherPerSide | core/common/include/softbus_queue.h:191-202 | At most one thread per side is between reading and writing the tail, so the non-atomic increment is safe. |
| RingTheorems.WorkShrinks | core/common/include/softbus_queue.h:307-321 | Each step of a thread that holds a claim shrinks a measure of the work in flight. |
| RingTheorems.SomeClaimCanMove | core/common/include/softbus_queue.h:307-321 | While claims are in flight some thread that holds one can move on. |
| RingTheorems.ClaimsDrain | core/common/include/softbus_queue.h:307-321 | From every reachable state, steps of threads in flight alone lead to a state with nothing in flight. |
| RingTheorems.NothingInFlight | core/common/include/softbus_queue.h:307-321 | With no work left, heads and tails agree on both sides. |
| RingOperations.OperationSteps | core/common/include/softbus_queue.h:143-204 | A step moves its own thread only; the thread keeps to its operation until it is refused or has published, reads the current head, and spins exactly while its claim is not the oldest of its side. |
| RingOperations.EnqueueAlone | core/common/include/softbus_queue.h:143-204 | From every reachable state with no claim in flight, an enqueue that runs alone is refused if the queue holds mask nodes, and otherwise has put its node behind all others after seven steps. |
| RingOperations.DequeueAlone | core/common/include/softbus_queue.h:260-323 | A dequeue that runs alone is refused if nothing waits, and otherwise returns the oldest node and takes it out. |
| RingSnapshots.StaleSwapPassesLimit | core/common/include/softbus_queue.h:181-183 | A state that satisfies the invariant and in which a thread that slept through 2^32 claims swaps past the limit. |
| RingSnapshots.StaleRefusalIsFalse | core/common/include/softbus_queue.h:157-179 | A state that satisfies the invariant and in which a thread that slept through 2^32 - 1 claims is told that an empty ring is full. |
| RingSnapshots.CountBetweenReads | core/common/queue/softbus_queue.c:86-90 | With any steps between the two tail reads: the count is the number of nodes published at the first and unreleased at the second, at most what waited at either, if and only if no more was released by then than was published; in any case it is that difference modulo the number of units. |
| RingSnapshots.EmptyBetweenReads | core/common/include/softbus_queue.h:82-88 | With any steps between the two tail reads: empty is answered exactly if everything published at the first was released at the second, or a whole number of ring lengths more. |
| RingQueue.SizeCalcIsTight | core/common/queue/softbus_queue.c:59-75 | For up to 8192 units the computed block does not overflow, is 64-byte aligned and is the smallest aligned block that holds header and units. |
| RingQueue.BlockHoldsEverySlot | core/common/queue/softbus_queue.c:59-75 | Every slot any operation can name lies in the block if and only if there is at least one unit; a unit number of zero passes the power-of-two test and breaks this. |
| RingQueue.LockFreeQueue.Init | core/common/queue/softbus_queue.c:32-57 | Refuses what is neither zero nor a power of two, and leaves an empty valid queue of that capacity less one if there is a unit and memory for all. |
| RingQueue.LockFreeQueue.SingleProducerEnqueue | core/common/include/softbus_queue.h:94-140 | Refuses null, refuses exactly when mask nodes wait, and otherwise appends. |
| RingQueue.LockFreeQueue.SingleConsumerDequeue | core/common/include/softbus_queue.h:207-257 | Refuses exactly when nothing waits, and otherwise takes the oldest. |
| RingQueue.LockFreeQueue.CountGet | core/common/queue/softbus_queue.c:77-93 | Returns the number of waiting nodes across wrap-around. |
| RingQueue.LockFreeQueue.IsEmpty | core/common/include/softbus_queue.h:73-91 | Answers whether nothing waits. |
| RingQueue.CreateQueue | core/common/queue/softbus_queue.c:95-117 | Yields a queue exactly for zero and the powers of two up to 8192 when memory is there; it is valid and empty from one unit on, while zero units leave a mask of 2^32 - 1 and no slot. |
| SessionRuns.ProcessOk | core/authentication/src/auth_session_fsm.c:669-944 | One message in any state keeps the session's flags consistent, completes it at most once, and completes it with SOFTBUS_OK only under the success conditions. |
| SessionRuns.PlaySane | core/authentication/src/auth_session_fsm.c:669-944 | The flags stay consistent over every sequence of messages and every behaviour of the outside world. |
| SessionRuns.CompletesAtMostOnce | core/authentication/src/auth_session_fsm.c:398-419 | Over every run a session has completed once if it is dead and never if it is not. |
| SessionRuns.DeadIsFrozen | core/authentication/src/auth_session_fsm.c:134-137 | After a session is dead no message changes it or makes it call out. |
| SessionRuns.SuccessIsEarned | core/authentication/src/auth_session_fsm.c:784-805 | SOFTBUS_OK is reported only with node info and close ack recorded, only after Hichain finished or the link dropped, and only after AuthManagerSetAuthPassed earlier in the run. |
| SessionRuns.IdTypeDescends | core/authentication/src/auth_session_message.c:644-708 | Over any messages a client's exchange id type only goes down from network id to fail to UDID. |
| SessionRuns.BackEdgeAtMostOnce | core/authentication/src/auth_session_fsm.c:593-603 | The back edge to the first state is taken at most once in a run. |
| SessionRuns.LastStateIsFinal | core/authentication/src/auth_session_fsm.c:913-944 | The last state is never left. |
| AuthFsms.AuthFsm.Start | core/authentication/src/auth_session_fsm.c:1056-1079 | A started session satisfies the invariant of the class: it is where its history leads, its flags are consistent, it has completed once if dead and never otherwise, and success was reported only with everything recorded and after AuthManagerSetAuthPassed. It is dead exactly if it is a client whose first message could not be sent. |
| AuthFsms.AuthFsm.ProcessMessage | core/authentication/src/auth_session_fsm.c:669-944 | Handling any message keeps all that holds of whole histories: consistent flags, one completion at most, success only as earned, at most one return; it completes and records exactly as the tables of SessionVerdicts say. |
| SessionVerdicts.VerdictIsExact | core/authentication/src/auth_session_fsm.c:421-944 | A message completes its session with a result if and only if the table by message and cause says so, and cancels Hichain exactly on a disconnect before both sides are done. |
| SessionVerdicts.RecordsExactly | core/authentication/src/auth_session_fsm.c:693-911 | Saved key, node info, close ack, end of Hichain and early device info are each recorded by their own message in their own state, and by nothing else. |
| SessionVerdicts.ReportsExactly | core/authentication/src/auth_session_fsm.c:730-911 | The auth manager is told of a key exactly when one is recorded, and that authentication passed exactly when device info is accepted and acknowledged and what had to be sent went out. |
| SessionRuns.ExchangeDescends | core/authentication/src/auth_session_message.c:644-708 | Whatever the peer sends, a client's id type does not climb; a server that reads a network id ends with it exactly if it finds the peer, and with failure otherwise; a udid or no type gives udid. |
| SessionRuns.DeviceIdBackEdge | core/authentication/src/auth_session_fsm.c:593-603 | A client leaves a later state for the first one exactly on the back edge, which it takes only from an id type other than UDID and leaves with UDID. |
| AuthSummaries.DeviceIdSummary | core/authentication/src/auth_session_fsm.c:617-667 | A device id that does not fail its session: a server answers with its own, under the network id exactly if it found the peer; a client goes back, starts Hichain or, with fast auth, takes its key; fast auth is on exactly if the tag was accepted and a server could pack one. |
| AuthSummaries.KeySummary | core/authentication/src/auth_session_fsm.c:710-758 | A key that fits is saved on every supported link, with device info sent by all but a WiFi server and early device info posted again; the session fails exactly if that device info cannot be sent or the link is not supported. |
| AuthSummaries.InfoSummary | core/authentication/src/auth_session_fsm.c:846-895 | Device info that is accepted is recorded and answered with a close ack, with device info by a WiFi server, or not at all by a WiFi client; the session ends only with a close ack recorded. |
| AuthSummaries.AckSummary | core/authentication/src/auth_session_fsm.c:897-911 | A close ack is recorded, sends nothing, and ends the session only with node info recorded. |
| AuthSummaries.CommonSummary | core/authentication/src/auth_session_fsm.c:421-453 | A message no state handles changes nothing unless it ends the session, and ends it without failure only with node info and close ack recorded. |
| AuthSummaries.ProcessSummary | core/authentication/src/auth_session_fsm.c:617-944 | What any handler that does not fail sends, posts to itself and records, by state and message. |
| AuthTheorems.StepInv | core/authentication/src/auth_session_fsm.c:617-944 | Every step of the joined client and server keeps: one device id under way exactly while the client waits for one, keys only where they can be saved, and device info and close acks neither lost nor repeated, unless the two are stuck as described by AuthStall. |
| AuthTheorems.FairRunInv | core/authentication/src/auth_session_fsm.c:617-944 | That invariant in every state of every run. |
| AuthTheorems.CloseAckIsNeverDropped | core/authentication/src/auth_session_fsm.c:897-911 | Off WiFi, whoever handles a close ack is alive, in the state that records it, had none before and has one after. |
| AuthTheorems.QuietMeansPassed | core/authentication/src/auth_session_fsm.c:730-782 | In every quiescent state without a failure in which both sides saved a key, both have called AuthManagerSetAuthPassed, early device info included. |
| AuthTheorems.BothLive | core/authentication/src/auth_session_fsm.c:398-419 | While both sessions live, neither has failed, so the previous result applies to every quiescent state with two live sessions. |
| AuthProgress.ProcessPays | core/authentication/src/auth_session_fsm.c:617-911 | Every message handled, in any state and with any answers from the outside, uses up more potential than the messages it sends and posts bring. |
| AuthProgress.SessionsComeToRest | core/authentication/src/auth_session_fsm.c:617-911 | In every run, failures included, deliveries and handled messages number at most 31 plus the weights of the outside events, so the two sessions always come to rest. |
| AuthProgress.CanComeToRest | core/authentication/src/auth_session_fsm.c:669-944 | Every run, wherever it stops, can be continued by deliveries and handling alone, whatever the outside keeps answering, to a state where everything is delivered and handled. |
| AuthStall.FastServerCanStrandClient | core/authentication/src/auth_session_fsm.c:593-667 | A run of five steps without a failure, in which only the server knows its peer and finds a device key: it goes on fast, the client goes back and answers without a tag, and each waits for the other. |
| AuthStall.StuckStays | core/authentication/src/auth_session_fsm.c:669-691 | From there, whatever is delivered, handled or posted, neither session passes unless one fails. |
| AuthStall.StuckOnlyByFastReturn | core/authentication/src/auth_session_fsm.c:593-667 | No state is stuck before which no client went back on a device id that carries a fast-auth tag, whether keys fit or not. |
| AuthStallExact.StuckExactlyAfterFastReturn | core/authentication/src/auth_session_fsm.c:593-758 | In a run whose keys fit, a state at rest without a failure is stuck if and only if a client went back earlier on a device id that carries a fast-auth tag. |
| AuthOutcomes.FailedExactly | core/authentication/src/auth_session_fsm.c:421-944 | A run has failed exactly if the client could not send its first device id or some handled message ended its session with an error of the table. |
| AuthOutcomes.SmoothRunsDoNotFail | core/authentication/src/auth_session_fsm.c:617-944 | On every supported link, a run in which nothing that is called fails and no error, timeout, distrust or disconnect comes never fails, whatever is known of peers and keys. |
| AuthOutcomes.AtRestIdsAreExchanged | core/authentication/src/auth_session_fsm.c:617-667 | At rest such a run has left the id exchange on both sides, and the client has started Hichain or saved a key, unless a client went back on a fast-auth tag. |
| AuthOutcomes.KeysLeadToPass | core/authentication/src/auth_session_fsm.c:730-911 | At rest such a run in which each side found a session key in its queue has passed on both sides, if and only if no client went back on a fast-auth tag. |
| AuthNegotiation.NegotiationIsExact | core/authentication/src/auth_session_message.c:644-708 | Across both sides: a client ends with its network id exactly if it offered it and both sides find their peer; otherwise it goes back to exchange udids, unless fast auth takes over. |
| AuthNegotiation.NetworkIdNeedsBoth | core/authentication/src/auth_session_message.c:644-708 | In every run, failures included, a client goes on under a network id only after both sides found their peer by one. |
| AuthSafety.ProcessHonest | core/authentication/src/auth_session_fsm.c:846-911 | No handler, failing or not, sends a close ack, or device info as a WiFi server, without having accepted the peer's device info. |
| AuthSafety.PassedAfterPeerAccepted | core/authentication/src/auth_session_fsm.c:858-911 | In every run, failures included: a client that passed has a server that accepted its device info, and off WiFi the same holds the other way round. |
| AuthSafety.WifiServerPassesFirst | core/authentication/src/auth_session_fsm.c:858-876 | On WiFi it never holds for the server: when it passes, the client has not accepted its device info. |
| SessionTables.LookupIsComplete | core/authentication/src/auth_session_fsm.c:963-978 | If every live server session is the first match of its connection, the lookup that stops at a dead match still finds it. |
| SessionTables.AtMostOneLive | core/authentication/src/auth_session_fsm.c:963-978 | Then a connection has at most one live server session. |
| SessionTables.SessionTable.GetAuthFsmByConnId | core/authentication/src/auth_session_fsm.c:963-978 | The loop returns the first match if it lives, and nothing otherwise. |
| SessionTables.SessionTable.GetAuthFsmByAuthSeq | core/authentication/src/auth_session_fsm.c:946-961 | The same by sequence number. |
| SessionTables.SessionTable.StartAuth | core/authentication/src/auth_session_fsm.c:1056-1079 | A started session is put in front and keeps the invariant; a session that does not start leaves no trace. |
| SessionTables.SessionTable.HandleDeviceIdData | core/authentication/src/auth_manager.c:1092-1129 | Ignores, defers, posts or starts a session and keeps the invariant; with a server session alive on the connection it starts none, defers if that session is on udid, and otherwise posts to it by its number. |
| SessionTables.SessionTable.CompleteAuthSession | core/authentication/src/auth_manager.c:921-951 | A failing WiFi session loses its socket number before it dies; the invariant is kept. |
| SessionTables.SessionTable.DestroyAuthFsm | core/authentication/src/auth_session_fsm.c:244-254 | Removal keeps the invariant. |
| SessionTables.SessionTable.Negotiate | core/authentication/src/auth_session_message.c:667-708 | A change of a session's id type keeps the invariant. |
| SessionTables.SessionTable.HandleDeviceInfoData | core/authentication/src/auth_manager.c:1160-1188 | Device info that is no flush packet goes to the session with its sequence number or, if there is none or it cannot be posted, to the one on its connection and side. |
| SessionTables.SessionTable.HandleCloseAckData | core/authentication/src/auth_manager.c:1190-1206 | A close ack goes by sequence number unless that is zero. |
| SessionTables.LookupFindsTheLiveOne | core/authentication/src/auth_manager.c:1096-1122 | In every reachable list a lookup by connection answers with a session if and only if that session is a live server session of the connection. |
| SessionTables.UnnamedMessagesReachTheServer | core/authentication/src/auth_manager.c:1160-1206 | Device info and close acks from a client that name no session reach a session if and only if they can be posted and it is the live server session of the connection. |
| SessionTables.StartedSessionGetsItsDeviceId | core/authentication/src/auth_manager.c:1096-1123 | With no server session alive on its connection a client's device id starts one on udid and is posted to it; if that fails, or the device is no server, the list stays as it is. |
| SessionTables.FollowUpDeviceId | core/authentication/src/auth_manager.c:1101-1115 | In every reachable list, a client's device id that carries the number of the live server session of its connection is posted to that session exactly if its id type is no longer udid, and deferred otherwise. |
| SessionTables.UdidSessionDefers | core/authentication/src/auth_manager.c:1111-1115 | While a udid session lives on its connection, a client's device id reaches no session, whatever its number. |
| SessionTables.LookupsAreExact | core/authentication/src/auth_session_fsm.c:946-978 | Both lookups answer with a session if and only if it lives and no session before it, dead or alive, has the same key. |
| SessionTables.NamedMessagesReachTheirSession | core/authentication/src/auth_manager.c:1092-1206 | A server's device id, device info and close acks that carry the number of one live session reach it; a flush packet reaches none. |
| SessionTables.UnnamedMessagesReachTheClient | core/authentication/src/auth_manager.c:1160-1206 | Device info and close acks from a server that name no session reach the client session of their connection. |
| SessionTables.EndedMatches | core/authentication/src/auth_manager.c:921-951 | A session that ended matches the open connections it matched before, unless it was a WiFi session that failed. |
| SessionTables.ClosedSocketHides | core/authentication/src/auth_manager.c:944-945 | Why messages must not come from a closed socket: a failing WiFi session would hide a live one. |
| ConnIds.ConnIdRoundTrip | core/authentication/src/auth_connection.c:90-131 | Type and number come back from every connection id, negative ones included. |
| ConnIds.ConnIdFromParts | core/authentication/src/auth_connection.c:90-131 | Every 64-bit connection id is the one its type and number generate. |
| ConnIds.UpdateFdKeepsType | core/authentication/src/auth_connection.c:133-138 | Updating the number keeps the type and sets the number. |
| ListRing.ListInit | core/common/include/common_list.h:34-38 | One node becomes a ring of itself. |
| ListRing.ListAdd | core/common/include/common_list.h:47-53 | A node put behind any node of a ring leaves a ring with it at that place. |
| ListRing.ListNodeInsert | core/common/include/common_list.h:62-65 | Insertion at the front. |
| ListRing.ListTailInsert | core/common/include/common_list.h:56-59 | Insertion before any node: at the end before the head, in the middle otherwise. |
| ListRing.ListDelete | core/common/include/common_list.h:68-76 | Deleting leaves the rest a ring in order and the node a ring of itself; a node in zeroed memory and a node alone are handled. |
| ListRing.IsListEmpty | core/common/include/common_list.h:78-81 | True exactly for a ring of one. |
| ListRing.ForEachSafe | core/common/include/common_list.h:112-116 | A loop that fetches the next node first visits every original node once and in order although its body deletes nodes, and keeps the others linked in order. |
| LooperHeap.LooperContext.PostMessageAtTime | core/common/message_handler/message_handler.c:288-339 | On the heap: a message is accepted unless something is wrong or the looper is stopped, then sits in the list where the specification puts it, and is freed otherwise. This is the post of the step system. |
| LooperHeap.LooperContext.TakeDue | core/common/message_handler/message_handler.c:117-160 | The head is taken exactly if it is due and the looper is not stopped. |
| LooperHeap.LooperContext.RemoveMessages | core/common/message_handler/message_handler.c:378-406 | Unless idle or stopped, exactly the matching messages are freed, in order, the others stay in order, and msgSize goes down by their number. |
| LooperHeap.LooperContext.Drain | core/common/message_handler/message_handler.c:544-552 | Everything left is freed in order. |
| LooperHeap.LooperContext.EnterLoop | core/common/message_handler/message_handler.c:100-106 | The thread comes to its loop, as a step of the step system; the list stays. |
| LooperHeap.LooperContext.FreeHandled | core/common/message_handler/message_handler.c:180-183 | The handled message, and only that, is freed, as a step of the step system. |
| LooperHeap.LooperContext.LeaveLoop | core/common/message_handler/message_handler.c:184-189 | The thread leaves its loop, as a step of the step system; the list stays. |
| LooperHeap.LooperContext.Stop | core/common/message_handler/message_handler.c:517-530 | The looper is told to stop, as a step of the step system; the list stays. |
| LooperTheorems.InsertSplits | core/common/message_handler/message_handler.c:317-332 | The scan inserts behind all messages due no later and before all due later. |
| LooperTheorems.InsertSorted | core/common/message_handler/message_handler.c:317-332 | Insertion keeps the list sorted by time with ties in posting order. |
| LooperTheorems.StepInv | core/common/message_handler/message_handler.c:90-194 | Every post, take, finish, remove, destroy, exit and drain keeps the looper's invariant. |
| LooperTheorems.ListStaysSorted | core/common/message_handler/message_handler.c:132-182 | In every reachable state the list is sorted with ties in posting order, and msgSize is its length in 32 bits until the drain. |
| LooperTheorems.HandledInOrder | core/common/message_handler/message_handler.c:132-182 | Over whole runs: a message taken later than one it goes before, by due time and then posting order, was accepted only after that one was taken. |
| LooperTheorems.NeverEarly | core/common/message_handler/message_handler.c:137-144 | No message is handled before its time. |
| LooperTheorems.TakenInOrder | core/common/message_handler/message_handler.c:137-144 | A message that is taken leaves none behind that was due earlier, or as early and posted earlier. |
| LooperTheorems.FreedAtMostOnce | core/common/message_handler/message_handler.c:166-182 | No message is freed twice, and a freed one is neither waiting nor being handled. |
| LooperTheorems.DestroyedFreesAll | core/common/message_handler/message_handler.c:517-566 | Once the looper is drained every message it ever accepted has been freed exactly once. |
| SessionKeys.ListIsWindow | core/authentication/src/auth_session_key.c:98-118 | After any additions to an empty list it holds the last ten of them, or all if fewer, in order. |
| SessionKeys.KeyStaysForNine | core/authentication/src/auth_session_key.c:144-163 | With distinct indices a key is found if and only if at most nine newer ones were added. |
| SessionKeys.RemovedIsGone | core/authentication/src/auth_session_key.c:165-182 | With distinct indices removal takes out that key and changes no other lookup. |
| SessionKeys.EncryptedDataTravels | core/authentication/src/auth_session_key.c:184-247 | Data encrypted under one side's latest key is 32 bytes longer and decrypts to the original on the other side if and only if that side added at most nine newer keys; otherwise decryption reports an error. |
| SessionKeys.DecryptedFits | core/authentication/src/auth_session_key.c:217-247 | What is decrypted is 32 bytes shorter than the input, is not empty, fits the caller's buffer, and was opened with a key stored under the index the input carries. |
| SessionKeys.AcceptedFitsExactly | core/authentication/src/auth_session_key.c:187-213 | What an accepted encryption produces fits the caller's buffer if and only if the payload is shorter than 2^32 - 32 bytes. |
| SessionKeys.MbedtlsSealsExactly | adapter/common/mbedtls/softbus_adapter_crypto.c:301-307 | That back end seals payloads of 1 to 2^31 - 29 bytes and, of those whose length wraps in the caller's check, exactly the sixteen longest. |
| SessionKeys.MbedtlsFitsExactly | adapter/common/mbedtls/softbus_adapter_crypto.c:80-116 | With the mbedtls back end, whose own checks wrap too, everything accepted fits, whatever the buffer, if and only if the payload is shorter than 2^32 - 16 bytes. |
| SessionKeys.AcceptedWithoutRoom | core/authentication/src/auth_session_key.c:187-213 | A payload of 2^32 - 1 bytes is accepted with a buffer of 31, and that back end seals it. |
| SessionKeys.IndexTravels | core/authentication/src/auth_session_key.c:199-226 | Every key index, negative ones included, survives its four bytes. |
| SessionKeys.SessionKeyList.RemoveOldKey | core/authentication/src/auth_session_key.c:39-54 | Drops the oldest key exactly if there are more than ten. |
| SessionKeys.SessionKeyList.AddSessionKey | core/authentication/src/auth_session_key.c:98-118 | Appends and trims. |
| SessionKeys.SessionKeyList.GetLatestSessionKey | core/authentication/src/auth_session_key.c:120-142 | The last key, and none exactly if there is none. |
| SessionKeys.SessionKeyList.GetSessionKeyByIndex | core/authentication/src/auth_session_key.c:144-163 | The first key with the index. |
| SessionKeys.SessionKeyList.RemoveSessionkeyByIndex | core/authentication/src/auth_session_key.c:165-182 | Takes out the first key with the index and nothing else. |
| SessionKeys.SessionKeyList.EncryptData | core/authentication/src/auth_session_key.c:184-215 | Which error, or which bytes, for every list, payload and buffer size, with the wrapped size check. |
| SessionKeys.SessionKeyList.DecryptData | core/authentication/src/auth_session_key.c:217-247 | The same for decryption. |
| AuthRequests.SameIsSymmetric | core/authentication/src/auth_common.c:256-297 | Comparing connections does not depend on the order. |
| AuthRequests.SameIsTransitive | core/authentication/src/auth_common.c:256-297 | On every link but Bluetooth low energy it is transitive. |
| AuthRequests.SameMeans | core/authentication/src/auth_common.c:256-297 | Bluetooth connections are the same by address up to case, low energy ones also by short hash; any other known connection is the same only as itself. |
| AuthRequestLists.AuthRequestList.FindAuthRequestByRequestId | core/authentication/src/auth_request.c:25-34 | The first request with the id. |
| AuthRequestLists.AuthRequestList.FindAuthRequestByConnInfo | core/authentication/src/auth_request.c:115-134 | The first request for verification on the connection. |
| AuthRequestLists.AuthRequestList.DelAuthRequest | core/authentication/src/auth_request.c:165-179 | Takes out the first request with the id and no other. |
| AuthRequestLists.AuthRequestList.GetAuthRequestWaitNum | core/authentication/src/auth_request.c:36-66 | Fails and drops exactly the stale requests alike the new one, by uint64 clock difference, and counts all that are alike. |
| AuthRequestLists.AuthRequestList.AddAuthRequest | core/authentication/src/auth_request.c:68-85 | Appends, then sweeps. |
| AuthRequestLists.AuthRequestList.StartReconnectDevice | core/authentication/src/auth_manager.c:779-808 | Succeeds exactly if the connection gets under way and is of a known type; what is in the list and who was told in every other case. |
| AuthRequestLists.AuthRequestList.ReportAuthRequestFailed | core/authentication/src/auth_manager.c:840-861 | Terminates, because each round shortens the list, with the list and the callbacks the specification gives. |
| AuthRequestLists.AuthRequestList.ReportAuthRequestPassed | core/authentication/src/auth_manager.c:810-838 | Terminates, because each round after the first leaves fewer requests for verification, with the list and the callbacks the specification gives; ids stay unique. |
| AuthReports.SweepBalanced | core/authentication/src/auth_request.c:36-66 | A sweep leaves each id its very request unanswered, or drops it and answers once, or not at all exactly if it had no complete callback. |
| AuthReports.PassOneFacts | core/authentication/src/auth_manager.c:818-836 | A round takes out its request, keeps ids unique and leaves one request for verification fewer if its own was one. |
| AuthCallbacks.PassTellsRightly | core/authentication/src/auth_manager.c:810-838 | Each id keeps its very request unanswered, or loses it and is answered once if it can be, or is left with a reconnect request. ConnOpened goes exactly to removed requests with a connection callback on WiFi, P2P and enhanced P2P, ConnOpenFailed to those on other links, VerifyPassed to those with a verify callback only; of these none but a reconnect request gets VerifyFailed. |
| AuthCallbacks.ReconnectionWaits | core/authentication/src/auth_manager.c:779-808 | A reconnection that gets under way waits under the request's id, on its connection, with a connection callback and its own time, and nobody is told. |
| AuthCallbacks.FailTellsFailure | core/authentication/src/auth_manager.c:840-861 | A failing report makes no callback but failures: of the connection to requests with a connection callback, of the verification to the others. |
| AuthCallbacks.FailStopsAtFirst | core/authentication/src/auth_manager.c:854-860 | Once an attempt to connect for a waiting request gets under way, no further request is failed. |
| AuthCallbacks.FailServesConnection | core/authentication/src/auth_manager.c:840-861 | If none does, no request for verification of the connection is left, where comparison is transitive among the connections involved. |
| AuthCallbacks.SweepTellsFailure | core/authentication/src/auth_request.c:36-66 | A sweep fails stale requests only, each by the callback it has. |
| AuthCallbacks.AddKeepsExactly | core/authentication/src/auth_request.c:36-86 | An addition keeps the new request, and every other unless it is for the same purpose on the same connection and was added at least 30 seconds earlier. |
| AuthCallbacks.WaitingCounts | core/authentication/src/auth_request.c:36-86 | The number returned is that of all requests for the same purpose on the same connection, stale ones included. |
| AuthCallbacks.FindVerifyIsFirst | core/authentication/src/auth_request.c:115-135 | The request found for a connection is the first one for verification. |
| AuthReports.PassSettlesExactly | core/authentication/src/auth_manager.c:779-838 | That holds for all ids if and only if the report does not start by reconnecting a connection of unknown type. |
| AuthReports.BotchedIsToldAndKept | core/authentication/src/auth_manager.c:798-801 | Why: there AddAuthRequest counts nothing, so the requester is told that it failed while the reconnect request stays in the list. |
| AuthReports.FailAnswersAll | core/authentication/src/auth_manager.c:840-861 | A failing report leaves each id its very request unanswered, or drops it and answers once, or not at all exactly if it had no complete callback. |
| AuthServes.PassServesConnection | core/authentication/src/auth_manager.c:810-838 | A passing report leaves no request for verification of its connection if comparison is transitive among that connection and those waiting on its link. |
| AuthServes.OffBleIsTransitive | core/authentication/src/auth_common.c:256-297 | On every link but Bluetooth low energy it always is. |
| AuthServes.PassOverThree | core/authentication/src/auth_manager.c:810-838 | For all three requests of which the last two match the first, the report from the first serves them all if and only if the last two match each other. |
| AuthServes.BleMayLeaveOne | core/authentication/src/auth_manager.c:837-837 | Three Bluetooth low energy requests of which the report leaves one. |
| Framing.HeadRoundTrip | core/authentication/src/auth_connection.c:228-276 | Every header survives its 24 bytes, whatever follows. |
| Framing.HeadOfBytes | core/authentication/src/auth_connection.c:253-276 | Every 24 bytes are the encoding of the header they decode to. |
| Framing.HeadParts | core/authentication/src/auth_connection.c:228-251 | The fields lie at bytes 0, 4, 8, 16 and 20, least significant byte first, and what follows starts at 24. |
| Framing.ReceivedExactly | core/authentication/src/auth_tcp_connection.c:127-247 | From a socket a header is taken if and only if 24 bytes are there, they start with the magic number and the length is from 1 to 65536; its fields are those at their places. |
| Framing.PackedDataTravels | core/authentication/src/auth_connection.c:228-276 | A non-empty packet whose size fits in 32 bits is read back, header and payload; it can be packed exactly if its buffer is within the copy limit. |
| Framing.EmptyPayloadFails | core/authentication/src/auth_connection.c:246-249 | An empty payload is packed exactly if the buffer is longer than the header and within the copy limit. |
| Framing.CheckedSizesHoldTheHeader | core/authentication/src/auth_connection.c:228-233 | Every buffer size the check accepts has room for the header if and only if the length is below 2^32 - 24. |
| Framing.SocketPackets | core/authentication/src/auth_tcp_connection.c:430-451 | For every length, what packing into a buffer of the computed size comes to: done from 1 to 0x7FFFFFFF, a failed copy for zero and above that, and a header past the end of the buffer from 2^32 - 24 on. |
| Framing.PostedPackets | core/authentication/src/auth_connection.c:553-565 | The same behind a connection header, whose size is added with a second wrap and subtracted with a third: the room given out is always the packet size, the header lies in the block if and only if the length is below 2^32 - 48, and from there on it is past the end. |
| Framing.UnpackedBodyIsInside | core/authentication/src/auth_connection.c:253-276 | On arbitrary bytes a body is returned if and only if it lies wholly inside the buffer, although the size computation wraps. |
| Framing.Pack | core/authentication/src/auth_connection.c:228-251 | The buffer holds header, payload and what was behind them; the outcome for every size, including sizes shorter than the header. |
| Framing.PutLe | core/authentication/src/auth_connection.c:234-244 | A field is stored little-endian at its offset and nothing else changes. |
| Framing.SessionHeadTravels | core/authentication/src/auth_tcp_connection.c:127-247 | Over WiFi every device id, Hichain and device info header arrives with its data type if and only if its length is from 1 to 65536. |
| SeqIds.IntegerAfter | core/authentication/src/auth_common.c:225-239 | After any calls the counter is the even number of the position in the epoch of 2^23 calls. |
| SeqIds.DirectionTravels | core/authentication/src/auth_connection.c:446-446 | The receiver's remainder test is non-zero if and only if the sender was the server, also for negative numbers. |
| SeqIds.SeqsDifferInEpoch | core/authentication/src/auth_common.c:225-239 | All sequence numbers between two updates of the unique id differ, whichever sides they are for. |
| SeqIds.SeqsDifferAcrossIds | core/authentication/src/auth_common.c:206-239 | Sequence numbers from epochs or devices whose unique ids differ in their low 40 bits are different, whichever calls and sides they come from. |
| SeqIds.SeqGenerator.GenSeq | core/authentication/src/auth_common.c:225-239 | The k-th call returns the k-th number of the sequence those results are about. |
| SeqIds.RequestIds.ConnGetNewRequestId | core/connection/manager/softbus_conn_manager.c:313-324 | After k calls the id is 2 * (k mod 500000) + 1. |
| SeqIds.RequestIdsDiffer | core/connection/manager/softbus_conn_manager.c:313-324 | Any 500000 ids in a row are distinct. |

## Left out

- RingTheorems.StepRefinesFifo: weak memory is not modelled; the barriers are taken to enforce program order.
- AuthTheorems.QuietMeansPassed: a server session that dies and is replaced by a new one on the same connection is not part of the joined model; the session list covers replacement.
- Framing.Pack: what a failing `memcpy_s` does to its destination, and what a header past the end overwrites, are not stated.
- RingQueue.LockFreeQueue.CountGet: reads both tails at once, as in a queue with one producer and one consumer at rest; `RingSnapshots.CountBetweenReads` says what the answer means when steps come between.
- RingQueue.LockFreeQueue.IsEmpty: the same; see `RingSnapshots.EmptyBetweenReads`.
- LooperTheorems.NeverEarly: the due time is a parameter; overflow of clock plus delay is not modelled.
- SessionKeys.AcceptedWithoutRoom: the length reported for such a call, which wraps as well, is not modelled; nor are the length checks of the OpenSSL back end.
- SessionTables.SessionTable.HandleDeviceInfoData: what makes a packet a flush packet, and the reply to one, are not modelled.
- The raw device id of old Bluetooth peers, the protocol version and the contents of device id and device info messages: read by no decision modelled here other than through `World`.
- Sending session keys and device keys to storage, priorities and delayed disconnects after a session ended: no session state depends on them.
- Last-use times of session keys: no modelled operation reads them.
- FindAndDelAuthRequestByConnInfo and ClearAuthRequest: they only delete.
- RecvPacketData: its loop depends on a socket that may return nothing for ever.
- Hichain, JSON, cryptography libraries, sockets, Bluetooth drivers: behind `World` and other parameters.
- Locks and failing locks, allocation failures other than those named, deinitialisation, logging, event reports.
- GetActiveAuthIdByConnInfo, HandleBleConnectResult, the auth manager lists and listeners, Wi-Fi Direct, the bus centre: they would add members without a harder property.
- The state machine framework of the bus centre: taken as a first-in first-out queue with synchronous transitions.
