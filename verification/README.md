# Verified model of the network layer

A Dafny 4.11 model of the fabric-based network layer: the flooding reliable broadcast, the
completion accounting, life cycle and memory regions of `Connection`, the reference counting
of `shared_buf`, the RPC server and client on their byte buffers, and the tagged messages of
the connectionless endpoints. `dafny verify dfyconfig.toml` checks all of it.

libfabric is an environment whose answers are arbitrary, under these assumptions:

- A read of a completion queue with count 1 yields at most one entry, and
  `fi_cq_readerr` consumes one error entry. An operation whose completion was read as a
  success is in the peer's channel, even if the sender ends later.
- A post that returns an error has posted nothing.
- An object is opened on and bound to the kinds of objects that `Fabric.MayDepend` lists.
  `fi_close` refuses an object, as busy, while an open object was opened on it or is bound
  to it. A failed open leaves the caller's handle unchanged.
- The provider gives no two open memory regions the same key.
- Messages may be reordered; they are not lost, duplicated or altered. Channels are unbounded:
  a send to a live peer completes. A send to a crashed peer may complete, but progress does not
  rely on it: there, such a send stops its sender.
- A tagged receive honours the peer it names only on an endpoint that asked for directed
  receives: servers do, clients do not.
- An RPC address occupies the number of bytes that its length field says.

Scripts stand for the provider's behaviour (`posts`, `polls`, `answers`), and the theorems are
about all scripts. When `polls` ends inside a call, the call is `Blocked`, so every contract
about a returning call speaks about every behaviour of the provider.

## Modules

| module | content |
|---|---|
| `Flooding`, `Agreement`, `FloodingTermination` | the broadcast as a step system over an arbitrary finite graph, with crashes between any two sends; safety, agreement, termination |
| `CompletionQueue`, `Completions`, `Transmit`, `Relay` | the shared transmit queue; `msg_sends` against it; class `Connection` (transmit side); the broadcast functions on it |
| `Simulation` | members over their connections behave as nodes of the step system |
| `RefCount`, `Outcomes`, `SharedBuffers` | `shared_buf` as interleaved steps of any number of threads; what each operation leaves in its handles; the operations on handle objects |
| `Wire`, `RpcSpec`, `Rpc` | byte formats; what the server computes; server and client on reused buffers |
| `Fabric`, `Ownership`, `Setup`, `Lifecycle` | provider objects; who owns which; what construction, connect and accept make of the provider's answers; class `Connection` (life cycle) |
| `Families`, `Effects`, `Ensemble` | who may depend on whom; what each command does to a group of connections; arbitrary runs over many connections |
| `Tagged`, `Connectionless` | tags 1, 2 and 3 and the receive queue; the retry loops of the broadcasts |
| `Common`, `Totals` | shared types; sums of sequences |

A class whose methods update fields is a class here, and its methods are proved against
functions on values; the lemmas about runs are about those functions. The broadcast and
`shared_buf` are in addition step systems, because their properties are about interleavings.
`Simulation` connects the two for the broadcast: runs of members over their connections project
to runs of the step system, where one `SendNext` step is one `Send` that returned, and a `Send`
that does not return is a node that stops inside its loop.

Every lemma turns Dafny's automatic induction off: an induction is always written out.

## Where the code and its documentation differ

- `wait_for_sends` (connection.hh:548-551) does not always come back: after one refused
  `async_send` post nothing balances the counter. `Completions.WaitCanReturnIff` has the exact
  condition, `Completions.RefusedPostHangs` an example. For `send` (connection.hh:459-464) the
  exact condition is `Completions.SendCanReturnIff`.
- `try_wait_for_sends` (connection.hh:529-534) never returns false: the `int` that is compared
  with 0 holds the `bool` of `ERRREPORT`. It returns exactly when `wait_for_sends` would, and
  waits forever where that ends the process: `Completions.TryWaitReturnsIff` and
  `Completions.TryWaitCanReturnIff` have the exact conditions, `Completions.FailedSendHangs` an
  example.
- `write` and `read` (connection.hh:688-699) wait for some completion, not for their own;
  `Completions.RmaReapsItselfIff` has the exact condition. The result of `try_write` and
  `try_read` (connection.hh:747-757) may be about another operation;
  `Completions.TryRmaTellsIff` has the exact condition, `Completions.TryRmaMisleads` examples.
- `accept` and `nonblockingAccept` (connection.hh:323-326) may return false with a connection
  that owns an endpoint. `Setup.NullIffNotServed` has the exact condition,
  `Lifecycle.AcceptFailsWithOwner` an example.
- `try_setup_active_ep` (connection.hh:903-909) returns true whenever it returns, so its result
  says whether the eight calls succeeded only if they did. It goes on after a refused `fi_domain`
  or `fi_endpoint` if there is an older handle, and always after a refused event queue binding or
  `fi_enable`; `Lifecycle.Connection.SetupActiveEp` has the exact condition under which it ends
  the process, `Lifecycle.AcceptWithoutEnable` an example where `accept` reports success.
- The size check of `callRemote` (fabricBased.hh:360) admits requests whose transmission, which
  counts the payload twice (fabricBased.hh:365), is longer than the buffer.
- A connectionless `recv` (connectionless.hh:232-242) can return without its message while an
  `async_accept` is outstanding. `Tagged.RecvTakesOwnIff` has the exact condition.
- A `shared_buf` that was moved from still answers `isRegistered` (shared_buf.hh:229-235), from
  cells that may be deleted. `RefCount.ReadIsSafeIff` has the exact condition,
  `RefCount.MovedFromReadDangles` an example.
- Destroying a `Connection` ends the process if an object that it does not hold, such as an
  accepted child's domain or one forgotten by a retried `accept`, still depends on its own.
  `Lifecycle.Connection.Destroy` has the exact condition, `Lifecycle.RetriedAcceptBlocks` an
  example. A caller who is careful as `Effects.CarefulIn` says (a server connects or accepts only
  when none of its handles would be overwritten, and is destroyed or assigned to only when its
  accepted connections are gone) never meets it.

## Model

| member | source | states |
|---|---|---|
| Flooding.StepKeepsInv | fabricBased/include/networklayer/connection.hh:1082-1100 | every step of the protocol (begin a broadcast, receive and check, one send, mark and return, crash) keeps: send logs are whole loops plus a prefix, marked means returned true exactly once, every copy sent is in its channel, lost with a crashed receiver, or taken on by the receiver |
| Flooding.RunKeepsInv | fabricBased/include/networklayer/connection.hh:995-1100 | the same after every run, over any graph, with any pattern of crashes |
| Agreement.RelayBeforeDeliver | fabricBased/include/networklayer/connection.hh:1092-1094 | in every reachable state, a node that marked m has sent m on every connection of its list |
| Agreement.StoppedMidLoop | fabricBased/include/networklayer/connection.hh:995-999 | a node stopped inside its loop has sent its earlier loops in full and exactly the first `next` copies of the current one |
| Agreement.NoDuplication | fabricBased/include/networklayer/connection.hh:1092-1098 | over every run, a receive returned true for m at a node exactly once if the node marked m, and never otherwise |
| Agreement.NoCreation | fabricBased/include/networklayer/connection.hh:1040-1042 | true is returned only for a message that was passed to reliableBroadcast at a node upstream |
| Agreement.UniformAgreement | fabricBased/include/networklayer/connection.hh:1082-1100 | at quiescence, if any node, crashed or not, ever returned true for m, then it did so once, and every node reachable from it through live nodes did so exactly once |
| Agreement.Validity | fabricBased/include/networklayer/connection.hh:1033-1042 | a message broadcast by a node that stays alive is, at quiescence, delivered exactly once at every node reachable through live nodes |
| Agreement.CrashFreeDeliveryIsExact | fabricBased/include/networklayer/connection.hh:1033-1100 | without crashes, the nodes that delivered m at quiescence are exactly those downstream of a node that broadcast it |
| Agreement.BurstRuns | fabricBased/include/networklayer/connection.hh:996-998 | k undisturbed iterations of the send loop put exactly the next k copies into the channels |
| Agreement.RelayCallRefines | fabricBased/include/networklayer/connection.hh:1088-1097 | the fine-grained steps of one undisturbed receive call add up to the call in one go: consume the copy, one copy per list entry, mark, return true |
| FloodingTermination.SendsPerNode | fabricBased/include/networklayer/connection.hh:995-999 | copies sent plus copies still owed by the current loop are degree times (broadcasts begun plus messages taken on), at every node in every state |
| FloodingTermination.FloodingSendBound | fabricBased/include/networklayer/connection.hh:1092-1098 | every run makes at most (sum of origin degrees over broadcasts) + (sum of degrees over pairs of node and distinct message) sends |
| FloodingTermination.RankStep | fabricBased/include/networklayer/connectionless.hh:806-845 | every step other than a broadcast lowers a measure of undelivered pairs, loop remainders and messages in flight; a broadcast raises it by twice the degree plus one |
| FloodingTermination.FloodingTerminates | fabricBased/include/networklayer/connection.hh:1082-1100 | the length of every run is bounded by the graph, the number of distinct messages and the degrees of the broadcasting nodes |
| FloodingTermination.Progress | fabricBased/include/networklayer/connection.hh:995-999 | in every reachable state that is not quiescent, some live node can receive, send to a live peer or return, or must stop because its next peer has crashed |
| FloodingTermination.RunReachesQuiescence | fabricBased/include/networklayer/connection.hh:1082-1100 | every run can be continued to quiescence without broadcasts and without a send to a crashed peer, where the only nodes that stop are those whose next peer has crashed |
| CompletionQueue.ReadEffect | fabricBased/include/networklayer/connection.hh:799-820 | one read reaps one outstanding operation, of whatever kind, or blocks; nothing else changes |
| Completions.RmaKeepsInv | fabricBased/include/networklayer/connection.hh:673-769 | an RMA call that posts one operation and reaps some operation, perhaps a send, keeps the count of owed completions |
| Completions.CompletionConservation | fabricBased/include/networklayer/connection.hh:489-557 | after any interleaving of calls, msg_sends = operations posted and not reaped + failed async_send posts + error entries swallowed by try_wait_for_sends, as a 64-bit counter |
| Completions.WaitReturned | fabricBased/include/networklayer/connection.hh:552-557 | when wait_for_sends returns, nothing is outstanding, no async_send post had failed, no error was swallowed, and what it waited for completed successfully |
| Completions.SendReturned | fabricBased/include/networklayer/connection.hh:459-474 | when send returns, its message and those of all earlier async_sends went out and every buffer is reusable |
| Completions.SendReturnedAfterCalls | fabricBased/include/networklayer/connection.hh:470-474 | the same after any calls from a new connection |
| Completions.TryWaitReturnsIff | fabricBased/include/networklayer/connection.hh:535-557 | on every behaviour of the provider try_wait_for_sends returns, and with the same state, if and only if wait_for_sends does; where wait_for_sends ends the process it waits forever |
| Completions.WaitOutcome | fabricBased/include/networklayer/connection.hh:552-557 | wait_for_sends returns exactly if all the entries it counts on are successes, ends the process exactly if the first one that is not is an error, and waits exactly if the queue yields too few |
| Completions.WaitTerminates | fabricBased/include/networklayer/connection.hh:552-557 | if no post failed and every operation completes successfully, in any order and however late, the loop ends |
| Completions.WaitCanReturnIff | fabricBased/include/networklayer/connection.hh:548-557 | wait_for_sends can return under some behaviour of the provider if and only if no async_send post failed and no error was swallowed |
| Completions.TryWaitCanReturnIff | fabricBased/include/networklayer/connection.hh:529-546 | try_wait_for_sends can return under some behaviour of the provider if and only if no async_send post failed and no error was swallowed |
| Completions.FailedSendHangs | fabricBased/include/networklayer/connection.hh:538-540 | after one send whose completion is an error, try_wait_for_sends waits forever, whatever comes next, and wait_for_sends ends the process |
| Completions.CounterIsExact | fabricBased/include/networklayer/connection.hh:489-557 | after fewer than 2^64 calls that have all returned, msg_sends is exactly the operations posted and not reaped plus the failed async_send posts, and wait_for_sends can return if and only if no async_send post failed |
| Completions.SendCanReturnIff | fabricBased/include/networklayer/connection.hh:459-474 | send can return under some behaviour of the provider if and only if the size is admissible, its own post is accepted, no earlier async_send post failed and no error was swallowed |
| Completions.RefusedPostHangs | fabricBased/include/networklayer/connection.hh:495-496 | after one refused async_send, wait_for_sends returns under no behaviour of the provider |
| Completions.RmaReapsItselfIff | fabricBased/include/networklayer/connection.hh:673-679 | a returning write or read has reaped its own operation, whatever the provider does, if and only if nothing was outstanding at the call |
| Completions.RmaOutcome | fabricBased/include/networklayer/connection.hh:673-679 | a returning write or read was posted and has reaped one operation; the process ends exactly if the post is refused or the entry read is an error |
| Completions.TryRmaTellsIff | fabricBased/include/networklayer/connection.hh:701-710 | the result of a returning try_write or try_read is true exactly if its own operation completed, whatever the provider does, if and only if nothing was outstanding at the call |
| Completions.TryRmaOutcome | fabricBased/include/networklayer/connection.hh:701-769 | true only for an accepted post, after reaping one operation; a refused post gives false, posts nothing and leaves the process running; try_write and try_read never end it |
| Completions.CallOutcome | fabricBased/include/networklayer/connection.hh:459-769 | what each returning call means: async_send hands its message to an accepting provider, send and both waits leave nothing outstanding and the counter 0, the RMA calls post their own operation and reap one |
| Completions.TryRmaMisleads | fabricBased/include/networklayer/connection.hh:757-769 | inputs: with a send outstanding, true while the own operation is still under way, and false although it then completes |
| Completions.CallContinues | fabricBased/include/networklayer/connection.hh:459-769 | whatever calls follow, no operation is forgotten and what was delivered stays delivered |
| Completions.ConservationAcrossMoves | fabricBased/include/networklayer/connection.hh:137-252 | the same conservation after any calls on any number of connections that are moved to new variables and over one another |
| Completions.MoveOutcome | fabricBased/include/networklayer/connection.hh:137-252 | a move leaves the target with all that the source had and the source unusable; the number of usable connections stays, or falls by the one that is overwritten |
| Transmit.Connection.Move | fabricBased/include/networklayer/connection.hh:137-163 | the counter and the queue change owner; the source keeps the number but has no queue |
| Transmit.Connection.MoveAssign | fabricBased/include/networklayer/connection.hh:198-252 | the same over an existing connection; self-assignment changes nothing |
| CompletionQueue.WaitForCompletion | fabricBased/include/networklayer/connection.hh:799-820 | the polling loop computes the specified read |
| Transmit.Connection.AsyncSend | fabricBased/include/networklayer/connection.hh:489-497 | size check, counter, then post; the whole new state, and true exactly if the post was accepted |
| Transmit.Connection.WaitForSends | fabricBased/include/networklayer/connection.hh:552-557 | the loop computes the specified state; a failed completion ends the process |
| Transmit.Connection.TryWaitForSends | fabricBased/include/networklayer/connection.hh:535-546 | the loop, with ERRREPORT's bool in an int, computes the specified state; the result is never false |
| Transmit.Connection.Send | fabricBased/include/networklayer/connection.hh:470-474 | async_send, its result ignored, then the wait |
| Transmit.Connection.WriteOrRead | fabricBased/include/networklayer/connection.hh:673-737 | the whole new state of write and read; they return only if the post was accepted, and a refused post ends the process |
| Transmit.Connection.TryWriteOrRead | fabricBased/include/networklayer/connection.hh:701-769 | the whole new state and result of try_write and try_read; true only if the post was accepted, false and still running if it was refused; with nothing outstanding before, the result says whether the own operation completed |
| Relay.SendHandsOver | fabricBased/include/networklayer/connection.hh:470-474 | a returning send leaves the message as the connection's last operation, completed, with nothing owed and the counter 0 |
| Relay.SendAllEffect | fabricBased/include/networklayer/connection.hh:995-999 | the send loop keeps every connection consistent, loses nothing delivered, adds at most one to what is owed, and, if every send returned, hands the message over on every connection |
| Relay.MarkedIsSentEverywhere | fabricBased/include/networklayer/connection.hh:1088-1097 | after any sequence of receives and other calls on the connections, a send of every marked message has completed on every connection of the list |
| Relay.UsesAreCalls | fabricBased/include/networklayer/connection.hh:459-769 | an application's calls on one connection of the list do what they do outside of it, and change no other connection |
| Relay.BestEffortBroadcast | fabricBased/include/networklayer/connection.hh:995-999 | the first `sent` connections have the message handed over, the next one is where the call stopped, the others are untouched |
| Relay.Member.ReliableBroadcastReceiveFrom | fabricBased/include/networklayer/connection.hh:1082-1100 | computes the specified receive and keeps the invariant that every marked message was delivered on every connection: it marks and returns true exactly if the message is new and every connection has it handed over, with all counters back at 0; a message seen before changes nothing; a stopped call has served a prefix and marked nothing |
| Simulation.ActionProjects | fabricBased/include/networklayer/connection.hh:995-1100 | one call at one member, whatever the provider does, is a run of the step system: the call begins, one send per Send that returned, and the call or the member ends |
| Simulation.ReceiveIsRelayAtOnce | fabricBased/include/networklayer/connection.hh:1088-1097 | a receive of a new message all of whose sends returned is the relay in one go |
| Simulation.RunProjects | fabricBased/include/networklayer/connection.hh:995-1100 | every run of members over their connections projects to a run of the step system with the same channels, marks and stopped nodes |
| Simulation.CopiesWereSent | fabricBased/include/networklayer/connection.hh:470-474 | each copy that the projection counts is a send of the message that completed on its connection |
| Simulation.CountedAreReturned | fabricBased/include/networklayer/connection.hh:995-999 | and every send of the loop that returned is counted: the next one, if any, did not return, and the later ones were not begun |
| Simulation.CopyArrivesIff | fabricBased/include/networklayer/connection.hh:995-999 | a copy reaches the channels exactly if all sends up to it returned, or its own is the first that did not and it arrives all the same |
| Simulation.MembersAgree | fabricBased/include/networklayer/connection.hh:1082-1100 | uniform agreement of the members: when no copy is in flight to a member that is up, a message marked by any member has been marked by every member that it reaches through members that are up |
| RefCount.StepKeepsInv | fabricBased/include/networklayer/shared_buf.hh:44-124 | every step (one fetch_add, one delete, one assignment of fields) of any thread keeps counters exact, below 2^32 handles, and a copy in flight on its way to the block of its source |
| RefCount.RunKeepsInv | fabricBased/include/networklayer/shared_buf.hh:44-124 | the same over every interleaving of any number of threads and handles |
| RefCount.CountIsExact | fabricBased/include/networklayer/shared_buf.hh:67-75 | in every reachable state the counter equals counted handles plus acquisitions in flight; one releaser observed 1 exactly when no holder is left; it alone deletes the block, once |
| RefCount.NoHandleDangles | fabricBased/include/networklayer/shared_buf.hh:44-53 | no handle that is counted, or about to be, refers to a block deleted or about to be |
| RefCount.NoUseAfterFree | fabricBased/include/networklayer/shared_buf.hh:67-124 | every fetch_add and every delete works on a block that was not deleted |
| RefCount.SourceSurvives | fabricBased/include/networklayer/shared_buf.hh:77-124 | during a copy or move, also between release and acquisition, the source's block is not deleted |
| RefCount.NothingLeaks | fabricBased/include/networklayer/shared_buf.hh:67-75 | with no operation in progress, a block was deleted exactly once if no handle points to it and never otherwise |
| RefCount.MoveIsNeutral | fabricBased/include/networklayer/shared_buf.hh:114-123 | a move changes no counter and no number of holders; the moved-from handle counts for no block |
| RefCount.GoAlwaysDefined | fabricBased/include/networklayer/shared_buf.hh:44-124 | in reachable states every begun operation is within its own preconditions |
| RefCount.ReadIsSafeIff | fabricBased/include/networklayer/shared_buf.hh:55-65 | a move does not clear the pointers to the registration cells; with no operation in progress, reading through them is safe if and only if some handle still holds the block |
| RefCount.ConcurrentReadIsSafeIff | fabricBased/include/networklayer/shared_buf.hh:114-123 | while threads are at work: if and only if a handle holds the block or is about to, or the last releaser has not deleted it yet |
| RefCount.MovedFromReadDangles | fabricBased/include/networklayer/shared_buf.hh:55-75 | a run after which the handle that was moved from points to deleted cells: construct, move, destroy the new owner |
| RefCount.RegistrationIsShared | fabricBased/include/networklayer/shared_buf.hh:197-201 | after a registration through one handle, whatever copies, moves, assignments and destructions follow in any threads, every handle of the block, older or newer, reads the registered key from undeleted cells |
| Outcomes.OperationOutcome | fabricBased/include/networklayer/shared_buf.hh:44-124 | whatever the other threads do between its steps: a completed copy is counted for the block that its source had at the call, and still has; a move leaves the destination with what the source had at the call and the source without a share; a destructed handle is dead |
| Outcomes.CopyAcquires | fabricBased/include/networklayer/shared_buf.hh:90-97 | the acquisition of a copy raises the counter of exactly the source's block, by one, and changes no other block; then the destination is counted for that block |
| Outcomes.OperationAdvances | fabricBased/include/networklayer/shared_buf.hh:44-124 | an operation is complete after at most four steps of its own thread, and no step of another thread touches it |
| Outcomes.OverlapIff | fabricBased/include/networklayer/shared_buf.hh:44-124 | operations may overlap exactly if neither uses a handle that the other writes; several threads may copy from one handle |
| Outcomes.CanBegin | fabricBased/include/networklayer/shared_buf.hh:44-124 | with nothing in progress, every handle can be destroyed, assigned to and moved from, also one that was moved from; only copying needs a source with a block |
| Outcomes.SelfAssignment | fabricBased/include/networklayer/shared_buf.hh:77-104 | assigning a handle to itself changes nothing |
| Outcomes.TouchedIsChanged | fabricBased/include/networklayer/shared_buf.hh:67-124 | the blocks whose use RefCount.NoUseAfterFree is about are exactly those that the step changes |
| Outcomes.ConstructOutcome | fabricBased/include/networklayer/shared_buf.hh:38-42 | a constructed handle is the only holder of a block that did not exist before |
| Outcomes.RegisterOutcome | fabricBased/include/networklayer/shared_buf.hh:197-201 | a registration sets the key of the handle's own block and changes nothing else |
| SharedBuffers.SharedBuf.Copy | fabricBased/include/networklayer/shared_buf.hh:44-53 | shares the block and raises its counter by one |
| SharedBuffers.SharedBuf.Move | fabricBased/include/networklayer/shared_buf.hh:55-65 | takes the block and leaves the source without one, but with its pointers to the registration cells; no counter changes |
| SharedBuffers.SharedBuf.Release | fabricBased/include/networklayer/shared_buf.hh:67-75 | decrements, and deletes exactly on having seen 1 |
| SharedBuffers.SharedBuf.CopyAssign | fabricBased/include/networklayer/shared_buf.hh:77-99 | release, then acquire: the source's block survives, for the same block the count ends unchanged, self-assignment changes nothing |
| SharedBuffers.SharedBuf.MoveAssign | fabricBased/include/networklayer/shared_buf.hh:101-124 | the source's block survives and its share is handed over, the source keeps its pointers to the registration cells; self-assignment changes nothing |
| Wire.WordRoundTrip | fabricBased/include/networklayer/fabricBased.hh:353-359 | a 64-bit number survives being stored and loaded |
| Wire.LeastSignificantFirst | fabricBased/include/networklayer/fabricBased.hh:353-359 | the bytes are stored least significant first |
| Wire.RequestLayout | fabricBased/include/networklayer/fabricBased.hh:40-51 | address length, address, function id, payload size and payload are at the places that the protocol comment lists |
| Wire.CountedRoundTrip | fabricBased/include/networklayer/connectionless.hh:474-494 | the address that connect frames is what accept reads, whatever follows it in the buffer |
| Wire.RequestRoundTrip | fabricBased/include/networklayer/fabricBased.hh:200-221 | address, function id and payload of a request frame come out exactly, whatever follows |
| Wire.FramingRoundTrip | fabricBased/include/networklayer/fabricBased.hh:353-374 | the server parses exactly what the client framed, whatever stale bytes both buffers held, if the length computed at line 365 fits |
| Wire.ReplyRoundTrip | fabricBased/include/networklayer/fabricBased.hh:225-228 | the reply decodes to exactly the result if it fits the buffer |
| Wire.SizeCheckSufficesIff | fabricBased/include/networklayer/fabricBased.hh:360-366 | the size check keeps every transmission with an address of n bytes inside the buffer if and only if n >= 4072, when no payload passes at all; for any shorter address a payload passes whose transmission is too long |
| RpcSpec.AnswerToRequest | fabricBased/include/networklayer/fabricBased.hh:197-232 | the iteration on a framed request, in terms of what is registered: fn registered for the id gives the reply fn(state, payload) to the framed address and leaves fn's state; id 0 replies the payload and ends; an unknown id aborts |
| RpcSpec.RemoteEqualsLocal | fabricBased/include/networklayer/fabricBased.hh:194-234 | for every sequence of requests that fit, with registered ids and others: the replies are the results of the registered functions applied in order to the payloads, each to its own address, and the server ends in the same state, at the same call and for the same reason as the local calls |
| RpcSpec.LocalStops | fabricBased/include/networklayer/fabricBased.hh:194-234 | where a sequence of calls ends: done exactly if the last result is that of id 0, waiting exactly if all results are there, aborted at an id that is not registered, undefined at a result that does not fit |
| RpcSpec.AnswerStopsIff | fabricBased/include/networklayer/fabricBased.hh:200-228 | an iteration aborts exactly for an unknown id, and is undefined exactly if the request or the result leaves the buffers |
| RpcSpec.OversizeAborts | fabricBased/include/networklayer/fabricBased.hh:197-198 | a message longer than the buffer ends the server in the failed receive, after the replies to those before |
| Rpc.Memcpy | fabricBased/include/networklayer/fabricBased.hh:353-354 | exactly the given range of the buffer is replaced |
| Rpc.FabricRPC.RegisterRPC | fabricBased/include/networklayer/fabricBased.hh:184-189 | inserts exactly if the id is new; id 0 stays the shutdown function |
| Rpc.FabricRPC.Handle | fabricBased/include/networklayer/fabricBased.hh:200-232 | one iteration on the buffers computes the specified answer; a reply leaves the address vector as it was |
| Rpc.FabricRPC.Start | fabricBased/include/networklayer/fabricBased.hh:194-234 | the loop on reused buffers computes the specified replies; the address vector is the same at the top of every iteration; done exactly if id 0 was called |
| Rpc.FabricRPClient.SendRequest | fabricBased/include/networklayer/fabricBased.hh:353-367 | for every address and payload: what is sent, or that the size check failed, or that a copy or the send runs past the buffer, each exactly when |
| Rpc.FabricRPClient.ReceiveReply | fabricBased/include/networklayer/fabricBased.hh:369-376 | the result is what the received frame says |
| Rpc.CallRemote | fabricBased/include/networklayer/fabricBased.hh:344-377 | one call through client and server: if fn is registered for the id, the client gets fn(state, data) and the server keeps its state; for id 0 it gets data and the server is done |
| Fabric.Provider.Close | fabricBased/include/networklayer/connection.hh:165-191 | closes an open object exactly if no open object depends on it |
| Ownership.OthersKeepTheirs | fabricBased/include/networklayer/connection.hh:137-252 | an operation that touches only what its connection held or opened leaves every other connection intact and shares nothing with it |
| Ownership.HandOverSplits | fabricBased/include/networklayer/connection.hh:367-382 | the hand-over of accept splits what the server held into two disjoint parts |
| Setup.NullIffNotServed | fabricBased/include/networklayer/connection.hh:323-385 | accept comes with a null connection if and only if the failure was before the hand-over, and with false and an owning connection if and only if only the final wait failed |
| Setup.HandOverDivides | fabricBased/include/networklayer/connection.hh:367-385 | the hand-over leaves both with exclusive ownership of what the server held or opened, and the result is that of the final wait |
| Setup.EquippedFully | fabricBased/include/networklayer/connection.hh:863-938 | an endpoint set up with favourable answers depends on its domain, both queues and the event queue, the queues on the domain, and the domain on the fabric |
| Ownership.BusyOnlyOutside | fabricBased/include/networklayer/connection.hh:171-190 | after closing everything of lower rank, an object is busy only for an object outside the connection |
| Ownership.ClosingStep | fabricBased/include/networklayer/connection.hh:165-191 | each close of the sequence succeeds if nothing outside depends on the connection's objects, and fails if something outside needs this one |
| Ownership.OpenIffNeeded | fabricBased/include/networklayer/connection.hh:206-225 | after a closing sequence that only reports refusals, an object is still open exactly if another open object needs it |
| Ownership.CloseOrder | fabricBased/include/networklayer/connection.hh:171-190 | pep and regions, ep, eq and queues, domain, fabric: the order closes dependents first |
| Ownership.CloseOnce | fabricBased/include/networklayer/connection.hh:165-191 | no handle is closed twice by one sequence |
| Ownership.SetupKeepsComplete | fabricBased/include/networklayer/connection.hh:910-938 | setting up an endpoint makes the region table complete or keeps it so |
| Ownership.RegisteredIsStep | fabricBased/include/networklayer/connection.hh:627-643 | what register_mr does is one step of the sequences of registrations that `Ownership.TableOverRuns` is about |
| Ownership.TableOverRuns | fabricBased/include/networklayer/connection.hh:627-643 | over any sequence of registrations the table maps each key to the one open region with that key, no two open regions of the domain have the same key, and the table contains all of them |
| Lifecycle.Connection.Create | fabricBased/include/networklayer/connection.hh:65-105 | a server gets a fabric and an event queue on it, a client also an endpoint on a domain, bound to its queues and the event queue; all newly opened; the process ends exactly if one of the two or ten calls is refused |
| Lifecycle.Connection.Move | fabricBased/include/networklayer/connection.hh:137-163 | all handles change owner; the source is left with none |
| Lifecycle.Connection.SetupActiveEp | fabricBased/include/networklayer/connection.hh:910-959 | exactly when setting up an endpoint ends the process; otherwise the result is true, also if a call was refused, and, by the answers: what domain, endpoint and queues are opened on and bound to, and which old handle is kept |
| Lifecycle.Connection.Connect | fabricBased/include/networklayer/connection.hh:261-321 | exactly when the process ends; otherwise takes nothing of others, remembers a client's failed fi_connect and nothing else, gives a server that got a request an endpoint, uses up so many answers, and returns true exactly if fi_connect, or the request and fi_accept, succeeded and FI_CONNECTED followed |
| Lifecycle.Connection.ConnectServer | fabricBased/include/networklayer/connection.hh:263-308 | on every return a passive endpoint was opened and closed again and the rest is owned; a request has an endpoint with its dependencies; true exactly if the event was a connection request, fi_accept did not fail and FI_CONNECTED followed |
| Lifecycle.Connection.Accept | fabricBased/include/networklayer/connection.hh:327-449 | exactly when the process ends; otherwise server and new connection own disjoint objects on every return; what was opened on and bound to what; if the request was taken and fi_accept did not fail, the new connection owns endpoint, domain and queues and the result is that of the final wait, and otherwise the connection is null and the result false |
| Lifecycle.AcceptFailsWithOwner | fabricBased/include/networklayer/connection.hh:375-382 | a run in which only the final wait fails: accept returns false with a connection that owns an endpoint |
| Lifecycle.AcceptWithoutEnable | fabricBased/include/networklayer/connection.hh:910-959 | a run in which only fi_enable is refused: accept returns true with a connection whose endpoint is not enabled |
| Lifecycle.RetriedAcceptBlocks | fabricBased/include/networklayer/connection.hh:354-365 | a run in which accept fails after setting up the endpoint and is called again: destroying the server ends the process although it has no accepted connection |
| Lifecycle.ClientRetries | fabricBased/include/networklayer/connection.hh:309-320 | a run in which a client's request is not answered with FI_CONNECTED: connect returns false, and the next one can succeed |
| Lifecycle.FailedClient | fabricBased/include/networklayer/connection.hh:261-315 | a run in which fi_connect fails: the next connect ends the process, but the object that the client is moved to connects |
| Lifecycle.ServerConnects | fabricBased/include/networklayer/connection.hh:263-308 | runs of connect on a server: with or without FI_CONNECTED it has an endpoint, its passive endpoint is closed, and the result says which |
| Lifecycle.CloseAll | fabricBased/include/networklayer/connection.hh:198-225 | the closing sequence closes everything held if nothing outside depends on it; without checks, exactly what no open object needs any more |
| Lifecycle.Connection.Destroy | fabricBased/include/networklayer/connection.hh:165-191 | ends the process if and only if an open object outside depends on one of the connection's; otherwise closes exactly the connection's objects |
| Lifecycle.Connection.MoveAssign | fabricBased/include/networklayer/connection.hh:198-252 | closes of the old objects what no open object needs, takes over the other's, leaves it empty; self-assignment changes nothing |
| Lifecycle.Connection.RegisterMr | fabricBased/include/networklayer/connection.hh:627-643 | true exactly if the key was present; then exactly the old region was closed; the new one is on the domain and in the table under its key; the table stays complete |
| Families.EntangledOnlyInFamily | fabricBased/include/networklayer/connection.hh:165-191 | in every run, a connection whose destruction would meet a busy object has a living accepted child, or a region its server registered on its domain, or left an object that was forgotten |
| Families.ChildlessNotEntangled | fabricBased/include/networklayer/connection.hh:165-191 | in a careful run, a connection whose accepted children are gone is destroyed without a busy object |
| Families.LocalKeepsRelated | fabricBased/include/networklayer/connection.hh:261-449 | an operation that touches only its connection's objects creates no dependency on, and takes no object of, another connection |
| Families.AcceptKeepsFamilies | fabricBased/include/networklayer/connection.hh:327-385 | after an accept the child depends on the server's fabric and event queue only, the server on nothing of the child unless it registered a region before, and neither on a third connection |
| Families.ReindexKeepsFamilies | fabricBased/include/networklayer/connection.hh:137-163 | moves, which only change which variable holds which objects, keep these relations, and forget nothing |
| Ensemble.HeldOnce | fabricBased/include/networklayer/connection.hh:137-252 | no object is held by two connections |
| Ensemble.TableIsExact | fabricBased/include/networklayer/connection.hh:627-643 | at any point of a careful run with constructions, connects, accepts, moves and destructions, the region table of every connection that has a domain is exact: each key maps to the one open region of the domain with that key, and all are in it |
| Ensemble.ActKeepsConsistent | fabricBased/include/networklayer/connection.hh:261-321 | an operation of one of any number of connections keeps exclusive ownership and the relations between all of them, and forgets nothing if it held on to everything it opened |
| Ensemble.AcceptKeepsConsistent | fabricBased/include/networklayer/connection.hh:327-385 | so does an accept, successful or not, which adds a connection |
| Ensemble.AssignKeepsConsistent | fabricBased/include/networklayer/connection.hh:198-252 | so does a move assignment between two of them |
| Ensemble.LeaveKeepsConsistent | fabricBased/include/networklayer/connection.hh:165-191 | so does a destruction |
| Ensemble.DoCreate | fabricBased/include/networklayer/connection.hh:65-105 | a construction adds exactly one connection, with its new objects, and changes nothing else; exactly when it ends the process |
| Ensemble.DoConnect | fabricBased/include/networklayer/connection.hh:261-321 | a connect changes one connection, from its old fields to the new ones as the answers say; exactly when it ends the process |
| Ensemble.DoAccept | fabricBased/include/networklayer/connection.hh:327-449 | an accept adds exactly one connection, whose objects and the server's are divided and answered as the answers at the call say; exactly when it ends the process |
| Ensemble.DoMoveConstruct | fabricBased/include/networklayer/connection.hh:137-163 | a move construction adds one connection with all that the source had, and empties the source |
| Ensemble.DoRegister | fabricBased/include/networklayer/connection.hh:627-643 | a registration changes the region table of one connection and closes at most its old region |
| Ensemble.DoDestroy | fabricBased/include/networklayer/connection.hh:165-191 | a destruction removes exactly that connection and closes exactly its objects; it ends the process exactly if an open object outside depends on them, and in a careful run, without children, never |
| Ensemble.DoMoveAssign | fabricBased/include/networklayer/connection.hh:198-252 | a move assignment hands over the source's fields and closes what nobody needs of the target's objects; in a careful run all of them |
| Ensemble.Run | fabricBased/include/networklayer/connection.hh:55-449 | the group that a script leaves is the last of a chain of snapshots, in which each is the effect of the script's next command on the one before; the run ends early only at a command that ends the process; no object is held by two connections and none was used or closed after it was closed; if careless commands are left out, no destructor met a busy object and no open object was forgotten |
| Effects.AcceptServes | fabricBased/include/networklayer/connection.hh:327-385 | in every such chain, an accept all of whose calls succeed adds a connection whose endpoint depends on its own domain and queues and on the server's event queue, and leaves the server listening without an endpoint |
| Effects.FirstAccept | fabricBased/include/networklayer/connection.hh:327-385 | creating a server and accepting, with everything granted, is not cut short and leaves two connections |
| Effects.PopulationFollows | fabricBased/include/networklayer/connection.hh:55-449 | the number of connections after every command follows from the script alone |
| Effects.ScriptDecides | fabricBased/include/networklayer/connection.hh:55-449 | two runs of a script with the same answers have the same connections, with the same handles, flags and origins, and the same answers left, after every command that both complete |
| Ensemble.DestroyAll | fabricBased/include/networklayer/connection.hh:165-191 | after a careful run, destroying the connections youngest first meets no busy object and leaves every object closed |
| Tagged.TagConservation | fabricBased/include/networklayer/connectionless.hh:238-271 | over every run and reordering, for every message and so for every peer and tag: the sends of it in the run = copies in flight + taken by calls of the destination + in its buffers with the completion unread |
| Tagged.BuffersMatch | fabricBased/include/networklayer/connectionless.hh:139-174 | a buffer gets only a message with the tag and peer of its receive; its completion is unread or was taken by exactly one call |
| Tagged.TagNonInterference | fabricBased/include/networklayer/connectionless.hh:357-377 | in every run, with any number of async_accepts: every finished call that began when no other receive was outstanding has taken its own completion, and its buffer matches its posted receive |
| Tagged.CallGetsWhatItAsked | fabricBased/include/networklayer/connectionless.hh:139-377 | for a call begun at any point of any run with no other receive outstanding: when it returns, it has its own completion, and its buffer holds a message for this endpoint with the tag that the call asked for (1 for accepts) and, on a server, from the peer it named |
| Tagged.TagsStayApart | fabricBased/include/networklayer/connectionless.hh:238-242 | so a recv, which asks for tag 2, never returns a broadcast, and a broadcast receive never anything but tag 3 |
| Tagged.OrderlyCallsTakeOwn | fabricBased/include/networklayer/connectionless.hh:168-198 | with any number of async_accept and wait_accept pairs, but nothing received in between, every call that returned took its own completion, and its buffer matches its posted receive |
| Tagged.OrderlyCallGetsWhatItAsked | fabricBased/include/networklayer/connectionless.hh:168-242 | in such a run every call that returns has a message with the tag and from the peer that it asked for |
| Tagged.AcceptStaysPending | fabricBased/include/networklayer/connectionless.hh:168-198 | an async_accept can be waited for until it is, whatever else happens |
| Tagged.ReceivesFromIff | fabricBased/include/networklayer/connectionless.hh:60-66 | a server's receive can get messages from the peer it names and from no other; a client's, which did not ask for directed receives (line 404), from anyone |
| Tagged.RecvTakesOwnIff | fabricBased/include/networklayer/connectionless.hh:182-242 | a receive or a wait_accept returns only with its own completion, whatever the network does, if and only if no other receive of the endpoint is outstanding when it is called |
| Connectionless.CopiesCount | fabricBased/include/networklayer/connectionless.hh:725-727 | one tag-3 copy for each occurrence of an address, and nothing else |
| Connectionless.CopiesMatchIff | fabricBased/include/networklayer/connectionless.hh:725-727 | the copies match broadcast receives, with tag 3, and no accept or recv |
| Connectionless.TrySendOutcome | fabricBased/include/networklayer/connectionless.hh:367-377 | the process goes on if the post was refused or a success was read, ends on an error, and true means accepted and a success read |
| Connectionless.UseOutcome | fabricBased/include/networklayer/connectionless.hh:299-310 | an accepted async_send posts its message; a wait_send reads one entry and ends the process if it is an error |
| Connectionless.SendOneEffect | fabricBased/include/networklayer/connectionless.hh:725-727 | whatever posts are refused, the retry loop posts exactly one message; if nothing was outstanding before, it has been delivered |
| Connectionless.ReturnMeansDeliveredIff | fabricBased/include/networklayer/connectionless.hh:721-746 | when the broadcast returns, all its copies have been delivered, whatever the provider does, if and only if nothing, such as an async_send, was outstanding at the call |
| Connectionless.Endpoint.TrySendTag | fabricBased/include/networklayer/connectionless.hh:367-377 | post, then reap some completion; false from a process that goes on means that nothing was posted |
| Connectionless.Endpoint.BestEffortBroadcast | fabricBased/include/networklayer/connectionless.hh:721-746 | for every finite pattern of refused posts the retry loops post exactly one copy per address occurrence, in order; a process that stops inside has posted exactly a prefix |
| Connectionless.Endpoint.ReliableBroadcast | fabricBased/include/networklayer/connectionless.hh:780-794 | exactly one more copy posted per address occurrence and nothing else |
| Connectionless.MarkedIsPostedOnce | fabricBased/include/networklayer/connectionless.hh:806-845 | after any sequence of receives and other sends, whatever posts were refused, an endpoint that still runs has posted exactly one tag-3 copy of every marked message per address occurrence, and none of any other message |
| Connectionless.Relayer.ReliableBroadcastReceiveFrom | fabricBased/include/networklayer/connectionless.hh:826-845 | computes the specified receive and keeps that invariant; true exactly for a new message all of whose copies were posted; they are delivered if nothing was outstanding before |

## Left out

- libfabric, provider selection, hints, ports and addresses: environment, under the assumptions above.
- `fi_info` objects: retried server calls overwrite them, and no property here needs them.
- Ensemble.Run: proves leak freedom for careful runs only, because a retried `connect` or `accept` forgets handles; at-most-once close and exclusivity hold for all runs.
- Receive side of `Connection` (`recv`, `try_recv`): the received message is a parameter of `Relay.Member.ReliableBroadcastReceiveFrom`; `isRegistered` assertions are taken to hold.
- Simulation.RunProjects: the members' connections carry nothing but the broadcast; other calls on them are covered by `Relay.MarkedIsSentEverywhere`, not by the projection.
- Messages shorter than the buffer: the relay sends the whole buffer, so a message is the whole buffer's content.
- `checkIfReceivedBefore` and `markAsReceived`: a set of messages per node; one receiving thread per node.
- Calls that change no object (`fi_listen`, `fi_accept`, `fi_connect`, `fi_enable`, reads of the event queue): their answers and their order are modelled, not which object each is called on.
- `fi_cq_read` returning 0: taken not to happen with count 1.
- RMA data transfer: only the completions of `write` and `read` are modelled.
- `unique_buf` moves and byte access of both buffer classes: no property here depends on them.
- RefCount.RegistrationIsShared: the registration is one step; concurrent readers between its three stores are not modelled.
- RefCount.StepKeepsInv: assumes fewer than 2^32 handles, beyond which the 32-bit counter wraps; the construction of a new block is one step, since no other thread can see it.
- Rpc.FabricRPClient.SendRequest: does not model what happens after a copy or a send that runs past the buffer; the call is an Overrun then.
- Rpc.FabricRPC.Start: does not model what happens after a request that makes the code leave its buffers; the run stops there as Undefined.
- Connectionless.Endpoint: one endpoint with its addresses; a vector of `ConnectionlessClient`s is one such endpoint, with one address, after the other.
- Lifecycle.Connection.Accept: models accept and nonblockingAccept as one, as only the way of reading the event queue differs.
- `FabricRPC` and `FabricRPClient` constructors and destructors, apart from function 0: plumbing.
- `ConnectionlessServer` and `ConnectionlessClient` construction and address vectors, `Connectionless_t`, `LocalSharedMemory`, the CUDA variant, deprecated wrappers and logging: plumbing, or the same code again.
