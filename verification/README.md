# tsok: a verified model

tsok connects two machines through a relay. A *host* runs an overlay endpoint
that receives sealed messages from client sessions, a small control server that
feeds a local WireGuard engine, and a table of UDP listeners that sessions lease.
A *client* holds an auth key, says Hello, announces its node, keeps itself alive
with pings and asks for UDP ports.

`dafny verify dfyconfig.toml` verifies the whole model.

## How the model is laid out

* `Sessions`, `UdpLeases`, `PeerStore`, `Streaming` are the host's stateful parts
  as the source has them: classes whose methods update fields, each method proved
  against a specification function.
* `Pipeline` puts them together as a step system. The receive loop, the inactivity
  reaper, the node fan-out, the control server's consumer, the control handlers and
  the stream take turns in any order. Each step is one uninterrupted action of the
  source: taking the peer mutex, one channel operation, one atomic load or store.
  The two channels hold at most 8 elements and the two signals at most one; a
  removal holds the mutex while it waits for room. A history beside the machine
  records what only theorems need, such as the node each live session announced
  last; no step reads it.
* `Footprints` says what each goroutine's steps can touch. `Replay`, `Newest`,
  `Wakeups`, `Leases` and `Timeliness` each prove one invariant of every step;
  `HostTheorems` draws the conclusions for whole runs; `Progress` says when the
  goroutines can all be stuck; `Scenarios` gives the runs on which the unconditional
  statements fail; `Refinement` shows that however a goroutine finishes a message, a
  lost key or a tick nobody interrupts, the effect and the reply are those of the
  sequential methods.
* `Expiry` is about timed runs of the peer table, `OpenUdpProtocol` about UDP requests
  over a lossy network, `SendOverlay` about the client's endpoint.
* `PersistProtocol`, `PersistCodec` and `StateFile` are about the file that keeps a
  host's identity; `EndpointUpdate` and `Routes` about the control server's own node;
  `Forward` (with `Text`), `PathTracker` and `AuthKeys` about port-forward
  specifications, connection paths and auth keys.

## What the model found

* The host can deadlock. It happens exactly when the consumer waits for room in
  `out`, the fan-out that would drain `out` waits for the peer mutex, and a removal
  holds that mutex while waiting for room in `in`. Such a state is reachable, and
  no further event resolves it. Room in either channel rules it out. Left alone, the
  host either comes to rest or ends there; it cannot run on forever.
* A node update that stalls for the whole inactivity timeout between its acceptance
  and its enqueue outlives its session: the engine keeps a peer nobody announces.
  A UDP request that stalls likewise leaks its listener, and the client's call still
  returns nil. Below the timeout neither happens.
* The reaper notifies the lease owner after it releases the mutex. A session ID that
  says Hello again in between loses a port it opened in its new life. Clients draw a
  fresh ID per process, which excludes this.
* An endpoint update without a host description, where one is stored, panics in the
  comparison and stores nothing; so does one with a description but no region, where
  none is stored.
* After a registration that already named a home region the stored home region stays
  unset while the engine repeats that region.
* A stored host description has its routes in another order than the last request's
  exactly when those are not in canonical order and something other than the region
  changed since the registration.
* A local address in a forward specification can only be IPv4, because the
  specification is split at colons first.

## Assumptions

* Messages arrive as sent or not at all; sealing, JSON, base58 and base64 are taken
  to invert. Whether a listen call, a write or a file operation succeeds is an input.
* "Told" means that a send to the session was attempted; a failed send counts, and
  the relay may drop what it took.
* Between two streams the engine forgets the peers it knew. A stream that starts
  with no peers therefore leaves it with none.
* `Timely` runs: an accepted node update or UDP request is acted on less than 120
  seconds after it was read. `HelloOnce` runs: a removed session ID does not say Hello
  again. A theorem that needs one of them says so.
* Request IDs are fresh, as UUIDs are. Different keys have different string forms.

## Model

| member | source | states |
|---|---|---|
| UdpLeases.Host.OpenUdp | internal/transport/host.go:119-140 | the new port table and the outcome are those of `Open`: disabled, unavailable, joined, listen failure or a new listener |
| UdpLeases.Host.CloseUdpSession | internal/transport/host.go:155-165 | the loop over the table ends the session's leases on every port, in whatever order the map is visited, and closes each listener left without a holder |
| UdpLeases.Host.Close | internal/transport/host.go:167-176 | the first call closes every listener and empties the table, later calls change nothing |
| UdpLeases.OpenGrants | internal/transport/host.go:119-140 | an open is granted exactly if forwarding is on, a listener can be had, and the port is open or the listen call succeeds; it adds that one lease and nothing else; a refusal changes nothing and says what stood in the way |
| UdpLeases.OpenBalanced | internal/transport/host.go:132-137 | opening keeps listens minus closes equal to the size of the table |
| UdpLeases.CloseSessionReleases | internal/transport/host.go:158-163 | closing a session ends exactly its own leases |
| UdpLeases.CloseSessionWellformed | internal/transport/host.go:158-163 | afterwards every port still has a holder and an open listener of its own |
| UdpLeases.CloseSessionBalanced | internal/transport/host.go:160-163 | no listener is closed twice and listens minus closes stays the size of the table |
| UdpLeases.CloseAllClosesOnce | internal/transport/host.go:169-175 | after shutdown every listener ever opened has been closed exactly once |
| Sessions.Receive.TrackPeer | overlay/receive.go:363-392 | Goodbye removes and announces a removal only if the session was live; anything but Hello from a session that is not live is refused; otherwise source and time are recorded |
| Sessions.Receive.HandleNextMessage | overlay/receive.go:286-348 | peer table, channel, port table and answer after one uninterrupted message, for every message kind and every error |
| Sessions.PortRequestAnswered | overlay/receive.go:323-344 | a live session's port request is answered under its own request ID and port, without an error exactly if it now holds the port by a granted open, and otherwise with the reason |
| Sessions.Receive.RemoveDerpPeers | overlay/receive.go:404-418 | exactly the sessions last heard from the lost key go, each removal is announced once and its leases end |
| Sessions.Receive.ExpirePeers | overlay/receive.go:420-435 | exactly the sessions silent for the whole timeout go, each removal is announced once and its leases end |
| Sessions.Receive.RemoveAll | overlay/receive.go:407-413 | the deleting loop removes the given sessions, each once, in some order, and announces them in that order |
| Sessions.Receive.NotifyClosed | overlay/receive.go:432-434 | the lease owner is told of each removed session in order |
| PeerStores.PeerStore.Apply | tsserver/server.go:128-136 | a node adds or replaces the session's entry, no node deletes it |
| PeerStores.PeerStore.Snapshot | tsserver/server.go:138-152 | the node of every session once, sorted by ID and then key, whatever order the map is visited in |
| PeerStores.ReplayAppend | tsserver/server.go:206-213 | queueing an update and replaying the queue is replaying and then applying the update |
| PeerStores.SnapshotIds | tsserver/server.go:138-152 | a snapshot shows exactly the IDs stored and is empty only if the store is |
| PeerStores.SnapshotLists | tsserver/server.go:138-152 | a snapshot has one node for each session and no other, IDs ascending and, for equal IDs, keys ascending |
| Orders.LexLeMeans | tsserver/server.go:149 | strings are ordered by prefix and by the first place they differ |
| Streaming.Respond | tsserver/server.go:595-610 | the response lists the snapshot; removals list the known IDs, sorted, only when no peer is left; the known IDs become the snapshot's |
| Streaming.HandleStreaming | tsserver/server.go:561-638 | the responses written answer the initial request and then each event; the stream ends only on cancellation or a failed write; unless a write failed the known IDs equal the engine's view |
| Streaming.UpdateConverges | tsserver/server.go:596-606 | an engine that agrees with the known IDs holds exactly the snapshot's IDs after the response, also on the way to no peers |
| Streaming.KeepAliveNeutral | tsserver/server.go:623-627 | a keep-alive changes nothing the engine believes |
| Streaming.StreamedView | tsserver/server.go:561-627 | after every response of a stream the engine believes exactly the IDs of the latest snapshot |
| Replays.LockingKept | overlay/receive.go:370-435 | every step keeps: the mutex is held exactly while its owner sweeps, neither channel exceeds 8, no empty session ID enters the table or the channel |
| Replays.SettledStep | overlay/receive.go:318-378 | only an enqueued node and a removal change what the queue will make of the store, each for its own session |
| Replays.RefinesKept | overlay/receive.go:286-435 | every step keeps the queue, replayed over the store, equal to the map from sessions to announced nodes, apart from the one update in transit |
| NewestNode.NobodyMissedKept | overlay/receive.go:226-240 | every step keeps each live session told of `lastNode`, a target of the running fan-out, or bound to be sent it in its reply |
| NewestNode.SelfOnItsWayKept | tsserver/server.go:218-221 | every step keeps the node stored last either at or on its way to `lastNode`, or a wake-up for it pending |
| Wakeups.NoLostWakeupKept | tsserver/server.go:213-217 | every step keeps a wake-up pending, raised next or just taken whenever the store moved on since the last snapshot |
| Wakeups.ViewCurrentKept | tsserver/server.go:594-610 | every step keeps known IDs, engine view and last snapshot equal between responses |
| Wakeups.StreamEndsIff | tsserver/server.go:579-637 | a stream ends exactly when it is cancelled or a response cannot be written |
| Leases.LeasesAccountedKept | overlay/receive.go:342-344 | every step keeps each held lease accounted for: granted in the current life and not taken away, leaked, or about to be closed |
| Timeliness.ClockedKept | overlay/receive.go:420-430 | every step keeps: what the reaper is about to remove was silent for the timeout, and what the receive loop works for is live or the timeout has passed |
| Timeliness.TimelyStepFindsSession | overlay/receive.go:318-342 | a timely enqueue or port request acts for a session that is still live |
| Timeliness.NoLateNotificationKept | overlay/receive.go:415-434 | if removed IDs do not say Hello again, no live session is ever about to be notified as closed |
| HostTheorems.InvariantHolds | overlay/receive.go:202-452 | all of these hold in every state any interleaving reaches |
| HostTheorems.EndToEnd | tsserver/server.go:200-224 | at rest the store equals the live sessions' announcements if and only if no node outlived its session, and the engine believes exactly the IDs stored, with no assumption on the run |
| HostTheorems.EngineAgreesWithSessions | tsserver/server.go:561-622 | in timely runs the engine at rest believes exactly the IDs the live sessions announced last |
| HostTheorems.TimelyNeverStale | overlay/receive.go:420-435 | in timely runs no node outlives its session and no listener leaks |
| HostTheorems.NoResurrection | overlay/receive.go:286-318 | a node enqueued less than 120 seconds after its message was read is enqueued for a live session, wherever the reaper came in between |
| HostTheorems.NewestNodeReachesEveryone | overlay/receive.go:226-240 | at every moment each live session was sent the newest node or is bound to be; at rest all were, and it is the node the control server stored last |
| HostTheorems.NodeGoesWhereHeard | overlay/receive.go:230-238 | in every run the fan-out sends a session's copy to a key the relay delivered that session's messages from |
| HostTheorems.ListenerStopsForGood | overlay/receive.go:247-267 | once receiving or replying fails the receive loop takes no further step |
| HostTheorems.WakeupNeverLost | tsserver/server.go:213-217 | although the signal has one slot and is dropped when full, a stream never sleeps on an old snapshot |
| HostTheorems.QueueRefinesMap | overlay/receive.go:363-435 | in every reachable state the replayed queue is the map from live sessions to what each announced since its Hello, plus exactly the stale ones, apart from an update in transit |
| HostTheorems.LeasesFollowSessions | overlay/receive.go:323-344 | with no notification due, the leases held are those live sessions opened in their current life if and only if none leaked and none was taken away; the listener book balances |
| HostTheorems.HelloOnceNeverRobs | overlay/receive.go:432-434 | if removed IDs do not say Hello again, no live session loses a lease |
| HostTheorems.PortOpenIffLeased | overlay/receive.go:323-344 | under both assumptions a port has an open listener if and only if some live session opened it in its current life |
| HostTheorems.ReaperRemovesOnlySilent | overlay/receive.go:420-430 | in no run does the reaper remove a session heard from less than 120 seconds ago |
| Progress.ProgressUnlessDeadlocked | overlay/receive.go:370-378 | goroutines at work can go on if and only if they are not in the one three-way cycle, which needs both channels full |
| Progress.RoomMeansProgress | overlay/receive.go:202-207 | in every reachable state with room in either channel some goroutine at work can step |
| Progress.DeadlockIsForever | tsserver/server.go:203-221 | no event whatsoever leads out of the cycle |
| Progress.EveryStepWorks | overlay/receive.go:223-272 | every step a goroutine takes by itself lessens the work before the four, in a well-founded order: they cannot run on forever |
| Progress.ComesToRest | tsserver/server.go:200-224 | left alone, the host comes to rest, with both channels and the signal empty, or ends in the cycle |
| Scenarios.DeadlockReachable | overlay/receive.go:374-380 | a run that deadlocks |
| Scenarios.StalledUpdateResurrects | overlay/receive.go:316-318 | a run at whose end, at rest and with no live session, the engine believes in a peer |
| Scenarios.StalledRequestLeaks | overlay/receive.go:342-344 | a run after which a port is open with no live session |
| Scenarios.LateNotificationRobs | overlay/receive.go:431-434 | a run after which a live session has lost the port it was granted |
| Refinement.MessageRefines | overlay/receive.go:275-361 | every way the receive loop by itself finishes a message ends with the tables, the channel and the reply of the sequential handler, and changes nothing else; it stops exactly if the reply could not be sent |
| Refinement.KeyGoneRefines | overlay/receive.go:404-418 | every way it finishes a lost key removes exactly that key's sessions, in some order, announces each and ends its leases |
| Refinement.TickRefines | overlay/receive.go:420-435 | every way the reaper finishes a tick removes exactly the silent sessions, in some order, announces each and ends its leases |
| Refinement.SweepRefines | overlay/receive.go:405-417 | every way a sweep that holds the mutex can go removes its victims once each |
| Refinement.MessageCanFinish | overlay/receive.go:275-361 | with room for one update every message can be finished, whatever becomes of a port request |
| Refinement.KeyGoneCanFinish | overlay/receive.go:404-418 | with room for the removals a lost key can be finished in every order of removals |
| Refinement.TickCanFinish | overlay/receive.go:420-435 | likewise a tick |
| Expiry.LiveIffSpared | overlay/receive.go:363-435 | over any timed run of messages, lost keys and ticks a session survives if and only if it was heard from less than 120 seconds before every tick and no key was lost while it was the one last heard from; its record is that of its last accepted message |
| Expiry.SilentSessionRemovedInTime | overlay/receive.go:437-450 | with ticks at most 30 seconds apart a silent session is gone at a tick not before 120 and less than 150 seconds after its last message, and until that tick exactly if its key was lost |
| Expiry.KeepAlivesKeepSession | overlay/send.go:151-180 | with 30-second pings, under 30 seconds of delay variation and any two in a row lost, a session ends if and only if the key it was last heard from is lost |
| OpenUdpProtocol.NilMeansGranted | overlay/send.go:60-100 | if a call returns nil, the host opened that port for that session at an earlier step, on this very request, tracked while the session was live, over a network that drops, delays, repeats and reorders; and the session holds the port until its close is notified |
| OpenUdpProtocol.HeldUntilNotified | internal/transport/host.go:128-164 | a lease lasts through every step but the close notification of its session |
| OpenUdpProtocol.TimelyGrantIsLive | overlay/receive.go:286-342 | a port opened less than 120 seconds after its request was tracked is opened for a live session, wherever the reaper came in between |
| OpenUdpProtocol.OpeningWasTracked | overlay/receive.go:286-342 | the request the host opens a port for was tracked before, from a session live then |
| OpenUdpProtocol.StalledRequestGranted | overlay/receive.go:342-344 | a run in which a call returns nil for a session that is gone, whose lease nobody will end |
| OpenUdpProtocol.TableHoldsInFlightCalls | overlay/send.go:66-76 | the request table holds exactly the calls in flight, each under its own request ID |
| OpenUdpProtocol.InvariantHolds | overlay/send.go:271-288 | in every reachable state every result, wherever it is on its way to a caller, is the host's answer to that caller's own request, and a positive answer follows a grant |
| OpenUdpProtocol.LookupFindsOwner | overlay/send.go:275-280 | the caller found under a response's request ID is the one the response answers: same session, request and port |
| OpenUdpProtocol.OutcomeExplained | overlay/send.go:84-99 | in every run a call that has an outcome was aborted for the reason it returns, or took nil or the very error it returns from its channel |
| OpenUdpProtocol.TakenIsReturned | overlay/send.go:97-98 | what a call took from its channel is what it returns, whatever happens later |
| OpenUdpProtocol.ReturnIsAbortOrAnswer | overlay/send.go:84-99 | every return is an abort's reason or the host's answer to that call's own request: nil for a grant, its error otherwise |
| OpenUdpProtocol.NeverAbortedIsAnswered | overlay/send.go:92-99 | a call never aborted returns what the host answered |
| OpenUdpProtocol.AnswerReaches | overlay/send.go:271-288 | from every reachable state a waiting call can be handed the host's answer, and then returns nil for a grant and that error otherwise |
| OpenUdpProtocol.RefusalReturned | overlay/send.go:97-98 | a run in which a host without forwarding refuses a live session and its call returns that refusal |
| OpenUdpProtocol.FirstAnswerStays | overlay/send.go:285-288 | the first answer that reaches a call's channel is the one it takes; later ones are dropped |
| OpenUdpProtocol.CloseReleasesCalls | overlay/send.go:84-97 | closing a client lets exactly its pending calls go |
| OpenUdpProtocol.RemovalEndsLeases | overlay/receive.go:404-435 | a removed session is not live and, once its close is notified, holds nothing, while the others keep all they hold |
| OpenUdpProtocol.RefusalIsOwnAnswer | overlay/send.go:281-288 | a call that returns a refusal reports what the host answered to that very request |
| OpenUdpProtocol.GrantsHappened | overlay/receive.go:342-344 | every recorded grant is a step of the run that opened that port for that request and after which the session holds it |
| SendOverlay.Send.Register | overlay/send.go:64-71 | a fresh one-slot channel is entered under the request ID |
| SendOverlay.Send.Unregister | overlay/send.go:72-76 | the entry goes, whatever the call returns |
| SendOverlay.Send.HandleOpenUdpResponse | overlay/send.go:257-288 | a response fills the slot of its own request if that is empty, and no other; foreign, unnamed and unknown ones are errors |
| SendOverlay.Send.SetCloseFunc | overlay/send.go:314-323 | stored while open, run at once when already closed |
| SendOverlay.Send.Close | overlay/send.go:327-342 | closes once and runs the stored function once |
| SendOverlay.GoodbyeExactlyOnce | overlay/send.go:314-342 | however closes and set-up interleave, the goodbye runs exactly once if the overlay is ever closed, and never otherwise |
| PersistCodec.CodecInverts | cmd/tsok/persist.go:210-244 | exactly the usable identities are saved, and loading accepts exactly what saving produces |
| PersistCodec.RejectedForFirstFlaw | cmd/tsok/persist.go:124-138 | a record is rejected for the first of its flaws, in the order version, receiver key, overlay key, region |
| PersistProtocol.SingleCreatorOneIdentity | cmd/tsok/persist.go:146-208 | for any number of non-rotating processes, any interleaving, any crashes: at most one creates the file, the path is absent or one complete state, and every serving process has exactly that state |
| PersistProtocol.CreatesOnlyIfAbsent | cmd/tsok/serve.go:87-96 | without rotation a process draws an identity only after it found the path absent |
| PersistProtocol.LoadsAndServes | cmd/tsok/serve.go:87-113 | where the path names an identity, a process without rotation that nothing fails serves with exactly that |
| PersistProtocol.CreatesAndServes | cmd/tsok/serve.go:119-122 | where the path is absent, a process without rotation that nothing fails puts the identity it drew in place and serves with it |
| PersistProtocol.RotatesAndServes | cmd/tsok/serve.go:114-117 | a rotating process that nothing fails replaces the identity, whatever was there, and serves with the new one |
| PersistProtocol.LoserExits | cmd/tsok/persist.go:187-193 | a process that finds the path taken when it links exits and leaves the path and the file alone |
| PersistProtocol.FailureExits | cmd/tsok/persist.go:146-208 | a failing step ends the process, removes its temporary name and leaves the path alone |
| PersistProtocol.CrashLeavesFiles | cmd/tsok/persist.go:146-208 | a crash leaves the directory as it is and ends the process |
| PersistProtocol.ReadersSeeWholeStates | cmd/tsok/persist.go:183-197 | also with rotation, what a process loads or serves was at some moment, in full, what the path named; only crashed processes leave temporary names |
| PersistProtocol.InvariantHolds | cmd/tsok/serve.go:85-125 | published files are complete and never written again, files in preparation have one owner each, and every identity in use was published |
| PersistProtocol.OnePublication | cmd/tsok/persist.go:187-193 | linking publishes at most once in a run without rotation |
| StateFiles.StateFile.Load | cmd/tsok/persist.go:75-144 | absent is no error; otherwise it yields a state exactly if the file is a proper one and its record is the one saving that state writes; each error exactly for its cause |
| StateFiles.StateFile.Save | cmd/tsok/persist.go:146-208 | which file the path names, for every combination of steps that fail: the new one exactly from its publication on, and up to then the old one, each in full; which error is returned; no temporary name is left |
| EndpointUpdate.Control.HandleEndpointUpdate | tsserver/server.go:690-707 | the stored node is that of `Updated`, every stored update raises the node signal, and one that panics changes nothing |
| EndpointUpdate.Control.Register | tsserver/server.go:444-484 | a new node is stored, given field by field, or an expired registration marks the old one offline; the signal is raised either way |
| EndpointUpdate.Control.NotifyUpdate | tsserver/server.go:410-415 | the one-slot signal is pending afterwards |
| EndpointUpdate.OnlyNoChangeIsEmpty | tsserver/server.go:756-764 | a change counts as empty exactly if it changes nothing at all |
| EndpointUpdate.PeerChangeFor | tsserver/server.go:766-807 | the two overlapping tests for a region change amount to one rule |
| EndpointUpdate.ApplyPeerChange | tsserver/server.go:709-754 | the new node field by field, with the region in host description, home region and legacy string alike |
| EndpointUpdate.StoredFields | tsserver/server.go:690-701 | what one update stores, in terms of the request and the node before |
| EndpointUpdate.DescriptionStoredIff | tsserver/server.go:697-700 | one update stores the request's description as it came if and only if it repeats the stored one, but for its region, or its routes are in canonical order |
| EndpointUpdate.PanicsIff | tsserver/server.go:697 | the handler panics if and only if one of stored and requested description is missing and the change supplies none |
| EndpointUpdate.UpdatesConverge | tsserver/server.go:690-807 | after any requests the stored node has the last accepted request's keys, exactly the description `DescriptionAfter` gives, the last endpoints any gave, and a legacy string mirroring the home region |
| EndpointUpdate.LegacyNamesHome | tsserver/server.go:746-750 | after any requests the legacy string is empty where no home region is set, and otherwise is the magic address, a colon and a decimal that spells the home region and no other |
| EndpointUpdate.LegacyDerpReads | tsserver/server.go:750 | the string of any region reads back as that region |
| EndpointUpdate.LegacyDerpTellsRegions | tsserver/server.go:750 | different regions have different strings |
| EndpointUpdate.DescriptionConvergesIff | tsserver/server.go:697-700 | the stored description is the last accepted one if and only if its routes are in canonical order or nothing but the region changed since the registration; otherwise only the order of routes differs |
| EndpointUpdate.AscendingRoutesReordered | tsserver/server.go:821-823 | any two routes in ascending order, announced after a registration without routes, are stored in the other order |
| EndpointUpdate.RoutesReordered | tsserver/server.go:821-823 | an instance |
| EndpointUpdate.UpdateWithoutDescriptionPanics | tsserver/server.go:697 | a run with an update that panics and leaves the registered node |
| EndpointUpdate.HomeRegionStaysUnset | tsserver/server.go:779-800 | a run after which the description names a region and the home region is unset |
| EndpointUpdate.HomeIsLastPreference | tsserver/server.go:779-800 | the home region is the last non-zero preference if and only if the engine did not merely repeat the region it registered with and then give zeros; always, if it registered with none |
| EndpointUpdate.RegistrationConverges | tsserver/server.go:464-481 | both together, from any registration on |
| Routes.ComparePrefixTotal | tsserver/server.go:848-856 | the comparison is a total order that agrees with equality |
| Routes.ComparePrefixMeans | tsserver/server.go:848-856 | prefixes are compared by family, then length, then address |
| Routes.CanonicalOrder | tsserver/server.go:818-823 | in canonical order IPv6 comes before IPv4, longer before shorter, larger before smaller |
| Routes.HostInfoChanged | tsserver/server.go:809-840 | sorts both route lists in place and reports as `HostInfoDelta` says |
| Routes.SortRoutes | tsserver/server.go:818-823 | an in-place sort, largest prefix first |
| Routes.RouteChangeIffMultisetsDiffer | tsserver/server.go:809-840 | for unequal descriptions a route change is reported if and only if the route multisets differ; the stored description differs from the request's at most in the order of its routes |
| Routes.DescriptionKeptIff | tsserver/server.go:809-823 | the comparison leaves the new description as it is if and only if it equals the old one or its routes are in canonical order |
| Forward.PortReadIffSpelt | cmd/tsok/forward.go:415-425 | a port is read exactly from digits, leading zeros allowed, with white space around them, whose value is 1 to 65535; 0 is refused as such and anything else as no number |
| Forward.AddrReadIffCanonical | cmd/tsok/forward.go:444-458 | a local address is read exactly from its canonical four octets |
| Forward.ParsePortRange | cmd/tsok/forward.go:502-523 | the counted range, or the first error; ends also at 65535 |
| Forward.ParseSrcDestPorts | cmd/tsok/forward.go:431-500 | one, two or three parts, the address default, and every error in the order of the source |
| Forward.AppendForwards | cmd/tsok/forward.go:366-384 | appends the forwards of all comma-separated pieces of one network's entries, or gives the first error |
| Forward.RejectRepeats | cmd/tsok/forward.go:402-410 | stops at the first forward that listens where an earlier one does |
| Forward.ParsePortForwards | cmd/tsok/forward.go:363-413 | the TCP forwards and then the UDP forwards, or the first error |
| Forward.LocalNamesTellListenersApart | cmd/tsok/forward.go:403-409 | the strings compared for duplicates are equal exactly for equal network, address and port |
| Forward.AcceptedIffSpelt | cmd/tsok/forward.go:431-500 | a text is accepted with certain mappings if and only if it spells some well-formed form that means them |
| Forward.MeaningInStep | cmd/tsok/forward.go:475-499 | what a form means, mapping by mapping: local ports counted up at its address, remote ports counted up at 127.0.0.1 |
| Forward.SpecYieldsAlignedRuns | cmd/tsok/forward.go:475-499 | a successful parse yields equally long runs of ports from 1 to 65535 at one local address, forwarded in step to 127.0.0.1 |
| Forward.ForwardsIffDistinct | cmd/tsok/forward.go:363-413 | lists parse if and only if every piece does and no local address and port is mapped twice for one network; field by field, the result first listens and dials TCP for the TCP mappings and then UDP for the UDP mappings, in input order |
| Forward.FirstBadPiece | cmd/tsok/forward.go:368-371 | a list that does not parse is refused for its first piece that does not, with that piece's error |
| Forward.ParseInvertsRender | cmd/tsok/forward.go:431-500 | parsing a rendered specification gives its meaning, for every well-formed form |
| Forward.EverySpecHasForm | cmd/tsok/forward.go:431-500 | whatever parses means the same as some well-formed rendered specification |
| Forward.ParseInvertsRenderedLists | cmd/tsok/forward.go:363-413 | parsing rendered lists returns, field by field, the forwards of all forms in order, or reports a repetition exactly if a local address and port is mapped twice for one network |
| PathTracker.PeerConnectionTracker.Update | cmd/tsok/serve.go:298-337 | the tracker holds exactly the paths the status reports; the events are one per peer whose path differs from before, each with that peer's address or short key and reported path, sorted |
| PathTracker.CurrentPathReports | cmd/tsok/serve.go:339-353 | an active peer is on a direct path iff its current address is known, else on a peer relay iff one is known, else on the relay iff that is known, each with that endpoint |
| PathTracker.EventsOrdered | cmd/tsok/serve.go:327-335 | events come by peer, direct before relay before peer relay, then by endpoint |
| PathTracker.ChangedMeans | cmd/tsok/serve.go:303-311 | a peer changed exactly if the status reports a path for it that was not tracked |
| PathTracker.ActivePathKnown | cmd/tsok/serve.go:339-353 | a peer has a path exactly if it is active and some address is known, and a path is never the zero value |
| PathTracker.AnnouncementUnique | cmd/tsok/serve.go:327-336 | the events are determined, whatever the map order and the sort algorithm |
| PathTracker.Monitor | cmd/tsok/serve.go:355-370 | over any sequence of ticks, failed queries included, each status obtained announces, sorted, exactly the peers whose path is not the one they had in the status before |
| PathTracker.NewlyReported | cmd/tsok/serve.go:308-320 | the events of a status are one for each newly connected peer, with the path reported for it |
| PathTracker.NewlyConnectedMeans | cmd/tsok/serve.go:303-311 | newly connected means that some path is reported now that was not in the status before |
| PathTracker.ReannouncedOnlyAfterChange | cmd/tsok/serve.go:303-325 | a path is announced again only after the peer was away, inactive or on another path |
| AuthKeys.ClientAuth.AuthKey | overlay/auth.go:53-75 | the bytes written are the encoding of the fields |
| AuthKeys.ClientAuth.Parse | overlay/auth.go:83-158 | accepts exactly the auth keys and takes over their fields; a failure leaves the receiver as it was and names the first thing wrong, by position |
| AuthKeys.ParseInvertsAuthKey | overlay/auth.go:53-158 | an encoded auth has 69 bytes, decodes to itself, and is accepted exactly if the auth is valid |
| AuthKeys.WireLayout | overlay/auth.go:56-73 | the 69 bytes of an encoded auth, position by position |
| AuthKeys.FlawlessIffAuthKey | overlay/auth.go:83-154 | the strings nothing is wrong with are exactly the auth keys |
| AuthKeys.ReencodingNormalisesVersion | overlay/auth.go:53-158 | re-encoding a parsed key changes nothing but the version byte |
| AuthKeys.SameMeaning | overlay/auth.go:94-96 | two keys mean the same exactly if they agree after the version byte |
| AuthKeys.NoPrefixNoExtension | overlay/auth.go:132-154 | no proper prefix and no proper extension of an auth key is one |

## Left out

- Sealing, JSON, zstd, Noise, HTTP and request routing: messages are values.
- tsnet, the WireGuard engine, relay clients and network checks: only sends, receipts
  and the relay's report that a key is gone are kept; the engine is the rule by which
  it treats a map response.
- base58, base64, UUIDs, `netip` formatting, key conversion and time zones: assumed to
  invert, to be fresh or to be injective.
- IPv6 local addresses in forward specifications: no text that reaches the address
  parser can be one.
- Sessions.Receive.HandleNextMessage: a full channel does not block it; blocking is in
  the step system, and `Refinement` relates the two.
- HostTheorems.NewestNodeReachesEveryone: says that the newest node is sent, not that
  it is the last one to arrive; replies and the fan-out are unordered in the source.
- HostTheorems.WakeupNeverLost: is about one stream at a time; several streams on one
  connection share the signal.
- HostTheorems.LeasesFollowSessions: covers runs before the host is closed; opening a
  port does not look at whether the host is closed.
- EndpointUpdate.Control.HandleEndpointUpdate: runs without interruption; two requests
  at once can overwrite each other's node in the source. Nil and empty slices are one.
- PersistProtocol.ReadersSeeWholeStates: permission bits, symbolic links, size limits
  and loss of power are not part of the file system model.
- AuthKeys.ClientAuth.Parse: starts after base58 decoding; the empty text and text that
  decodes to nothing are one case.
- StateFiles.StateFile.Save: its deferred removal of the temporary name is taken to
  succeed; creating the directory and changing the mode count as creating the file.
- StateFiles.StateFile.Load: whether the file can be read and is regular, private and
  small enough is one input.
- PathTracker.Monitor: the ticker and the cancellation of its loop are left out.
- Context cancellation other than of a UDP call, a stream and a write; the client's
  receive loop outside UDP responses and shutdown.
- `Connect`, `StartHost`, `waitForPeer` and `WaitDirect`: polling and wiring.
- Stream and datagram copying, the shell, file copy, self-update, user interface and
  logging.
