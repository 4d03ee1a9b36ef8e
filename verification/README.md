# mqvpn: models and proofs

A Dafny model of the parts of mqvpn (a multipath QUIC VPN with an HTTP/3 to h2c
proxy) whose correctness is about whole runs, and proofs of what those runs keep.

- **The response relay** (`relay*.dfy`, `response_order.dfy`, `proxy*.dfy`). A backend delivers
  header blocks and DATA over HTTP/2; HTTP/3 accepts any prefix of what it is offered, or nothing, at
  any point. The relay is proved lossless, ordered, free of lost wakeups and exact in its flow-control
  credit, over every run of backend frames, transport answers, write notifications and ticks; what a
  response was delivered is read off the events. The rotation among the responses of a QUIC connection
  is proved strictly fair, every turn drains the response whose turn it is, and none starves while the
  unsent-byte valve is open.
- **The client's path table** (`path_*.dfy`, `client_paths.dfy`). Many slots, each with a transport the
  platform owns and at most one QUIC path: transports are finalised exactly once, path ids name one
  slot each, telemetry is conserved; and in every run each slot behaves as the repository's TLA+ model
  of it allows (`path_oracle.dfy`, `path_refinement.dfy`).
- **The connection lifecycle** (`lifecycle*.dfy`, `client_lifecycle.dfy`). A call carries the calls the
  embedder makes from each callback it fires, so runs include re-entrancy to any depth. A lost connection
  comes back, and what each event does first holds whatever the callbacks do.
- **The tunnel outcome** (`tunnel_latch.dfy`), **capsules** (`capsule*.dfy`),
  **ICMP errors and checksums** (`checksum.dfy`, `icmp.dfy`), **the TLC value parser** (`tla_*.dfy`),
  **the address pool** (`addr_pool.dfy`), **the flow hash** (`flow_hash.dfy`) and **the process clock**
  (`clock.dfy`).

Each part has specification functions on values, whose steps take everything the outside decides
(transport answers, xquic's path ids, clock readings, results of connection attempts) as arguments; a
class or methods in the source's own imperative form, proved to take exactly those steps; and theorems
over every run of the steps. `moves`, `received`, `sent`, `finalized`, `readings` and the like are
history that only the statements use.

Some properties one would expect do not hold of the code. Each has the exact
condition under which it holds, and a run that shows it failing:

| expected | run | holds exactly when |
|---|---|---|
| a response never breaks HTTP/3 message order | `BareFinRun` | no refused 502 is later ended (`ResponseOrdered`) |
| a cleanly closed stream completes | `CutOffRun` | END_STREAM had arrived (`CleanCloseCompletes`) |
| all connection credit is returned | `LateDataRun` | no DATA arrives for a stream its connection has lost (`ConnectionCreditExact`) |
| a rotation cursor names a listed stream | `StaleCursorRun` | no request is closed whose stream another group's cursor is on (`ListedOverRuns`) |
| every state change is in the table | `HangupRun` | no disconnect from the path_event that precedes the announcement (`TransitionsLegal`, `AnnouncementLegalExactly`) |
| tunnel_ok and tunnel_notified exclude each other | `LateRejection` | no certificate rejected after a 200 (`ExclusiveExactly`) |
| the IPv4 pool stays in its subnet | `UnalignedLeaves` | the base leaves room (`PoolInSubnetExactly`) |
| offset6 answers 0 out of range | `Offset6OutOfRange` | the address is not above the pool (`Offset6Exactly`) |
| every slot behaves as its TLA+ model | `ClockZeroRun` | the clock never reads zero at a validation or stability confirmation (`RefinesOverRuns`) |
| all readings share one clock | `ZeroParts` | none of their threads published a computed zero, or all did (`PartExactly`) |

Where code and documentation disagree the model follows the code: `src/addr_pool.h:53` promises 0 from
`mqvpn_addr_pool_offset6` for an address out of range, the code has no upper bound; the comment at
`src/mqvpn_client.c:1413` says every caller of `cli_signal_connect_fail` excludes `tunnel_ok`, the
certificate rejection at `src/mqvpn_client.c:1296-1301` does not (the assertion there is absent from release
builds, and the model continues past it as they do). For that run to happen xquic has to deliver a
certificate rejection after a header section; if it judges every certificate in the handshake, before any
response, the two flags do exclude each other (`EarlyRejectionsExclusive`). `src/mqvpn_client.c:476-481` asserts that transitions
are legal, with the exception above.

## Model

| member | source | states |
|---|---|---|
| `ResponseOrder.OrderedPositions` | src/h2_proxy.c:1006-1096 | What order means position by position: a body byte has a final header block before it and no trailers before it, and FIN is the last token |
| `ResponseOrder.EndedIsLast` | src/h2_proxy.c:1087-1096 | Nothing may follow a FIN without breaking the order |
| `ResponseOrder.PrefixIsOrdered` | src/h2_proxy.c:995-1104 | Every prefix of an ordered response is ordered, and a proper prefix has not ended |
| `Relay.BufferAppend` | src/h2_proxy.c:335-355 | Compaction and append keep the unread bytes in order; the append is refused exactly when unread plus new bytes exceed the limit, and then changes nothing |
| `Relay.SendBody` | src/h2_proxy.c:1037-1067 | The slice loop has the effect of offering the body until it is gone or declined |
| `Relay.FlushResponse` | src/h2_proxy.c:995-1104 | The in-place flush has exactly the effect of the flush whose losslessness, order, credit and wakeup are proved, for every sequence of transport answers |
| `Relay.CollectHeaders` | src/h2_proxy.c:357-407 | The header loop accepts and rejects exactly the blocks the specification does |
| `RelayHeaders.CollectsExactly` | src/h2_proxy.c:674-698 | On the fields as sent: a block is accepted if and only if its only pseudo-field is a status from 100 to 599 other than 101, trailers have none, and what crosses is at most 256 fields of 32768 bytes; the collected block is then exactly the fields sent, in order, without the connection-specific ones |
| `RelayHeaders.CrossesExactly` | src/h2_proxy.c:911-922 | A field crosses if and only if it was sent and is not on the list of connection-specific fields, written out |
| `RelayHeaders.HeadersRelayed` | src/h2_proxy.c:656-741 | A HEADERS frame that is not acceptable, has no status where one is due, or ends the stream with an interim response fails; any other delivers exactly its forwarded fields and its end of stream |
| `RelayUptake.FlushTakesExactly` | src/h2_proxy.c:1037-1067 | A flush hands HTTP/3 exactly the bytes its answers say it takes, counted on the answers alone, in order; the rest stays buffered |
| `RelayProofs.FlushKeeps` | src/h2_proxy.c:995-1104 | Whatever HTTP/3 answers, a flush keeps accepted + pending = delivered, keeps the credit account, and on return has either armed the write notification or nothing left to send; a failed flush leaves a prefix |
| `RelayProofs.NothingAfterFin` | src/h2_proxy.c:1069-1096 | Once FIN was accepted nothing is pending or buffered |
| `RelayInvariant.TurnKeeps` | src/h2_proxy.c:572-596 | A turn of the rotation keeps the whole per-response invariant in each of its four fates |
| `RelayCallbacks.OnHeadersKeeps` | src/h2_proxy.c:656-698 | HEADERS in the order of section 8.1 of RFC 9113 keep the invariant, and a failure leaves a stream backend_destroy can recover |
| `RelayCallbacks.OnChunkKeeps` | src/h2_proxy.c:700-718 | DATA keeps order, credit and the buffer bound; overflow is reported and leaves a prefix |
| `RelayCallbacks.OnDataEndKeeps` | src/h2_proxy.c:720-741 | END_STREAM keeps the invariant |
| `RelayCallbacks.OnStreamCloseKeeps` | src/h2_proxy.c:743-767 | A stream close, with or without error, keeps the invariant |
| `RelayCallbacks.BackendGoneKeeps` | src/h2_proxy.c:857-902 | Losing the backend turns an unanswered response into the 502 or a refused one, and a started one into a closed one, within the invariant |
| `ProxyEffects.ResetCloses` | src/h2_proxy.c:743-767 | A stream reset with an error: a response without FIN is closed, its buffer is emptied, it leaves its backend, nothing more is sent, and no other response changes |
| `ProxyEffects.LossAnswers` | src/h2_proxy.c:857-902 | A lost connection: each of its responses is detached, emptied and unarmed; one not started is answered 502 if and only if HTTP/3 takes it, one cut off is closed, a finished one kept; other responses do not change |
| `RelayProgress.DrainsInOneTurn` | src/h2_proxy.c:995-1104 | There is no per-turn quota: a transport that takes everything gets the whole response, FIN included, in one turn |
| `RelayProgress.CleanCloseCompletes` | src/h2_proxy.c:743-767 | After a close without error some sequence of turns and transport answers ends the response if and only if END_STREAM had arrived, and no frame is admitted on it any more: RST_STREAM(NO_ERROR) before END_STREAM strands it for good |
| `RelayProgress.RefusedCompletes` | src/h2_proxy.c:842-902 | After a refused 502 some sequence of turns and transport answers ends the response if and only if END_STREAM had arrived; otherwise none ever sends anything on it |
| `RelayProgress.ArmedExactlyWhileWorking` | src/h2_proxy.c:527-540 | After a flush the notification of an unfinished response is armed if and only if it has work left |
| `RelayProgress.FinishedStaysArmed` | src/h2_proxy.c:572-596 | A finished response armed by the valve stays armed although it has no work |
| `RelayProgress.AppendRefusesExactly` | src/h2_proxy.c:335-355 | DATA is refused if and only if it overruns the granted credit beyond the limit; a peer within a 65535-byte window is never refused when the limit is at least that |
| `ProxyPopulation.StepKeeps` | src/h2_proxy.c:409-1319 | Every event keeps the population invariants and the invariant of every listed response |
| `ProxyPopulation.RunKeeps` | src/h2_proxy.c:409-1319 | So does every run, for every configuration and every transport |
| `ProxyPopulation.EvictKeeps` | src/h2_proxy.c:1311-1319 | Idle eviction leaves every stream and group exactly as it was, and keeps the invariant |
| `ProxyTheorems.ResponseRelayed` | src/h2_proxy.c:995-1104 | Over every run: bytes accepted then bytes buffered are the bytes delivered; with no work left everything was accepted; after a failure what was accepted is still a prefix |
| `ProxyDelivery.StepDelivers` | src/h2_proxy.c:656-741 | Every event delivers to every relayed response exactly what it brings for that stream on its connection: forwarded fields, bytes, end of stream, or nothing |
| `ProxyDelivery.DeliveredIsRelayed` | src/h2_proxy.c:656-1104 | Over every run, for every response still relayed: what HTTP/3 accepted followed by what the proxy holds is what the frames of the run brought for that stream, read off the events; with no work left HTTP/3 accepted all of it |
| `ProxyTheorems.ResponseOrdered` | src/h2_proxy.c:656-1104 | Over every run HTTP/3 sees a well-ordered response, except exactly after a refused 502 that was later ended; FIN only after everything delivered was accepted |
| `ProxyTheorems.NoLostWakeup` | src/h2_proxy.c:527-540 | Over every run blocked and armed agree, and a response with work left is armed unless its request was closed or its 502 refused |
| `ProxyTheorems.CreditConserved` | src/h2_proxy.c:598-612 | Over every run: received = credited + withheld, withheld = buffered, and buffered is within the limit |
| `ProxyCredit.StepCredits` | src/h2_proxy.c:700-718 | An event returns on a connection exactly the bytes of DATA that arrived on it for a stream it still has, or the connection is lost; a new connection has an id never used and nothing returned on it |
| `ProxyCredit.ConnectionCreditExact` | src/h2_proxy.c:700-718 | Over every run, on every connection: the credit returned is at most the DATA bytes that arrived, counted off the events, and is all of them if and only if no nonempty DATA arrived for a stream the connection no longer had |
| `ProxyTheorems.PopulationBounded` | src/h2_proxy.c:409-494 | Over every run stream, connection and group counts are exact and within the limits, group keys are distinct, empty groups are gone |
| `ProxyTheorems.FairTurns` | src/h2_proxy.c:542-596 | While no stream comes or goes, any n consecutive turns of a group of n are each member exactly once, and the next turn repeats the first |
| `ProxyService.RoundIsLap` | src/h2_proxy.c:572-596 | A round gives turns until the unsent-byte valve closes, not one fewer or more; if it stays open the round is each member exactly once |
| `ProxyService.TickServesAll` | src/h2_proxy.c:1296-1310 | Nobody starves: a tick whose valve stays open gives every stream of the proxy exactly one turn |
| `ProxyDrain.RoundDrains` | src/h2_proxy.c:572-596 | The member whose turn is the k-th of a round is drained with the answers HTTP/3 gives in that turn; a stream without a turn keeps everything but its write notification; streams of other groups do not change |
| `ProxyDrain.WritableDrains` | src/h2_proxy.c:1197-1213 | The same of a write notification, which serves the group of its stream |
| `ProxyDrain.TickDrains` | src/h2_proxy.c:1296-1310 | The same of a tick, every stream being served by the round of its own group |
| `ProxyDrain.GenerousTickRelaysAll` | src/h2_proxy.c:1296-1310 | After one tick with an open valve and a transport that takes what it is offered, every relayed response has been handed over completely |
| `ProxyRotation.RotationOverRuns` | src/h2_proxy.c:542-596 | Over every such run, ticks and valve stops included, the turns of a group are one stretch of one cyclic order starting at its cursor |
| `ProxyRotation.StrictRotation` | src/h2_proxy.c:542-596 | Within such a stretch, between two turns of a stream every other stream has exactly one |
| `ProxyService.ValveGoesFirst` | src/h2_proxy.c:572-596 | After a round cut short by the valve, whatever happens that neither adds nor removes a stream nor gives the group a turn, the next round begins with the stream that was stopped: the next in cyclic order, which had no turn in the round cut short |
| `ProxyFindings.BareFinRun` | src/h2_proxy.c:842-902 | A run after which HTTP/3 saw a FIN and no headers |
| `ProxyFindings.CutOffRun` | src/h2_proxy.c:743-767 | A run after which a response has its headers and is open, idle and unarmed, and no turn ever ends it |
| `ProxyFindings.LateDataRun` | src/h2_proxy.c:700-718 | A run after which one byte of DATA arrived on a connection and none of its credit was returned |
| `ProxyCursor.CursorsListedExactly` | src/h2_proxy.c:453-494 | Destroying a stream leaves all cursors on listed streams if and only if no other group had its cursor on it |
| `ProxyCursor.ListedOverRuns` | src/h2_proxy.c:409-1319 | Over every run the cursors stay on listed streams if and only if no request is closed whose stream another group's cursor is on: no other event can break it |
| `ProxyFindings.StaleCursorRun` | src/h2_proxy.c:453-494 | A run after which a group has its cursor on a stream that is gone |
| `H2Proxy.Proxy.constructor` | src/h2_proxy.c:1106-1139 | A new proxy is in the initial state of the step system |
| `H2Proxy.Proxy.StreamCreate` | src/h2_proxy.c:419-451 | The new stream heads the list and joins or founds its group, nothing else changing |
| `H2Proxy.Proxy.StreamDestroy` | src/h2_proxy.c:453-494 | The stream leaves list, connection count and group; a cursor on it moves to its successor; an emptied group goes |
| `H2Proxy.Proxy.BackendDestroy` | src/h2_proxy.c:857-902 | The connection leaves and each of its streams is answered or closed, all others untouched |
| `H2Proxy.Proxy.RunRound` | src/h2_proxy.c:572-596 | The round loop has the effect, and gives the turns, of the round RoundDrains is about |
| `H2Proxy.Proxy.TickAt` | src/h2_proxy.c:1296-1320 | A tick is one round per group and the idle eviction |
| `H2Proxy.Proxy.EvictIdle` | src/h2_proxy.c:1311-1319 | Eviction removes exactly the idle connections without streams |
| `ProxyEffects.TickLeavesExactly` | src/h2_proxy.c:1311-1319 | A tick leaves a connection if and only if some stream is attached to it or it was active within the timeout |
| `ProxyEffects.TickOpensNone` | src/h2_proxy.c:1311-1319 | A tick opens no connection |
| `ProxyEffects.ActivityCounts` | src/h2_proxy.c:1241-1294 | Traffic sets the time of its own connection and nothing else |
| `H2Proxy.Proxy.OnWritable` | src/h2_proxy.c:1197-1213 | A write notification gives its group one round |
| `H2Proxy.Proxy.OnRequestClose` | src/h2_proxy.c:1215-1229 | Closing destroys exactly that stream |
| `ProxyEffects.CloseRemoves` | src/h2_proxy.c:1215-1229 | A closed request is no longer listed; the others keep their records and their order |
| `H2Proxy.Proxy.HandleRequest` | src/h2_proxy.c:1141-1177 | A request is served if and only if some connection has room or one may be and is opened, and nghttp2 takes it; one that is not is told 502 once, if HTTP/3 takes that, and leaves the streams as they were |
| `ProxyEffects.RequestAttaches` | src/h2_proxy.c:833-840 | A served request is attached, with a fresh record, to the first connection with room, or to a new one if there is none and the limit allows |
| `ProxyEffects.DefaultsApply` | src/h2_proxy.c:1118-1127 | Settings of zero become 16 connections, 100 streams, 60 seconds and 1 MiB; others are kept; a new proxy is empty |
| `H2Proxy.Proxy.OnHeaders` | src/h2_proxy.c:656-698 | The header callbacks take the specified step |
| `H2Proxy.Proxy.OnDataChunk` | src/h2_proxy.c:700-718 | The DATA callback takes the specified step, credit accounting included |
| `H2Proxy.Proxy.OnDataEnd` | src/h2_proxy.c:720-741 | The END_STREAM callback takes the specified step |
| `H2Proxy.Proxy.OnStreamClose` | src/h2_proxy.c:743-767 | The stream-close callback takes the specified step |
| `H2Proxy.Proxy.NeedsTick` | src/h2_proxy.c:1322-1334 | True if and only if some listed response has work left |
| `PathFsm.RecreateBackoff` | src/path_state_machine.c:330-338 | The doubling loop computes 5 s doubled per failure after the first, at most 60 s, for any counter value |
| `PathFsm.EventKeepsLegal` | src/path_state_machine.c:407-694 | Every event keeps the per-state field constraints and the transport ownership of a slot |
| `PathFsm.FreeIsQuiescent` | src/path_state_machine.c:686-694 | A slot becomes free only with nothing owed and nothing bound, and no event but ADD leaves that state |
| `PathFsm.RefusalsClose` | src/path_state_machine.c:365-382 | A waiting slot stays armed while retries are left and the last refusal closes it, recoverable: it always escapes |
| `PathTheorems.WaitingHasRetriesLeft` | src/path_state_machine.c:365-382 | Over every run a slot that waits to try again has its timer armed, failed at least once and fewer than six times since its last reset or stable period |
| `PathFsm.FreedExactly` | src/path_state_machine.c:684-694 | A dropped slot becomes free if and only if both its transport was released and its path is gone, in either order |
| `PathOracle.EventRefines` | formal/PathSlotFsm.tla:88-210 | Every event of the code, on every slot, with real timers and an unbounded counter, refines the TLA+ description in slot and in how each field is updated; except exactly a validation at clock zero |
| `PathOracle.StableRefines` | formal/PathSlotFsm.tla:184-189 | So does the stability tick, except exactly when it confirms at clock zero |
| `PathRefinement.StepNext` | formal/MqvpnPathSlot.tla:105-114 | Every operation of the table, whatever the table, makes in every slot a step of the TLA+ slot (an event handler, the bootstrap, reuse, or none) if and only if the clock does not read zero at a validation or stability confirmation |
| `PathRefinement.RefinesOverRuns` | formal/MqvpnPathSlot.tla:453-470 | In every run every slot's states form a behaviour of the TLA+ model, bootstrap and reuse included, if and only if the clock never reads zero at such a point |
| `PathRefinement.ClockZeroRun` | src/path_state_machine.c:701-713 | A run after which a path is ACTIVE and is never confirmed stable |
| `PathOracle.LegalRefines` | formal/PathSlotFsm.tla:68-84 | The constraints the code asserts are those of the TLA+ description |
| `PathSafety.StepKeeps` | src/mqvpn_client.c:2583-4381 | Every operation on the table keeps the invariant over all slots |
| `PathSafety.RunKeeps` | src/mqvpn_client.c:2583-4381 | So does every run, with platform calls between the slots of a pass |
| `PathTheorems.FinalizedOnce` | src/mqvpn_client.c:956-979 | Over every run, late and repeated calls included: an issued handle was finalised at most once, exactly if no slot owes it a release, and after destroy exactly once; no other handle ever was |
| `PathTheorems.HistoryGrows` | src/mqvpn_client.c:956-979 | A finalisation is never taken back |
| `PathTheorems.FinalizedOnlyAfterDrop` | src/mqvpn_client.c:3681-3705 | Short of destroy a transport is finalised only on its own release notification, after a drop or removal |
| `PathTheorems.RecycledOnlyWhenSettled` | src/mqvpn_client.c:3556-3572 | A slot is reused only when its transport was finalised and it has no xquic path; the new handle was never used, other slots are untouched |
| `PathTheorems.SettledHandleHarmless` | src/mqvpn_client.c:3625-3764 | Drop, remove, release and reactivate on a finalised or never issued handle change nothing |
| `PathTheorems.AliveExactly` | src/mqvpn_client.c:528-537 | While connected, xquic has exactly the live slots' path ids (and an unowned path 0 only when started with an empty table), and no two slots share one |
| `PathTheorems.RemovalReachesOwner` | src/mqvpn_client.c:2845-2863 | A removal notification takes the path from the one slot that owns it and changes no other slot |
| `PathTheorems.TelemetryConserved` | src/mqvpn_client.c:956-1015 | What the transports counted = harvested + unreadable + still held, over every run; nothing is held after destroy |
| `PathTheorems.StartsClean` | src/mqvpn_client.c:1033-1044 | Every connection attempt starts with each attached slot PENDING and no slot bound or armed |
| `PathEffects.AddGives` | src/mqvpn_client.c:3556-3601 | An added path has the first free slot, or a new one: attached, owed a release, PENDING, unbound, with no timer and no failure; refused only with eight slots taken |
| `PathEffects.DropDetaches` | src/mqvpn_client.c:3641-3677 | Dropping or removing a path still owed its release leaves its slot CLOSED_DROPPED, detached, with no timer armed, handle, transport and path binding kept; nothing else in the table changes |
| `PathEffects.ReleaseFinalizes` | src/mqvpn_client.c:3681-3705 | Releasing a dropped path finalises it at once: handle recorded, counter harvested or booked as unread, slot free if and only if it has no xquic path; releasing one that was not dropped changes nothing |
| `PathEffects.RetryTries` | src/mqvpn_client.c:4280-4300 | A retry is made if and only if it is due on an established multipath connection; xquic's answer leaves the slot validating with the new path, waiting 5 s doubled per earlier failure (at most 60 s), or closed at the sixth failure or a permanent one |
| `PathEffects.ActivationTries` | src/mqvpn_client.c:2603-2637 | The same for a PENDING slot once multipath is ready and nothing holds extra paths back |
| `PathEffects.ReactivationTries` | src/mqvpn_client.c:3728-3764 | The platform's attempt gives a waiting or closed slot the path xquic grants, and leaves state, timer and failures alone if it grants none |
| `PathEffects.ValidationPromotes` | src/mqvpn_client.c:4317-4361 | A validated path is ACTIVE or STANDBY with its stability clock started; no other slot is promoted |
| `PathEffects.RemovalFails` | src/mqvpn_client.c:2845-2863 | A removed path leaves its slot waiting, or closed at the sixth failure; a dropped slot unbound, and free if it was released; nothing else changes |
| `PathEffects.StabilityForgives` | src/path_state_machine.c:701-713 | A live path's failures are forgiven if and only if it has been stable for 30 s in unsigned 64-bit time |
| `PathEffects.StartBinds` | src/mqvpn_client.c:2954-3059 | A start binds path 0 to the primary, or is refused exactly when the primary has no transport or xquic gives no connection |
| `PathEffects.ResetClears` | src/mqvpn_client.c:1018-1031 | A reset leaves an attached slot PENDING, unbound and without timers or failures; a dropped one unbound, and free if it was released |
| `PathEffects.PhaseMoves` | src/mqvpn_client.c:1033-1044 | What connection events do to the phase, the flags and the primary, and nothing else |
| `PathEffects.SentCounts` | src/mqvpn_client.c:999-1015 | Traffic is counted by its transport and in the total |
| `PathTheorems.NextPrimaryFirst` | src/mqvpn_client.c:599-614 | The next primary is the first candidate in cyclic order after the current one, or the current one if there is none |
| `PathTheorems.RotationMoves` | src/mqvpn_client.c:1043-1043 | A reset keeps the primary if and only if no other slot could take over |
| `ClientPaths.Paths.FindByHandle` | src/mqvpn_client.c:540-547 | The scan finds the first slot with the handle, or none |
| `ClientPaths.Paths.FindByPathId` | src/mqvpn_client.c:528-537 | The scan finds the first slot bound to the path id, or none |
| `ClientPaths.Paths.NextPrimaryIdx` | src/mqvpn_client.c:599-614 | The do-while scan stops after one lap and returns the specified slot |
| `ClientPaths.Paths.FinalizeTransport` | src/mqvpn_client.c:961-979 | Clears the slot and books the harvest; nothing else |
| `ClientPaths.Paths.TxTotals` | src/mqvpn_client.c:999-1015 | If every counter can be read, the total plus what was unreadable earlier is everything the transports counted |
| `ClientPaths.Paths.ActivatePending` | src/mqvpn_client.c:2626-2637 | One pass is one activation step per slot in slot order |
| `ClientPaths.Paths.AddPath` | src/mqvpn_client.c:3501-3611 | Fails exactly when eight slots are taken; else issues the next handle, keeps the invariant, and reports a transient or permanent failure if and only if activation was attempted at once and xquic gave that answer for the new slot |
| `ClientPaths.Paths.DropPath` | src/mqvpn_client.c:3653-3679 | Performs the drop DropDetaches is about; refuses exactly unknown handles |
| `ClientPaths.Paths.RemovePath` | src/mqvpn_client.c:3625-3643 | Performs the removal DropDetaches is about; refuses exactly unknown handles |
| `ClientPaths.Paths.OnReleased` | src/mqvpn_client.c:3681-3705 | Takes the specified step; refused exactly for unknown handles and for slots not dropped first |
| `ClientPaths.Paths.ReactivatePath` | src/mqvpn_client.c:3728-3764 | Succeeds exactly when an eligible slot of an established connection was given a path |
| `ClientPaths.Paths.OnPathRemoved` | src/mqvpn_client.c:2845-2863 | The lookup by path id and the removal event are the step RemovalReachesOwner is about |
| `ClientPaths.Paths.ResetPaths` | src/mqvpn_client.c:1033-1044 | The reset loop is the run begin, one reset per slot, end; the invariant is kept |
| `ClientPaths.Paths.StartConnection` | src/mqvpn_client.c:2954-3059 | Refused exactly when the primary has no transport or xquic refuses; else path 0 belongs to the primary |
| `ClientPaths.Paths.RecoverSlot` | src/mqvpn_client.c:4279-4381 | Retry and stability check of a slot are the two specified steps |
| `ClientPaths.Paths.DestroyTable` | src/mqvpn_client.c:3334-3337 | The teardown loop finalises exactly the transports still owed |
| `LifecycleSafety.CallsKeep` | src/mqvpn_client.c:474-488 | Any sequence of calls, with calls made from inside its callbacks to any depth, keeps the lifecycle invariant |
| `LifecycleSafety.FencedCalls` | src/mqvpn_client.c:3341-3432 | While a connect transaction is under way no re-entrant call changes anything |
| `LifecycleSafety.AnnouncingCalls` | src/mqvpn_client.c:2225-2237 | While the tunnel response is announced a re-entrant call has an effect if and only if it disconnects |
| `LifecycleTheorems.TransitionsLegal` | src/mqvpn_client.c:337-354 | Every state change of a run is in the table except exactly those announcing a tunnel after a disconnect made from the path_event before it; those, and only those, leave CLOSED |
| `LifecycleTheorems.EveryCallSeesSane` | src/mqvpn_client.c:3341-3480 | No call, from whatever callback, finds an IDLE or RECONNECTING client with a connection, or a RECONNECTING one without an armed timer outside a connect transaction |
| `LifecycleTheorems.ClosedIsFinal` | src/mqvpn_client.c:346-346 | From every reachable CLOSED state no state change follows, whatever is called, whatever those calls' callbacks call and whatever xquic still delivers |
| `LifecycleTheorems.AnnouncementLegalExactly` | src/mqvpn_client.c:2225-2237 | Announcing the tunnel is legal if and only if the path_event before it was not answered with a disconnect |
| `LifecycleTheorems.HangupRun` | src/mqvpn_client.c:2225-2237 | A run that leaves CLOSED for TUNNEL_READY |
| `LifecycleTheorems.TickAttempts` | src/mqvpn_client.c:4385-4418 | The tick that reaches the timer makes the attempt: what remains of it is what callbacks and the engine pass do with a client that is CONNECTING with a new connection, or RECONNECTING and armed for at most 60 s later |
| `LifecycleTheorems.NeverStranded` | src/mqvpn_client.c:4385-4418 | Whatever the callbacks call and xquic delivers: that tick's first state change is RECONNECTING to CONNECTING, or the timer is armed again; and a tick that ends RECONNECTING ends armed |
| `LifecycleTheorems.DisconnectCloses` | src/mqvpn_client.c:3434-3480 | After disconnect, made from any callback outside a connect transaction and whatever its own callback calls, the client is CLOSED and xquic was told to close any connection left |
| `LifecycleEffects.LossLeads` | src/mqvpn_client.c:1443-1473 | A lost connection leads, before any callback and whatever the callbacks do, from every state to RECONNECTING with the timer armed one delay ahead if the client retries, and otherwise to CLOSED, where it stays |
| `LifecycleEffects.LossComesBack` | src/mqvpn_client.c:1462-1468 | The first tick at or after that time starts a connection |
| `LifecycleEffects.LifeRun` | src/mqvpn_client.c:337-354 | A run through every state that loses its connection and is CONNECTING again five seconds later, for every time of the loss |
| `LifecycleEffects.ConnectStarts` | src/mqvpn_client.c:3341-3432 | A connect that gets a connection goes to CONNECTING first, with a fresh connection and the handshake clock set |
| `LifecycleEffects.ConnectRefused` | src/mqvpn_client.c:3341-3432 | One that gets none leaves an IDLE client as it is and a RECONNECTING one waiting one delay more |
| `LifecycleEffects.HandshakeMoves` | src/mqvpn_client.c:1376-1383 | The end of the handshake goes to AUTHENTICATING and stops the handshake clock |
| `LifecycleEffects.AddressAnnounces` | src/mqvpn_client.c:2220-2250 | An assigned address goes to TUNNEL_READY and forgives earlier attempts, unless the path_event before it was answered with a disconnect |
| `LifecycleEffects.TunEstablishes` | src/mqvpn_client.c:3782-3793 | An active TUN takes TUNNEL_READY, and no other state, to ESTABLISHED |
| `LifecycleEffects.RefusalCloses` | src/mqvpn_client.c:2062-2074 | A tunnel refused by the MTU check asks xquic to close the connection and changes nothing else of the lifecycle |
| `LifecycleEffects.TickDelivers` | src/mqvpn_client.c:4455-4518 | A tick's engine pass delivers a loss, after which the client waits for its timer |
| `LifecycleEffects.WatchdogExactly` | src/mqvpn_client.c:4422-4453 | A tick asks xquic to close a handshake if and only if it has lasted 5 s since CONNECTING was entered, and only once |
| `LifecycleEffects.StallTimed` | src/mqvpn_client.c:4422-4453 | For every start and every time of the next tick: that tick closes the handshake if and only if five seconds have passed, and otherwise changes nothing |
| `LifecycleTheorems.DelayIs` | src/mqvpn_client.c:1046-1057 | The delay is the interval (5 s if not positive) doubled once per attempt, at most 60 s |
| `ClientLifecycle.ReconnectDelay` | src/mqvpn_client.c:1046-1057 | The loop computes that delay |
| `ClientLifecycle.Session.Perform` | src/mqvpn_client.c:474-488 | Performing calls in place, re-entered from callbacks, has the specified effect |
| `ClientLifecycle.Session.ChangeState` | src/mqvpn_client.c:474-488 | A state change, its timestamp and its callback have the specified effect |
| `ClientLifecycle.Session.StartConnection` | src/mqvpn_client.c:3341-3432 | The connect transaction has the specified effect |
| `ClientLifecycle.Session.DisconnectClient` | src/mqvpn_client.c:3434-3480 | Disconnect has the specified effect, engine passes included |
| `ClientLifecycle.Session.TickClient` | src/mqvpn_client.c:4385-4518 | A tick is watchdog, engine pass, path passes and reconnect, in that order |
| `ClientLifecycle.Session.CheckStall` | src/mqvpn_client.c:4422-4453 | The watchdog closes exactly a handshake stalled for 5 s |
| `ClientLifecycle.Session.AnnounceTunnel` | src/mqvpn_client.c:2220-2250 | The announcement has the specified effect |
| `ClientLifecycle.Session.OnClosed` | src/mqvpn_client.c:1443-1473 | Performs the close LossLeads is about, its callbacks included |
| `TunnelLatch.FiresOnce` | src/mqvpn_client.c:1408-1441 | In every order of events tunnel_closed fired at most once while open, exactly if a failure was latched, and exactly once by the time the connection is closed |
| `TunnelLatch.FirstReasonStays` | src/mqvpn_client.c:1408-1441 | Later events never replace or add a reason |
| `TunnelLatch.ExclusiveExactly` | src/mqvpn_client.c:1408-1415 | tunnel_ok and tunnel_notified never hold together in a run if and only if no certificate is rejected after a 200 |
| `TunnelLatch.LateRejection` | src/mqvpn_client.c:1296-1301 | A run in which they do |
| `TunnelLatch.EarlyRejectionsExclusive` | src/mqvpn_client.c:1408-1415 | If every certificate is judged before the first header section, they never hold together |
| `TunnelLatch.StampingGrantedExactly` | src/mqvpn_client.c:2021-2028 | Reorder stamping is on if and only if a section that carried the deciding 200 echoed it |
| `TunnelLatch.SectionReportsExactly` | src/mqvpn_client.c:1391-1399 | An undecided connection reports an authentication failure if and only if the deciding status is 401 or 403, a protocol failure for any other but 200, nothing otherwise |
| `TunnelLatch.VerdictExactly` | src/mqvpn_client.c:1976-2008 | The deciding status is the first that is not interim, wherever it stands in the section |
| `TunnelLatch.StatusExactly` | src/mqvpn_client.c:1976-1988 | Exactly three digits are a status, and it is their number |
| `TunnelLatch.SchedulerExactly` | src/mqvpn_client.c:2009-2034 | The scheduler is the one the last scheduler field names, if the name is known |
| `TunnelLatch.SchedulerAdopted` | src/mqvpn_client.c:2009-2034 | It is adopted from the section that decides for the tunnel and from no other |
| `TunnelLatch.InterimChangesNothing` | src/mqvpn_client.c:1989-1993 | Sections with only interim statuses change nothing, echo or not |
| `TunnelLatch.Tunnel.ScanHeaders` | src/mqvpn_client.c:1965-2034 | The one-pass scan does what the section says independent of the order of its fields |
| `TunnelLatch.Tunnel.OnRequestClose` | src/mqvpn_client.c:1895-1901 | The tunnel is not usable afterwards; the close of one that was, or during shutdown, reports nothing, and of one that never was reports PROTOCOL unless a reason was reported before; at most one report in all |
| `TunnelLatch.Tunnel.CheckMtu` | src/mqvpn_client.c:2062-2074 | Refuses exactly IPv6 with less than 1280 bytes left after the 8-byte reorder header; a refusal asks to close and is reported unless a reason was before, anything else changes nothing |
| `TunnelLatch.Tunnel.OnConnClosed` | src/mqvpn_client.c:1436-1441 | When the connection ends tunnel_closed has been fired exactly once, with the reason latched before if there is one, else CLOSED |
| `Capsules.ChunkingIndependent` | src/mqvpn_client.c:1763-1853 | Any two ways of cutting a stream that do not overflow the buffer give the same addresses, the same leftover and the same verdict, namely those of parsing it at once |
| `Capsules.DrainSplit` | src/mqvpn_client.c:1788-1853 | Processing a prefix and then its leftover with the rest is processing the whole |
| `Capsules.DecodeLocal` | src/mqvpn_client.c:1799-1803 | A capsule decodes the same whatever follows it, and no proper prefix of it decodes |
| `Capsules.NeverOverflows` | src/mqvpn_client.c:1763-1785 | If every capsule is at most 61441 bytes, no cut into reads of at most 4096 bytes overflows the buffer |
| `Capsules.FirstWins` | src/mqvpn_client.c:1804-1837 | An address once assigned is never replaced by a later one of its family |
| `CapsuleAddresses.AddressesExactly` | src/mqvpn_client.c:1788-1853 | However the stream is cut, the IPv4 address is that of the first version-4 entry of its ADDRESS_ASSIGN capsules, malformed entries ending their capsule, the IPv6 address that of the first version-6 entry, none if there is none; the client asks to close if and only if an invalid route advertisement came |
| `CapsuleAddresses.EntryRoundTrip` | src/mqvpn_client.c:1804-1837 | A written entry (request id, version, octets, prefix) is read back as it was, whatever follows |
| `CapsuleAddresses.AssignedIsLearned` | src/mqvpn_client.c:1816-1837 | A capsule that assigns an address gives the client exactly that address, in its family |
| `CapsuleAddresses.AssignExample` | src/mqvpn_client.c:1816-1824 | The bytes that assign 10.0.0.2/24 |
| `Capsules.CapsuleRoundTrip` | src/mqvpn_client.c:1799-1803 | Decoding undoes encoding for every type and payload, whatever follows |
| `CapsuleStream.Stream.Append` | src/mqvpn_client.c:1763-1785 | Appends in order, refused exactly beyond 65536 bytes, with length within capacity within 65536 |
| `CapsuleStream.Stream.Grown` | src/mqvpn_client.c:1769-1777 | The doubling loop yields a capacity that holds the data and never exceeds 65536 |
| `CapsuleStream.Stream.Discard` | src/mqvpn_client.c:1848-1851 | The in-place move keeps exactly the bytes after the capsule |
| `CapsuleStream.Stream.AssignEntries` | src/mqvpn_client.c:1804-1837 | The entry loop learns what the payload says and stops at a malformed entry |
| `CapsuleStream.Stream.Process` | src/mqvpn_client.c:1788-1853 | Terminates with the buffer and the addresses of the specified drain |
| `CapsuleStream.Stream.Receive` | src/mqvpn_client.c:2085-2092 | One read has the effect of one chunk of the specification, or none on overflow |
| `Checksum.Fold` | src/icmp.c:11-20 | The folding loop terminates with the one's-complement sum |
| `Checksum.AddWords` | src/icmp.c:40-46 | The word loop adds the 16-bit words, an odd last byte padded, in 32 bits without wrapping |
| `Checksum.SealedVerifies` | src/icmp.c:72-103 | Storing the complement of the sum in a zeroed field makes the whole sum to 0xFFFF |
| `Checksum.DecrementTtl` | src/mqvpn_client.c:2437-2445 | The in-place update changes TTL and checksum as specified |
| `Checksum.TtlKeepsChecksum` | src/mqvpn_client.c:2437-2445 | For every header and header length the updated header verifies if and only if the original did; one fold is always enough; no other byte changes |
| `Icmp.Packet4Verifies` | src/icmp.c:50-104 | For every answerable packet: both checksums verify, the length field is right, the error goes to the sender and quotes its header and eight bytes, or all of a shorter packet |
| `Icmp.Packet6Verifies` | src/icmp.c:107-150 | For every packet of at least 40 bytes: the checksum verifies over the pseudo-header, length and MTU fields are right, the quote is as much of the packet as fits 1280 bytes |
| `Icmp.SendV4` | src/icmp.c:50-104 | The buffer code answers exactly the packets with a sound header, with exactly that packet, never overrunning its 128 bytes |
| `Icmp.SendV6` | src/icmp.c:107-150 | The same for ICMPv6 and its 1280 bytes |
| `TlaLexer.TokenizeText` | formal/tla_values.py:27-37 | The position loop terminates with the specified tokens or none |
| `TlaLexer.TokenizeSpread` | formal/tla_values.py:14-37 | Tokens of a list without word characters meeting come back whatever white space is put around them |
| `TlaLexer.TokenizedIsSpread` | formal/tla_values.py:27-37 | Text that is accepted is its tokens with white space around them |
| `TlaTheorems.ParseExactly` | formal/tla_values.py:27-101 | parse returns v if and only if the text is a spaced writing of a well-formed expression that denotes v; so every token is consumed |
| `TlaTheorems.ParseSpelled` | formal/tla_values.py:55-101 | Whatever way an expression is spaced, parse returns what it denotes |
| `TlaTheorems.ParseOnlySpelled` | formal/tla_values.py:55-101 | Whatever parse accepts was such a writing |
| `TlaTheorems.RoundTrip` | formal/tla_values.py:14-101 | Every value with quote-free strings and nonempty records of whole-token names can be written, and every writing of it parses back to it |
| `TlaTheorems.DenoteAllAt` | formal/tla_values.py:39-52 | The items of a tuple or set denote their values, in order |
| `TlaTheorems.DenoteFieldsAt` | formal/tla_values.py:60-74 | Each field of a record has the value written for it |
| `TlaTheorems.ParseSet` | formal/tla_values.py:55-101 | A set of a positive and a negative numeral, as text and as value |
| `TlaTheorems.ParseTuple` | formal/tla_values.py:55-101 | A tuple of a string and a truth value, as text and as value |
| `TlaTheorems.ParseRecord` | formal/tla_values.py:60-74 | A record of one field, for every name and one-token value |
| `TlaTheorems.ParseValueAt` | formal/tla_values.py:55-89 | The recursive descent terminates with the specified result on every token list |
| `TlaTheorems.ParseItemsAt` | formal/tla_values.py:39-52 | The item loop gathers exactly the values up to the closing token |
| `TlaTheorems.ParseFieldsAt` | formal/tla_values.py:60-74 | The record loop gathers exactly distinct named fields |
| `TlaTheorems.ParseText` | formal/tla_values.py:92-101 | parse as composed |
| `AddrPool.OutstandingDistinct` | src/addr_pool.c:71-113 | Over every run of allocations and releases of any addresses, outstanding addresses are distinct, never network or server address, never wrapped |
| `AddrPool.AllocExactly` | src/addr_pool.c:71-94 | Allocation fails if and only if offsets 2..size are all taken, else takes the first free offset in cyclic order and an address nobody holds |
| `AddrPool.ReleaseFrees` | src/addr_pool.c:96-113 | A released address can be allocated again; no other changes hands |
| `AddrPool.StrangerHarmless` | src/addr_pool.c:96-113 | Releasing an address nobody holds changes nothing |
| `AddrPool.ReissuedLast` | src/addr_pool.c:74-84 | An address just given back is not given out again while another is free |
| `AddrPool.PoolSizeIs` | src/addr_pool.c:49-53 | The pool has all hosts of the subnet but network and broadcast, at most 254 |
| `AddrPool.EveryOffsetTried` | src/addr_pool.c:74-77 | One scan tries every offset |
| `AddrPool.PoolInSubnetExactly` | src/addr_pool.c:49-66 | The IPv4 pool is inside its subnet if and only if the host part of the base leaves room for it |
| `AddrPool.UnalignedLeaves` | src/addr_pool.c:49-66 | An accepted base whose tenth address is outside the subnet |
| `AddrPool.Paired6` | src/addr_pool.c:148-183 | Every paired IPv6 address is inside Subnet6 and offset6 reads its offset back |
| `AddrPool.RefusedExactly` | src/addr_pool.c:148-162 | A prefix in range is refused if and only if some offset of the pool would leave Subnet6, for pools of any size |
| `AddrPool.Paired6Distinct` | src/addr_pool.c:173-183 | Distinct offsets have distinct IPv6 addresses |
| `AddrPool.Offset6Exactly` | src/addr_pool.c:191-205 | A nonzero answer is the offset of that address; it exceeds the pool if and only if the address lies above its last one |
| `AddrPool.Offset6OutOfRange` | src/addr_pool.c:191-205 | An address outside the pool for which the answer is not 0 |
| `AddrPool.AddressPool.Init` | src/addr_pool.c:17-69 | Refuses exactly a prefix outside 16 to 30 or a pool that would wrap; else the pool has nothing handed out, whatever was there before |
| `AddrPool.AddressPool.Allocate` | src/addr_pool.c:71-94 | The scan over the used array is the specified allocation |
| `AddrPool.AddressPool.Release` | src/addr_pool.c:96-113 | Clearing the entry is the specified release |
| `AddrPool.AddressPool.InitV6` | src/addr_pool.c:125-171 | Accepts exactly the prefixes from 96 to 126 with room for the pool; a refusal leaves the pool without IPv6 or with what it had |
| `FlowHash.UpdateInjective` | src/flow_sched.c:15-19 | For a fixed byte the step is one to one in the hash, modulo 2^32 |
| `FlowHash.UpdateInjective2` | src/flow_sched.c:15-19 | For a fixed hash the step is one to one in the byte |
| `FlowHash.OneByteSeparates` | src/flow_sched.c:15-19 | Keys of one length that differ in exactly one byte never collide |
| `FlowHash.FinishCollides` | src/flow_sched.c:21-33 | The sentinel remap joins exactly two pairs of values |
| `FlowHash.PinnedApart` | src/flow_sched.c:35-128 | Pinned packets with one-byte-different keys of one shape hash apart except exactly on those pairs |
| `FlowHash.Flows4Apart` | src/flow_sched.c:44-92 | On packets: IPv4 flows that differ in one byte of an address, the protocol or a port hash apart, but for the two values the reserved ones are moved to |
| `FlowHash.Flows6Apart` | src/flow_sched.c:93-124 | The same for IPv6 |
| `FlowHash.Pieces4Apart` | src/flow_sched.c:73-80 | The same for fragments, by address, protocol and Identification |
| `FlowHash.HashedExactly` | src/flow_sched.c:35-128 | On packets: 0 if and only if it is not a sound IP packet; a hash if and only if it is TCP, or UDP to be pinned, with ports or an IPv4 fragment |
| `FlowHash.KnownAnswer` | src/flow_sched.c:15-19 | The published FNV-1a value of a one-byte key |
| `FlowHash.SentinelsExactly` | src/flow_sched.c:35-128 | 0 if and only if not a sound IP packet, 0xFFFFFFFF if and only if unpinned, so pinned hashes avoid both |
| `FlowHash.SameFlow4` | src/flow_sched.c:44-92 | Unfragmented IPv4 packets with the same addresses, protocol and ports hash alike whatever else differs, options included |
| `FlowHash.SameDatagram4` | src/flow_sched.c:73-80 | Fragments with the same addresses, protocol and Identification hash alike, with or without ports |
| `FlowHash.SameFlow6` | src/flow_sched.c:93-124 | The same for IPv6 |
| `FlowHash.HashPacket` | src/flow_sched.c:35-128 | The byte loops compute the hash of the specified key |
| `Clock.OneOffset` | src/mqvpn_clock.c:107-118 | Under every interleaving of any number of threads every reading is its boot time plus the one shared offset, or plus zero only if some thread computed zero |
| `Clock.OneClock` | src/mqvpn_clock.c:107-118 | If no thread computes zero, any two readings differ by what the boot clock advanced and are in its order |
| `Clock.LaterReadingsAgree` | src/mqvpn_clock.c:107-118 | Later readings join earlier ones on the same offset whatever the wall clock does |
| `Clock.ReadsWallTime` | src/mqvpn_clock.c:107-118 | Every reading adds the amount by which the wall clock was ahead of the boot clock when some thread compared them, so that thread reads wall time |
| `Clock.ZeroExactly` | src/mqvpn_clock.c:107-118 | A reading used the offset zero if and only if the step that gave its thread the offset was a compare-and-swap of a computed zero while the shared word was 0 |
| `Clock.PartExactly` | src/mqvpn_clock.c:107-118 | Two readings are on different clocks if and only if exactly one of their threads took such a step for it |
| `Clock.ZeroParts` | src/mqvpn_clock.c:107-118 | An interleaving in which that happens |
| `Clock.SourceFixedWhileUsed` | src/mqvpn_clock.c:144-163 | The shared engine clock never changes while it has users and is the default without |
| `Clock.XquicClock.AcquireClock` | src/mqvpn_clock.c:144-153 | Refused if and only if engines run on another clock |
| `Clock.XquicClock.ReleaseClock` | src/mqvpn_clock.c:155-163 | One engine fewer; the clock of the engines still running does not change, the last release restores the default, a release too many does nothing |

## Left out

- The request direction of the proxy (uploading bodies, `h2_proxy_on_h3_body`), the PROXY protocol header and statistics: not part of the response relay.
- Sockets, file-descriptor interest, TUN devices, memory allocation failures: only their results appear, as arguments of steps.
- Pointer lifetime of freed streams and groups: streams and groups are values in lists, found by identifier; a cursor is an identifier looked up in the list.
- The internals of xquic and nghttp2: the model assumes that nghttp2 delivers frames in the order of section 8.1 of RFC 9113, that a closed HTTP/3 request accepts nothing, that `xqc_h3_request_close` leads to a later close event, that xquic never hands out a path id it still has, that `xqc_engine_main_logic` entered from one of its own callbacks does nothing, that after a close was requested xquic delivers only the close notification, and that starting a connection delivers no close or handshake notification before it returns.
- A header block reaches the proxy model as one event, not field by field.
- ProxyFindings.LateDataRun: rests on nghttp2 still calling the data callback for a stream after RST_STREAM was submitted for it, as it can in the middle of a frame.
- mqvpn_client_destroy is modelled for the path table, not in the lifecycle: nothing may use the handle afterwards.
- Transport callbacks that re-enter the library while a slot is finalised: the interface forbids them.
- Residence warnings, logging, path names and addresses, the tunnel information handed to the platform, TUN MTU arithmetic beyond the IPv6 check: easy or not about runs.
- Capsules.ReadEntry: accepts an entry on its shape; any check xquic makes of the prefix length or of host bits is not modelled. Route advertisements are judged by an arbitrary predicate, so the results hold for whatever xquic checks.
- TlaLexer.TokenLen: ASCII only; other characters are in no class, while Python's `\s`, `\d` and `\w` know Unicode.
- TlaTheorems.ParseExactly: Python's limits on the length of a numeral given to `int()` and on the depth of recursion are not modelled; within them the statement is about every text.
- TlaValues.Value: Python's `True == 1` inside sets and records is not modelled.
- Parsing CIDR text, `inet_pton` and byte order in the address pool: the pool starts from a parsed base and prefix.
- Memory ordering of the clock's atomics: steps are sequentially consistent. Windows and POSIX variants are one model.
- The reorder engines, redundant sending, the TCP lane, the server, configuration, authentication, the SNI router and the control API.
