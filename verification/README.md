# Verified model of SGSP

SGSP keeps a logical session alive over QUIC connections that come and go. This
project models the parts of it whose correctness depends on whole runs, on
several components at once, or on every byte string, and proves what they
promise. `dafny verify dfyconfig.toml` checks everything.

| file | what it models |
|---|---|
| `Varint.dfy`, `Frames.dfy` | the wire codec: minimal QUIC varints (section 16 of RFC 9000), event, datagram, request, response and custom-stream frames, slice decoders and streaming readers |
| `BoundedQueue.dfy` | the bounded queue with reservations and keyed replacement |
| `Ledgers.dfy` | byte budgets, release-once envelopes and the charging protocol around them |
| `Scheduler.dfy` | the ready-token handler scheduler |
| `Delivery.dfy` | one connection in handler mode, from the peer's `send` to the handler |
| `SessionProtocol.dfy` | the session record and the two-party resume protocol with lost WELCOMEs |
| `Registry.dfy` | the server's registry: admission, groups and tombstones, terminal cache, drain, revoke |
| `Placement.dfy` | the assignment store, concurrent bootstraps, owner-bound admission |
| `Tombstones.dfy` | the race between ticket lifetime and tombstone lifetime |
| `Rendezvous.dfy` | default owner selection |
| `Limiter.dfy` | the handshake rate limiter |
| `Negotiation.dfy` | channel binding and negotiated limits between two endpoints |

How it is built:

- Code that works by changing state is a class or a method, proved against a
  function on values. The same functions are the transitions of a state machine,
  one step per critical section, and the theorems quantify over all its runs: a
  `Run(states, steps)` starts in an initial state and takes any enabled steps in
  any interleaving.
- Safety theorems bound what may happen and would hold of a program that refuses
  everything. Each machine therefore also has theorems that say what must happen (a step
  that is asked for takes effect, exactly when it should) and what can happen (from every
  reachable state a path exists to what the operation is for), with limits, kinds, codes
  and times written as literals.
- A property that is false of the code in general is stated with its exact
  condition, as an if-and-only-if, with the failing run constructed:
  `Scheduler.RequeueExactly`, `Scheduler.SerialPerSessionExactly`,
  `Scheduler.ShutdownExactly`,
  `Limiter.RateBoundExactly`, `Tombstones.MarginIsExact`,
  `Negotiation.HeaderFailuresExactly`, `Frames.RequestBijectionExact`,
  `Frames.ResponseBijectionExact`, `Frames.RequestReadersAgree`,
  `Frames.ResponseReadersAgree`.
- The comment in `runHandlerQuantum` (`endpoint.go`, lines 2147-2149) says that a
  yielding worker's token cannot be rejected. That is so only while no more
  connections hold tokens at once than there are ready slots. Stopping an epoch
  drops its queue, but `enqueueReservedReliableHandler` does not ask whether the
  connection is current, so an event committed late gives a superseded connection
  work beside its successor. A client has a single slot and a single worker, and its
  scheduler can block for good in this way (`Scheduler.ClientSchedulerCanStick`).
- The comment on `handlerScheduler` (`handler_scheduler.go`, lines 8-10) says that
  callbacks of one session never overlap. The token belongs to the connection, and
  with two workers a superseded connection's callback can still run when its
  successor's first begins (`Scheduler.SerialPerSessionExactly`). In both cases the
  model follows the code.
- `DecodeReliableEvent` does not validate channel and type and the streaming
  reader does; the theorem relating them says so.
- Go's `int` is 64 bits wide; conversions and sums that can wrap are written out in
  `Frames.dfy`. Elsewhere integers are unbounded where no code path can reach the
  width. Clocks are non-decreasing, tokens of the limiter and times of the
  tombstone race are real numbers, SHA-256 is an arbitrary function, session
  identifiers are fresh, and a verified ticket carries the fields that were signed.

## Model

| member | source | states |
|---|---|---|
| Varint.VarintRoundTrip | internal/wire/varint.go:19-78 | every value up to 2^62-1 decodes to itself with its own length, whatever bytes follow |
| Varint.VarintUnique | internal/wire/varint.go:61-78 | every accepted prefix is the one minimal encoding of the value it yields |
| Varint.AppendVarint | internal/wire/varint.go:34-59 | appends exactly the tagged big-endian digits of the value, or fails beyond 2^62-1 |
| Varint.DecodeVarint | internal/wire/varint.go:61-78 | the loop over a slice computes the parse, with the same errors |
| Varint.ByteReader.ReadVarint | internal/wire/varint.go:80-101 | the byte-at-a-time reader yields what the slice parse yields and consumes exactly that |
| Varint.VarintRange | internal/wire/varint.go:19-33 | exactly the values below 2^62 have an encoding, of 1, 2, 4 or 8 bytes by magnitude |
| Varint.RfcSamples | internal/wire/varint.go:34-59 | the four sample encodings of section A.1 of RFC 9000 |
| Frames.VarintsRoundTrip | internal/wire/events.go:200-231 | a list of fields reads back as itself |
| Frames.AppendVarints | internal/wire/events.go:33-48 | the field loop writes the concatenation, failing exactly on a field beyond the varint range |
| Frames.DecodeFields | internal/wire/request.go:36-52 | the slice field loop computes the parse of the field list |
| Frames.ReadFields | internal/wire/events.go:113-129 | the stream field loop computes the same parse and advances by its length |
| Frames.AppendEvent | internal/wire/events.go:33-48 | the event encoder writes fields and payload and nothing else |
| Frames.DatagramBijection | internal/wire/events.go:144-188 | a canonical event encodes to a byte string exactly when that string decodes to it, for every limit |
| Frames.StreamingRefinesSlice | internal/wire/events.go:88-142 | for every byte string and limit the streaming reader accepts exactly what the slice decoder accepts and `validateEvent` passes, with the same event and length |
| Frames.ReliableRoundTrip | internal/wire/events.go:63-142 | a frame within the sender's limit reads back at any receiver with at least that limit, whatever follows it |
| Frames.ReliableUnique | internal/wire/events.go:113-142 | every frame the stream reader accepts is the encoding of the event it yields |
| Frames.CutFrameRejected | internal/wire/events.go:113-142 | no proper prefix of a frame is accepted |
| Frames.ChannelStreamPrefix | endpoint.go:3149-3183 | however much of the frames has arrived, the reader yields a prefix of the events written, all of them once all has arrived |
| Frames.ChannelStreamRoundTrip | endpoint.go:3133-3183 | a channel header followed by any list of encoded events parses back to that channel and list; cut anywhere, to nothing within the header and to a prefix of the list after it |
| Frames.CutFieldsRejected | internal/wire/varint.go:61-78 | no proper prefix of an encoded list of fields yields all of them |
| Frames.ReadReliableEventHeader | internal/wire/events.go:113-142 | reads the header at the front of the stream, checks it and consumes exactly its bytes |
| Frames.ReadReliableEvent | endpoint.go:3149-3183 | length, header and body of one frame, or nothing on any error or a foreign channel |
| Frames.ReadReliableStream | endpoint.go:3149-3191 | the reader loop hands over exactly the events of the stream, in order |
| Frames.DecodeRequest | internal/wire/request.go:36-52 | the decoder's loop computes the request parse |
| Frames.RequestBijection | internal/wire/request.go:20-52 | for limits from zero up, a request encodes to a string exactly when the string decodes to it |
| Frames.RequestBijectionExact | internal/wire/request.go:20-52 | encoder and decoder are mutual inverses if and only if the limit is not negative |
| Frames.RequestReadersAgree | internal/wire/request.go:57-77 | the stream reader takes a request off the front of a byte string exactly when the slice decoder accepts that prefix as the same request, for every string and prefix, if and only if the limit is not negative; what follows it ignores |
| Frames.ReadRequest | endpoint.go:3280-3299 | kind, header and body of a request read from a stream as that reader does |
| Frames.ResponseReadersAgree | endpoint.go:2621-2653 | the reader in `Call` accepts exactly what `DecodeResponse` accepts, with the same response, if and only if the limit is not negative |
| Frames.ResponseBijection | internal/wire/request.go:78-108 | for limits from zero up, a response encodes to a string exactly when the string decodes to it |
| Frames.ResponseBijectionExact | internal/wire/request.go:78-108 | encoder and decoder are mutual inverses if and only if the limit is not negative |
| Frames.CustomHeaderBijection | internal/wire/request.go:130-159 | custom-stream headers and accepted byte strings correspond one to one |
| Frames.ReliableEncodable | internal/wire/events.go:63-87 | an event can be sent reliably exactly when its channel is at most 65535, its type from 1 to 2^32-1 and its payload within the limit: 32 bytes are always enough for the rest |
| Frames.ReliableLayout | internal/wire/events.go:63-87 | the frame on the wire: length, kind 1, channel, type, payload, in that order |
| Frames.DatagramLayout | internal/wire/events.go:144-165 | a valid datagram on the wire, kind 2 without and kind 3 with a sequence number, sendable exactly within the limit |
| Frames.DatagramRefused | internal/wire/events.go:144-165 | any other kind, channel, type or sequence number is refused |
| Frames.RequestLayout | internal/wire/request.go:20-35 | a request on the wire, and that it can be sent exactly for a type from 1 to 2^32-1, a timeout from 1 to 300000 ms and a payload within the limit |
| Frames.ResponseLayout | internal/wire/request.go:78-95 | a response on the wire, and that a failure carries at most 256 bytes of UTF-8 |
| Frames.HeaderLayouts | internal/wire/request.go:130-146 | the two stream headers, kind and number |
| Frames.Utf8IsExact | internal/wire/request.go:82-104 | the diagnostics accepted are exactly the UTF-8 forms of sequences of Unicode scalar values (section 3 of RFC 3629) |
| BoundedQueue.QueueSafety | internal/runtime/queue.go:46-136 | after any operations `bytes` is the sum over the items, reserved totals are those of the live reservations, everything is within bounds and non-negative, and nonzero keys are unique when keyed items enter through `ReplaceWith` only |
| BoundedQueue.LiveReservationCommits | internal/runtime/queue.go:99-136 | a live reservation on an open queue always becomes the last item |
| BoundedQueue.SelectPartitions | internal/runtime/queue.go:182-209 | `Remove` loses and invents nothing: kept and removed items are the old items with their bytes |
| BoundedQueue.SelectOrder | internal/runtime/queue.go:182-209 | `Remove` is a stable filter: of two kept items, or two removed ones, the first stood before the second in the old queue |
| BoundedQueue.Queue.TryPush | internal/runtime/queue.go:46-56 | accepted exactly when open and within bytes and items including reservations, then appended |
| BoundedQueue.Queue.TryReserve | internal/runtime/queue.go:61-73 | holds capacity under the same bounds |
| BoundedQueue.Queue.TryPop | internal/runtime/queue.go:161-178 | removes the first item and its bytes |
| BoundedQueue.Queue.Remove | internal/runtime/queue.go:182-209 | the in-place compaction leaves the filter and returns the rest |
| BoundedQueue.Queue.ReplaceWith | internal/runtime/queue.go:247-272 | replaces the item of that key in place when the difference fits, otherwise pushes |
| BoundedQueue.Reservation.Commit | internal/runtime/queue.go:99-136 | once only; turns the reservation into an item unless the queue is closed |
| BoundedQueue.Reservation.Cancel | internal/runtime/queue.go:108-136 | once only; gives the capacity back |
| BoundedQueue.QueueAccepts | internal/runtime/queue.go:46-73 | after any operations, a push or a reservation is accepted exactly when the queue is open, the size is not negative and one more item of that size fits beside what is held and reserved |
| BoundedQueue.ReplacementIsExact | internal/runtime/queue.go:247-272 | a keyed item is accepted exactly when the difference fits, and then takes the place of the one with its key, or the end |
| BoundedQueue.QueueEffects | internal/runtime/queue.go:46-209 | what each operation does to the list of items |
| Ledgers.Budget.Acquire | internal/runtime/budget.go:23-31 | takes the bytes exactly when they fit |
| Ledgers.Budget.Release | internal/runtime/budget.go:32-40 | gives the bytes back; false stands for the panic |
| Ledgers.Incoming.Release | api.go:174-184 | the first call returns every charge to its budget, later ones change nothing |
| Ledgers.Incoming.Attach | endpoint.go:1532-1543 | one more charge for the release to return |
| Ledgers.ReleaseReturnsAll | api.go:174-184 | the steps of a release in the charging protocol have together the effect of that call and no other |
| Ledgers.Incoming.Respond | api.go:154-165 | at most one successful response; a failed one may be retried |
| Ledgers.ChargeConservation | endpoint.go:1375-1544 | in every reachable state each ledger reads exactly the charges of unreleased envelopes and unfinished reservations and stays within its maximum, through push, reserve, commit, cancel, coalescing, epoch discard and close |
| Ledgers.ReleaseNeverPanics | internal/runtime/budget.go:32-40 | no reachable release meets the panic |
| Ledgers.QuiescentLedgersAreEmpty | endpoint.go:1616-1657 | once everything queued is gone and every release has finished, all ledgers read zero |
| Ledgers.AcquiresExactly | internal/runtime/budget.go:23-31 | in every reachable state a charge is taken exactly when it fits beside what all unreleased holders owe that ledger, to the last byte |
| Ledgers.QueuedKeepsCharges | endpoint.go:1375-1544 | what enters the queue is queued with all it owes; a reservation passes what it owes to the envelope it commits, or is released on a closed queue |
| Ledgers.CoalescingHandsOver | internal/runtime/queue.go:247-272 | a newer envelope under the same key takes the place of the queued one, which is handed over for release; both keep what they owe |
| Ledgers.RefusedChargeIsUndone | endpoint.go:1505-1514 | when the second ledger refuses, giving back the first leaves every ledger and the queue as they were |
| Ledgers.EnvelopeRoundTrip | endpoint.go:1375-1448 | an envelope that fits can be charged, queued, taken out and released, after which every ledger and the queue are as they were |
| Ledgers.ReservationRoundTrip | endpoint.go:1477-1501 | a reservation that is cancelled gives back its place in the queue and its charge |
| Ledgers.EverythingCanBeReturned | api.go:174-184 | from every reachable state releases alone bring every ledger to zero |
| Ledgers.ClosedQueueOnlyEmpties | endpoint.go:1616-1638 | from the closing of the queue on it stays closed and never gains an item |
| Scheduler.SchedulerInv | handler_scheduler.go:47-101 | in every reachable state a connection has one token exactly while `handlerScheduled` is set, the work counter equals the tokens, and while accepting an unscheduled connection has an empty queue |
| Scheduler.CallbacksAreSerial | endpoint.go:2113-2161 | two workers never serve the same connection |
| Scheduler.SerialPerSessionExactly | handler_scheduler.go:8-10 | for every number of ready slots, callbacks of one session, whose connections succeed each other, never overlap if and only if there is at most one worker |
| Scheduler.SerialWhileOneScheduled | handler_scheduler.go:8-10 | with any number of workers they do not overlap while one connection of the session is scheduled |
| Scheduler.CancellationStrandsNothing | handler_scheduler.go:88-101 | when the context is cancelled no token is ready, no worker busy and no enqueue in progress |
| Scheduler.RequeueNeverBlocks | endpoint.go:2147-2157 | a yielding worker finds a slot while token holders fit the ready channel |
| Scheduler.RequeueExactly | endpoint.go:2147-2157 | over all runs with at most k connections holding tokens at once, requeueing never blocks if and only if k is at most the number of slots |
| Scheduler.StuckForever | handler_scheduler.go:70-86 | once all workers wait for a slot, no callback is ever made again |
| Scheduler.ClientSchedulerCanStick | endpoint.go:2147-2157 | a run of one session, whose first connection is dropped before the second is made, in which a scheduler of one worker and one slot ends so |
| Scheduler.BoundedWait | handler_scheduler.go:70-86 | a token at position p is picked within 32 * (p + workers) callbacks |
| Scheduler.EnqueueRuns | handler_scheduler.go:47-69 | the steps of an undisturbed enqueue in the token protocol have together the effect of that call |
| Scheduler.QuantumRuns | endpoint.go:2113-2161 | the steps of an undisturbed quantum in the token protocol have together the effect of that call |
| Scheduler.HandlerScheduler.Enqueue | handler_scheduler.go:47-69 | a token enters only while accepting and with room, and the work counter moves with it |
| Scheduler.Connection.RunHandlerQuantum | endpoint.go:2113-2161 | invokes the first 32 items in order, then requeues the token, gives it up, or waits with it for a slot |
| Scheduler.QueueMoves | endpoint.go:1925-1972 | over every run, what each step does to the queue of each connection: one more when accepted, one less when called or refused by the scheduler, none when dropped, otherwise the same |
| Scheduler.QuantumServes | endpoint.go:2113-2161 | a worker with a fresh token makes 32 callbacks, or as many as there are items |
| Scheduler.ItemCanBeServed | endpoint.go:1925-1972 | from every reachable state with a free slot and an idle worker, an item given to a connection without a token is served, and nothing else changes |
| Scheduler.ShutdownExactly | handler_scheduler.go:88-101 | from every reachable state `close` can be carried to its end, context cancelled and all workers returned, if and only if it has been cancelled or not every worker waits for a ready slot with none free |
| Delivery.SequencedDelivery | endpoint.go:3090-3106 | under any loss, duplication and reordering, handlers of a sequenced channel see strictly increasing sequence numbers, all of them sent, despite in-queue replacement |
| Delivery.ReliableDelivery | endpoint.go:3133-3191 | handlers of a reliable channel see a prefix of what was sent, in order |
| Delivery.SequencesAreFresh | endpoint.go:2331-2365 | every sequenced datagram sent carries the next number of its channel, which no earlier one carries |
| Delivery.ReceivedIsRemembered | endpoint.go:3090-3106 | the stale mark is at least every sequence number received on its channel |
| Delivery.MarkWasReceived | endpoint.go:3090-3106 | the stale mark is one of those received, or zero |
| Delivery.NewerIsTaken | endpoint.go:3090-3106 | a datagram is taken if and only if it is newer than all received before on its channel, whatever was lost in between; any other changes nothing |
| Delivery.AdmittedIsQueued | endpoint.go:1925-1972 | an admitted datagram with room is queued under its channel when the connection holds or gets a token |
| Delivery.OtherIsQueued | endpoint.go:1925-1972 | anything else with room goes to the end of the queue on the same condition; without room nothing changes |
| Delivery.CommitAdvances | endpoint.go:2047-2072 | a reserved event commits to the end of an open queue when the connection holds or gets a token, and its reader moves on |
| Delivery.OldestIsInvoked | endpoint.go:2113-2161 | a worker takes the oldest item, and a current connection hands it to its handler |
| Delivery.NothingReadIsLost | endpoint.go:3149-3191 | while handlers can be invoked, what was logged, is in hand and is queued of a channel are exactly the events its reader has passed on, and with nothing queued exactly what was logged |
| Delivery.DatagramCanBeDelivered | endpoint.go:3090-3106 | from every reachable state with nothing under way, a newer datagram on the wire can be received, queued and handed to its handler |
| Delivery.EventCanBeDelivered | endpoint.go:3149-3191 | likewise the next event of a reader with room |
| Delivery.FirstEventCanBeDelivered | endpoint.go:3133-3191 | likewise the first event of a new channel, from `send` to the handler, after which again nothing is under way |
| Delivery.LostIsSilent | endpoint.go:2183-2193 | once a connection has lost its session, handlers are given nothing more of it but lifecycle notices, whatever is queued, in hand or arriving |
| Delivery.EndsOfThePipeline | endpoint.go:3133-3191 | what is sent is there to be read, a reader starts with the first event, a stopped one reads no more, a token goes back or is given up |
| SessionProtocol.SessionRecord.Close | session.go:188-206 | closes once with its code; a superseding code is refused |
| SessionProtocol.SessionRecord.CloseRemote | session.go:216-226 | closes once with the peer's code |
| SessionProtocol.SessionRecord.SuspendIfCurrent | session.go:256-266 | suspends only for the connection in possession of an active session |
| SessionProtocol.SessionRecord.IsCurrent | session.go:268-276 | connection, state and epoch all have to match |
| SessionProtocol.SessionRecord.ReplaceConnectionAt | session.go:299-315 | on an open session a later epoch is installed and the session is active on that connection; otherwise nothing changes |
| SessionProtocol.SessionRecord.CommitResume | endpoint.go:659-687 | the server's resume makes the session active on the new connection at the next epoch, unless closed, unauthorised or exhausted |
| SessionProtocol.EpochAgreement | endpoint.go:1229-1261 | over every run with any WELCOMEs lost: server epochs are consecutive, one connection each; the client's epoch is one of them and never ahead; at equal epochs both hold the same connection |
| SessionProtocol.CommitsGrow | endpoint.go:659-690 | epochs never decrease on either side and the commit history is only extended |
| SessionProtocol.Fencing | session.go:268-276 | a client that is behind has nothing dispatched from its connection; one that is not shares the server's current connection |
| SessionProtocol.OneShotCurrency | session.go:256-276 | on either side a connection is current during one contiguous stretch at most |
| SessionProtocol.LateLossIsHarmless | session.go:256-266 | the loss of a superseded connection changes nothing on either side |
| SessionProtocol.ClosedIsAbsorbing | session.go:188-226 | a closed record never changes again and its code was written exactly once |
| SessionProtocol.ResumeTakesOver | endpoint.go:659-687 | over every run, an authorised resume of an open session below the last epoch makes its connection the server's current one, active at one epoch more |
| SessionProtocol.AttachTakesOver | session.go:299-315 | over every run, a WELCOME makes its connection the client's current one if and only if the client is open and behind that epoch; otherwise it changes nothing |
| SessionProtocol.LossSuspends | session.go:256-266 | the loss of the current connection leaves that side suspended at its epoch |
| SessionProtocol.CloseTakesEffect | session.go:188-226 | closing an open side closes it with that code |
| SessionProtocol.AcceptTakesOver | endpoint.go:1229-1261 | the first WELCOME makes the client current on the admitted connection at epoch 1 |
| SessionProtocol.FirstContactIsPossible | endpoint.go:1229-1261 | from every reachable state in which the client has not heard of its session, the WELCOME can be written and accepted |
| SessionProtocol.RecoveryIsPossible | endpoint.go:1229-1261 | from every reachable state with both sides open, whatever was lost before, one resume that gets through makes both current on the new connection at the same epoch |
| Registry.ServerEndpoint.ExpireTerminals | endpoint.go:256-263 | drops exactly the expired entries |
| Registry.ServerEndpoint.FindOldest | endpoint.go:240-247 | finds an entry with the earliest expiry |
| Registry.ServerEndpoint.RecordTerminal | endpoint.go:233-255 | expires, evicts an oldest entry when full, records the code for 30 seconds |
| Registry.ServerEndpoint.LookupSession | endpoint.go:288-299 | the session, or whether it expired lately, or unknown |
| Registry.ServerEndpoint.RemoveSession | endpoint.go:196-225 | leaves the current object of its group, then the table, and if closed enters the terminal cache |
| Registry.ServerEndpoint.Admit | endpoint.go:530-595 | admission under both locks: makes the group object on first use, registers the session with the issuer, subject and group it was admitted for in table and group, or refuses with the code of the first cause: no room for the group, group closed, draining, no room for the session |
| Registry.ServerEndpoint.BeginCloseGroup | endpoint.go:798-817 | closes the group object, made if absent, and takes the snapshot of its members |
| Registry.ServerEndpoint.RetainClosedGroup | endpoint.go:323-344 | persists only the current, closed and not yet persisted object |
| Registry.ServerEndpoint.MatchingSessions | endpoint.go:782-791 | the snapshot is exactly the table's sessions of that issuer and subject |
| Registry.RegistryInvariant | endpoint.go:196-299 | in every reachable state sessions, groups and terminals respect their limits, live and terminal identifiers are disjoint, every session not closed is in the table and in the current object of its group |
| Registry.HistoryRun | endpoint.go:734-762 | issuer, subject and group of a session never change across refresh and resume, a closed session never changes, a closed group object is joined by nobody |
| Registry.TerminalsRecall | endpoint.go:208-255 | in every reachable state a terminal entry carries the code its session was closed with |
| Registry.DrainOnlyShrinks | endpoint.go:827-847 | once draining the table only shrinks; once empty it stays empty and every session is closed |
| Registry.GroupCloseFence | endpoint.go:530-595 | from the step that sets `closed` until the tombstone is deleted, no session of the group is admitted or resumed |
| Registry.UncommittedFenceStays | endpoint.go:798-826 | a fence whose commit never succeeded is never lifted, under any concurrent `CloseGroup` calls and failures |
| Registry.PersistedMeansClosed | endpoint.go:798-826 | when `persisted` holds, every session ever registered in that group object is closed, and stays so |
| Registry.RevokeCompletes | endpoint.go:782-797 | when `Revoke` returns, every session that an earlier admission step admitted for that issuer and subject is closed, whatever was refreshed or resumed since |
| Registry.AdmissionIsRecorded | endpoint.go:530-595 | over every run, a connection is admitted if and only if the server is not draining, has room and the group is open or has room, and is then on record with exactly its issuer, subject and group, open at epoch 1, in the table and in its group's current object |
| Registry.RefusalsAreTold | endpoint.go:530-595 | the code of each refusal by cause, zero exactly for a connection that can be admitted |
| Registry.ResumeIsExact | endpoint.go:659-687 | a resume commits the next epoch exactly when the session is open, its own, not exhausted and its group open, and changes nothing else |
| Registry.ClosingCloses | endpoint.go:782-826 | closing an open session closes it, with the code of the call, of `CloseGroup` or of `Revoke` |
| Registry.OthersAreUntouched | endpoint.go:782-826 | over every run a session is changed only by its own resume, by its own closing, by a `Revoke` of its issuer and subject or by a `CloseGroup` of its own fenced group object |
| Registry.RevokeCanRun | endpoint.go:782-797 | from every reachable state `Revoke` can be called and carried to its end by its own steps, and every session of that issuer and subject is then closed |
| Registry.CloseGroupCanRun | endpoint.go:798-826 | from every reachable state `CloseGroup` can be called and carried to its end by its own steps, the closure is then retained and no session of the group is open |
| Registry.ClosingFences | endpoint.go:798-817 | `CloseGroup` fences the group at once and has every session still live in it on its list |
| Registry.CommittedIsRetained | endpoint.go:323-344 | a committed closure of the current group object is retained, and a retained one can be deleted |
| Registry.LeavingIsRecorded | endpoint.go:208-255 | a closed session leaves the table for the terminal cache, where its code stays for 30 seconds; only a full cache gives up an unexpired entry |
| Registry.ClosedCanLeave | endpoint.go:196-255 | a closed session can leave group and table at any time |
| Registry.ExpiryIsExact | endpoint.go:256-263 | expiry keeps exactly the entries not yet expired |
| Registry.SmallSteps | endpoint.go:196-225 | draining takes effect at once, leaving takes one session off its group's current object and no other, a refresh passes exactly for the session's own issuer and subject |
| Placement.Store.Assign | placement/memory/memory.go:42-66 | the existing open assignment of that version, or the candidate when there is none and room |
| Placement.Store.Get | placement/memory/memory.go:67-84 | the assignment, closed or not, with the source's errors |
| Placement.Store.Close | placement/memory/memory.go:85-107 | closes the assignment for the recorded identifier and incarnation, and answers every other caller with its error and the table unchanged |
| Placement.FindStatus | placement/placement.go:277-284 | the first entry with the owner's identifier and incarnation, or none exists |
| Placement.AssignmentsAreFinal | placement/memory/memory.go:42-107 | over any run an assignment never changes owner, group or version, never goes away, stays closed once closed, and the store stays within its size |
| Placement.NoSplitOwnership | placement/placement.go:104-176 | for any interleaving of any number of bootstraps, all tickets for one group name one owner and version, and only that owner ever admits or resumes a session of it |
| Placement.TicketsNameUsableOwners | placement/placement.go:155-176 | every ticket was signed for the bootstrap's own principal, application and group, naming an owner its snapshot showed healthy, with capacity and not draining |
| Placement.ClosedGroupIsRefused | placement/placement.go:126-142 | a bootstrap that reads or assigns after the store closed the group gets no further |
| Placement.ClosingIsExact | placement/memory/memory.go:85-107 | over every run, a step closes an open assignment if and only if it closes that application, version and group for the recorded owner incarnation |
| Placement.OtherAssignmentsStay | placement/memory/memory.go:42-107 | every other assignment is left as it was |
| Placement.ClosedByItsOwner | placement/placement.go:126-142 | from the step that closes a group for its owner on, no bootstrap that reads or assigns it gets any further |
| Placement.StoreAnswers | placement/memory/memory.go:42-107 | what the store answers, cause by cause, and that a success has done what it says |
| Placement.InvalidIsRefused | placement/memory/memory.go:42-107 | a group or owner with an empty part is refused first |
| Placement.ReadFollows | placement/placement.go:126-142 | a bootstrap follows an open assignment of its version, goes on to choose where there is none, and otherwise ends |
| Placement.AssignFollows | placement/placement.go:143-154 | assigning yields the open assignment there is, or the candidate where there is none and room |
| Placement.UsableMeans | placement/placement.go:155-176 | an owner is usable exactly when the first entry of its incarnation is healthy, with capacity and not draining |
| Placement.AdmitsExactly | endpoint.go:714-731 | a game server admits exactly the bearer of a ticket for just this application, principal, group and owner, or anybody where neither group nor ticket is demanded |
| Placement.ResumeIsGranted | endpoint.go:659-687 | a resume at the session's own server renews its grant and changes nothing else |
| Placement.GroupCanBePlaced | placement/placement.go:104-176 | from every reachable state, a new group with room in the store can be placed on any usable owner and joined there |
| Placement.LonePlayerCanJoin | placement/placement.go:104-176 | from every reachable state, a player without a group can be given any usable owner, be let in and resume |
| Tombstones.TicketsAreStale | endpoint.go:729-731 | within the margin no ticket read before the closure outlives the tombstone |
| Tombstones.ClosedForGood | endpoint.go:323-344 | within the margin a group its owner has closed never has a session again, even after the tombstone is deleted |
| Tombstones.MarginIsExact | placement/placement.go:162-170 | this holds for every run with delays at most d if and only if d is at most 5 seconds |
| Tombstones.Lives | placement/placement.go:162-170 | a ticket lives at most 30 seconds from its stamp; a tombstone is lifted from 35 seconds on |
| Tombstones.LookUpIsExact | endpoint.go:530-595 | a checked ticket gets its bearer in exactly when the group is not fenced and there is room |
| Tombstones.ClosureTakesEffect | endpoint.go:798-826 | closing fences the group at once, a stored commit closes the assignment, and a committed closure is retained |
| Tombstones.EndsAlone | endpoint.go:798-826 | a session that closes is live no more, and no other session is touched |
| Tombstones.OpenGroupCanBeJoined | placement/placement.go:104-176 | while assignment and group are open, a ticket of the full 30 seconds can be had, checked and used at any time |
| Rendezvous.AppendQuicVarint | placement/placement.go:259-276 | appends its encoding, which on the varint range is the wire one |
| Rendezvous.QuicVarintAgrees | placement/placement.go:259-276 | `appendQUICVarint` equals the wire encoding exactly on the varint range |
| Rendezvous.BuildPreimage | placement/placement.go:250-256 | the loop builds the length-prefixed concatenation |
| Rendezvous.PreimageInjective | placement/placement.go:250-258 | pre-images are equal only for equal application, key, owner identifier and incarnation |
| Rendezvous.BeforeIsStrictOrder | placement/placement.go:238-247 | the comparator is a strict order that separates any two incarnations, for any hash |
| Rendezvous.SortedHead | placement/placement.go:238-248 | whatever sorts the eligible candidates leaves an owner first that nothing precedes |
| Rendezvous.SelectOwner | placement/placement.go:225-249 | returns the eligible owner of the greatest score, then of the least identifier, then of the least incarnation; fails exactly when no candidate is eligible |
| Rendezvous.GreatestScoreWins | placement/placement.go:238-247 | an owner that nothing precedes has the greatest score of all eligible ones and, among equals, the least identifier and then incarnation |
| Rendezvous.LessIsLexicographic | placement/placement.go:238-247 | the byte comparison is decided at the first difference, a proper prefix being smaller |
| Rendezvous.ScoreLayout | placement/placement.go:250-258 | the score is the hash of application, group key, owner identifier, each after its length, and the incarnation |
| Rendezvous.OrderIndependent | placement/placement.go:225-249 | the choice does not depend on the order of the snapshot |
| Rendezvous.RemovalIsLocal | placement/placement.go:225-249 | removing an owner that was not chosen does not change the choice |
| Rendezvous.AdditionIsLocal | placement/placement.go:225-249 | adding an owner changes the choice only to that owner |
| Limiter.HandshakeLimiter.Allow | handshake_limiter.go:36-69 | refill, eviction and spending of one token as a function of the table |
| Limiter.HandshakeLimiter.DropIdle | handshake_limiter.go:46-50 | drops exactly the sources idle for a minute |
| Limiter.TableBounded | handshake_limiter.go:44-53 | the table never exceeds 4096 sources and buckets stay between nothing and a burst |
| Limiter.EvictionIsNeutral | handshake_limiter.go:46-50 | if a minute refills a bucket, dropping an idle entry gives its source nothing extra |
| Limiter.RateBoundExactly | handshake_limiter.go:36-69 | in any window of any calls one source gets at most burst + rate * time, if and only if rate * 60 >= burst |
| Limiter.AllowedExactly | handshake_limiter.go:36-69 | a call is let through exactly when its source has a whole token of credit and an entry or room for one among 4096 |
| Limiter.CallLeaves | handshake_limiter.go:36-69 | a call leaves its source seen now with its credit less what it used and every other entry as it was, idle ones dropped only for a new source |
| Negotiation.CountClass | endpoint.go:2381-2386 | the counting loop counts the channels of one class |
| Negotiation.Channels.BindOutbound | endpoint.go:2366-2392 | a channel keeps its delivery; a new one needs room under both endpoints' limits |
| Negotiation.Channels.BindInbound | endpoint.go:2419-2443 | as outbound, under the local limit, and a second reliable stream is refused |
| Negotiation.NothingIsRefused | endpoint.go:2307-2443 | while header writes succeed, for any calls of `send` and any arrival order, loss and repetition, everything emitted passes the peer's framing checks and binding, whose bindings are among the sender's, one stream to a reliable channel |
| Negotiation.HeaderFailuresExactly | endpoint.go:2393-2418 | for any limits, no run with at most k header writes reported failed although they got through ends in a refusal if and only if k is zero |
| Negotiation.InboundIsBounded | endpoint.go:2419-2443 | against any peer, inbound channels stay within the local limits and never change their delivery mode |
| Negotiation.StreamReadsBack | endpoint.go:3133-3191 | whatever has arrived of a negotiated stream reads back, once its header has, as its channel and a prefix of what was sent on it, the whole as all of it |
| Negotiation.ReliableSendSucceeds | endpoint.go:2307-2330 | over every run, a reliable `send` on a channel so bound, or new with room under both limits, of an event within both limits puts it at the end of that channel's stream |
| Negotiation.DatagramSendSucceeds | endpoint.go:2331-2365 | likewise an unreliable or sequenced `send` emits its datagram, the latter under its channel's next number |
| Negotiation.RefusedSendChangesNothing | endpoint.go:2366-2392 | a `send` on a channel bound otherwise, or without room, changes nothing |
| Negotiation.FailedSendStillBinds | endpoint.go:2393-2418 | a reliable `send` whose stream does not open or take the frame has bound its channel all the same |
| Negotiation.EverythingIsTaken | endpoint.go:2419-2443 | every stream, event and datagram that arrives is taken, in any order: bound to its mode and read from its first event on |

## Left out

- Scheduler.Connection.RunHandlerQuantum: runs undisturbed and stops at a send that has to wait; concurrent enqueues and what follows the wait are steps of the machine the theorems are about.
- Scheduler.HandlerScheduler.Enqueue: runs undisturbed; its interleavings are steps of the machine.
- SessionProtocol.SessionRecord.SuspendIfCurrent: operations are told apart by their connection number, so it asks that distinct operations have distinct numbers.
- Rendezvous.SelectOwner: the sort is a search for the owner it would leave first; `sort.Slice` itself is a library and not modelled, and `SortedHead` covers any algorithm.
- Registry.ServerEndpoint.Admit: session and group objects are entries of maps rather than heap objects, and a session identifier is drawn before rather than inside the critical section.
- Placement.AdmitsExactly: the expiry of a ticket and the `AuthorizeGroup` callback, which only narrow admission, are not part of this machine; `Tombstones.dfy` has the expiry.
- Registry.AdmissionIsRecorded: about the critical section; credentials and tickets are checked before it.
- Negotiation.NothingIsRefused: assumes that a frame is written whole or not at all; a datagram refused for the inbound message rate or for pressure is not a refusal in this sense.
- Tombstones.ClosedForGood: the closure must go through the owner's `CloseGroup`; closing the store directly leaves the owner without a fence.
- Fairness: the theorems about what can happen construct a path from every reachable state; that a scheduler takes it is not claimed.
- Wake-up liveness of `Push`, `Reserve`, `WaitPop` and `Budget.Wait`: waiting is retrying at any time, and only safety is claimed.
- Timer races of expiry and grace: nothing is said about when a session closes.
- Delivery order in polling mode, where one queue is shared by all sessions.
- `enqueueReliableHandler`, `setState` and `replaceConnection`, which the transport paths do not use.
- Custom stream handlers, which run outside the scheduler.
- Directional budgets and `normalizeLimits`: easy arithmetic; that `2*(MessageBytes+32)` does not overflow is assumed where limits are used.
- Sequence numbers and group counters beyond 2^64, which no run of the program reaches.
- TLS, the QUIC library, sockets, JSON control parsing and JWT signatures.
- Observers, statistics and logging; commands, test relays, typed wrappers and example games.
- The PostgreSQL assignment store and the placement protocol's own request encoding.
