# A verified model of shm

shm exchanges messages between a C++ host and a Go guest over a shared memory
segment. The segment is cut into slots. Each slot has a state word, a claim
generation, two doorbell flags, a header and two buffers, and both processes
move it through FREE, REQ_READY, RESP_READY, DONE, BUSY and GUEST_BUSY with
atomic accesses. Large payloads travel as streams of chunks that a reassembler
puts back together, and there is a byte ring between the C++ writer and the Go
reader.

This project models that behaviour in Dafny 4.11 and proves what it guarantees.
`dafny verify dfyconfig.toml` checks all of it.

## How the model is laid out

**Slot protocols.** `GuestCall*` is one guest-call slot with any number of Go
senders and C++ processors. `HostSlot*` is one host slot with one host thread and
one Go worker, including timeouts, steals, panics and both doorbells.
`GuestDoorbell` is the one event that all guest slots share. `Generation` is the
claim-generation handshake alone. Each is a transition system with one step per
atomic access and one per plain header or buffer access, and each theorem is
about every state of every run. The steps are taken to be sequentially
consistent, and a timeout is a step that may happen at any moment. The theorems
come in pairs: `*Invariant` and `*Theorems` say what no run can do, `*Runs` and
`*Replies` build the runs that show what can be done, and together they settle
which replies and which errors a call can get. `GuestCallGuard` says when a wait
is safe, `GuestCallRecovery` and `HostSlotRecovery` that no abandoned call costs
the slot.

**Streams.** `StreamSpec` is the reassembly of one stream as a function.
`StreamSoundness` and `StreamCompleteness` say what it delivers for every
sequence of chunks and for every conforming sender, and `StreamVerdict` what it
makes of the next chunk. `StreamSender` is the cut into chunks and the FIFO
window. `StreamWire` is the two 24-byte headers.
`GoReassembler` and `CppReassembler` are the two implementations in their own
imperative form, both proved against `ReassemblerSpec`. `ReassemblerParity` says
exactly when they agree, `ReassemblerStarts` what a start is answered and which
streams it costs, `ReassemblerTheorems` what both guarantee over all traffic, and
`ReassemblerThreads` and `ReassemblerAdmission` what holds when the Go sections
interleave.

**Ring and arithmetic.** `RingBuffer` has the two in-place operations,
`RingInterleaving` their interleaving byte by byte. `SequenceNumbers`,
`Geometry`, `CopySmall` and `SpinWait` are the message numbers, the segment
layout, the small-copy ladder and the adaptive spin. `SlotTypes`, `Arithmetic`
and `Finite` are shared definitions and facts.

## What turned out not to hold

Six things a reader of the code or its comments would expect fail. The code is
modelled as it is, and in each case a theorem gives the exact condition.

1. The comment on the zombie steal (go/direct.go:749-763) says the generation
   handshake protects a response whose waiter is alive. A stealer that won its
   generation CAS and stalls before its state CAS can still take it: meanwhile
   another sender recycles the same zombie and waits for its next response.
   `GuestCallHandOff.HandOffIsCertainIff`: the hand-off is certain exactly when
   at most one sender uses the slot, or no processor does.
2. A displaced waiter is then kept from a foreign answer only by the 32-bit
   message number. `GuestCallWrap.StraysIff`: a foreign answer is accepted
   exactly at distances that are whole counter wraps.
3. The two reassemblers are meant to be interchangeable. At 1024 live streams Go
   displaces the least recently active one and acknowledges, while C++ refuses;
   and C++ truncates ages to milliseconds before it compares.
   `ReassemblerParity.Parity` is an if-and-only-if over whole message sequences.
4. A pipelined sender is safe only up to a window depth.
   `StreamSender.NeverDroppedIff`: no schedule drops a stream exactly when at
   most 1025 of its chunks can be in flight.
5. A host configuration with an unaligned payload size is refused by its own
   guest. `Geometry.HostIsAcceptedIff` gives the accepted ones.
6. A guest slot's send is meant to reject every size beyond its buffer. Size
   -2^31 passes, since its negation wraps, and only the processor refuses it.
   `GuestCallReplies.ErrsIff`: that is exactly when a request is refused.

## Model

| member | source | states |
|---|---|---|
| GuestCallTheorems.ExactlyOneOwner | go/direct.go:764-801 | in every reachable state GUEST_BUSY has exactly one owning sender, BUSY one serving processor, DONE one publisher, and the other states no owner |
| GuestCallTheorems.OtherSenderStepsIgnoreMemory | go/direct.go:764-801 | every sender step outside the listed program points neither reads nor writes header, buffers or counter |
| GuestCallTheorems.OtherProcessorStepsIgnoreMemory | include/shm/GuestCallWorker.h:341-419 | the same for processor steps |
| GuestCallTheorems.AccessIsExclusive | go/guest_slot.go:94-239 | no two threads are ever both about to touch plain memory of the slot |
| GuestCallTheorems.PublishNeverFails | include/shm/GuestCallWorker.h:291-334 | neither phase of the two-phase publish ever finds the state word moved |
| GuestCallTheorems.SameSeq | go/direct.go:955-957 | two transactions of a slot share a number exactly when they are a multiple of 2^32 apart on the counter |
| GuestCallTheorems.ReturnedAnswer | go/direct.go:1035-1093 | bytes returned to a call are, in full, what a handler left for a transaction whose request that handler saw in full, at a whole number of wraps from the call's own |
| GuestCallTheorems.OwnAnswer | go/direct.go:837-1138 | within one wrap of the counter, a call that returns bytes returns the handler's answer to its own request |
| GuestCallTheorems.SystemErrorIsEarned | include/shm/GuestCallWorker.h:383-419 | a system error comes only from a request that did not fit, a handler whose returned size did not, or a request that carried that type itself |
| GuestCallReplies.ReturnsIff | include/shm/GuestCallWorker.h:341-419 | a call can return these bytes to this request, over all runs, if and only if the request fits and is not itself an error and the bytes fit the response buffer |
| GuestCallReplies.ErrsIff | go/guest_slot.go:104-111 | a request is answered with a refusal if and only if its size is -2^31, and with an overflow if and only if it fits and the handler's returned size does not |
| GuestCallReplies.RoundTripRun | go/direct.go:938-1093 | for every request that fits and everything a handler can leave and return within the buffer, a run that returns exactly the designated bytes, front or back |
| GuestCallInvariant.ClaimInv | go/direct.go:764-801 | claiming a free slot or stealing a zombie keeps ownership, memory and history invariants |
| GuestCallInvariant.SendInv | go/direct.go:938-978 | writing, numbering, arming and publishing a request keeps them |
| GuestCallInvariant.WaitInv | go/direct.go:1035-1060 | waiting, timing out, forfeiting and the consume CAS keep them |
| GuestCallInvariant.ReadInv | go/direct.go:1060-1093 | checking, reading and releasing a response keeps them |
| GuestCallInvariant.ServeInv | include/shm/GuestCallWorker.h:341-390 | claiming and reading a request keeps them |
| GuestCallInvariant.AnswerInv | include/shm/GuestCallWorker.h:391-419 | running the handler and the two-phase publish keep them: a published answer is the handler's bytes only if they fit the buffer, an overflow only if the returned size did not, a refusal only if the request did not |
| GuestCallHandOff.HandOffIsCertainIff | go/direct.go:749-801 | no waiter ever loses a response it waits for, over all runs, if and only if there is at most one sender or no processor |
| GuestCallHandOff.DisplacingRun | go/direct.go:774-799 | with two senders and a processor, a run that takes a response from under its live waiter, with every generation bump made |
| GuestCallGuard.GuardedCallIsNeverDisplaced | go/direct.go:764-801 | a call that arms its wait while every other sender has yet to look at the flag or holds an out-of-date generation keeps its response in every continuation, until it gives up or takes the answer of its own transaction |
| GuestCallRecovery.SlotIsNeverLost | go/direct.go:749-801 | from every reachable state with all threads at rest, whatever was abandoned, any sender can still make any call that fits and get any reply that fits |
| GuestCallRecovery.RaisedRun | go/direct.go:960-1060 | the active-wait flag is never up unless some sender is between arming and clearing it |
| GuestCallRecovery.OwnerLetsGo | go/direct.go:938-942 | an owner can always let the slot go unused, which frees it and changes nothing else |
| GuestCallWrap.StraysIff | go/direct.go:1035-1093 | a call can be handed the answer of the transaction d after its own if and only if there are two senders, a processor, and d is a whole number of wraps |
| GuestCallWrap.AlwaysOwnIff | go/direct.go:1035-1093 | over runs of any length every answer is the call's own if and only if there is at most one sender or no processor |
| HostSlotTheorems.AcceptedResponse | include/shm/SlotAllocator.h:767-938 | every response the host accepts is the worker's answer to the request of the same transaction, byte for byte, across timeouts, steals and panics |
| HostSlotTheorems.NoViolation | include/shm/SlotAllocator.h:788-800 | the number-mismatch branch and the failed second publish phase are unreachable, and a system error belongs to the same transaction |
| HostSlotTheorems.LateHandlerIsHarmless | go/direct.go:1187-1287 | a worker changes the header or publishes only while it holds the publish lock on the header's own transaction, and writes the response buffer only while the host is not reading |
| HostSlotTheorems.NoDoorbellIsLost | include/shm/SlotAllocator.h:141-244 | neither side is ever parked with its event unset while the state it waits for is published by a peer past its flag check |
| HostSlotTheorems.SystemErrorIsEarned | go/direct.go:1179-1201 | a system error on a host slot means that the handler of the same transaction panicked or returned that type; no published request is refused for its size |
| HostSlotReplies.ReturnsIff | go/direct.go:1289-1413 | a call can return this type and these bytes to this request, over all runs, if and only if the request fits and the answer is one its kind allows: any that fits for an ordinary one, the fixed empty one for a heartbeat or a shutdown |
| HostSlotReplies.ErrsIff | go/direct.go:1179-1201 | a call can get a system error if and only if its request fits and is ordinary |
| HostSlotReplies.RoundTripRun | include/shm/SlotAllocator.h:767-826 | a run with both sides parked and woken by their events that returns whatever the handler left and returned |
| HostSlotRecovery.StolenSlotServesOn | include/shm/SlotAllocator.h:265-295 | while the handler of an abandoned call still runs, the slot is stolen and the next call gets its own answer; the late one is dropped |
| HostSlotRecovery.SlotIsTakenBack | include/shm/SlotAllocator.h:265-295 | from every reachable state with the host idle or its call given up, it can take the slot, be it free or abandoned in any state but the one between the halves of a publish |
| HostSlotRecovery.FlagIsWithdrawn | include/shm/SlotAllocator.h:209-214 | the host's wait flag is up only while it waits |
| HostSlotRecovery.LateAnswerIsCollected | include/shm/SlotAllocator.h:706-761 | the host can wait again for a call it gave up on, and gets the late answer |
| HostSlotRecovery.HeldSlotServesOn | include/shm/SlotAllocator.h:869-939 | a slot kept after a call serves the next one without being claimed again |
| HostSlotRecovery.OversizedReplyIsTheWholeBuffer | include/shm/SlotAllocator.h:806-819 | a returned size beyond the response buffer brings back all of the buffer |
| HostSlotRecovery.LateHandlerSeesTheNext | go/direct.go:1379-1403 | a handler that lost its slot reads a live buffer and can see the next request's bytes |
| HostSlotRecovery.StopsForGood | go/direct.go:1360-1367 | a worker that read a shutdown request serves nothing in any continuation, whether its answer is taken or the slot was stolen |
| HostSlotInvariant.AcquireRoles | include/shm/SlotAllocator.h:265-295 | claiming and stealing keep who-is-where for each state word |
| HostSlotInvariant.SendMemory | include/shm/SlotAllocator.h:672-700 | filling, numbering and publishing keep what the header and buffers hold |
| HostSlotInvariant.WaitBells | include/shm/SlotAllocator.h:141-244 | spinning, parking and waking keep the no-lost-wakeup invariant |
| HostSlotInvariant.HandleMemory | go/direct.go:1345-1413 | the handler and its panic path keep what a worker knows of the slot, and no request the host publishes is ever refused unread |
| HostSlotInvariant.RespondPast | go/direct.go:1253-1287 | the two-phase publish keeps the record of requests and answers |
| HostSlotInvariant.NextInv | go/direct.go:1289-1413 | every step of either thread keeps the whole invariant |
| GuestDoorbell.NoRequestIsSleptThrough | include/shm/GuestCallWorker.h:124-184 | the waiter is never parked with the shared event unset while a slot holds a request whose sender is past its check |
| GuestDoorbell.ParkedWaiterIsWoken | include/shm/GuestCallWorker.h:124-184 | for any number of slots the waiter does park with all idle, and a request on any of them then rings and wakes it |
| GuestDoorbell.AwakeIsUnmarked | include/shm/GuestCallWorker.h:141-184 | in every reachable state an awake waiter has left no mark, and marking and clearing go slot by slot in order |
| GuestDoorbell.AwakeWaiterIsNotRung | go/direct.go:978-981 | while the waiter is awake a request is published without ringing |
| GuestDoorbell.WaiterInv | include/shm/GuestCallWorker.h:141-184 | marking, rechecking, parking and clearing N slots, one access at a time, keep the invariant |
| GuestDoorbell.SenderInv | go/direct.go:978-981 | publishing, looking at the flag and signalling keep it |
| Generation.GenCountsBumps | go/direct.go:727-729 | the generation is the number of bumps, so it never goes back |
| Generation.EachGenIsSpentOnce | include/shm/SlotAllocator.h:265-295 | no two winning claims, steals or reclaims start from the same generation |
| Generation.SwapWinsIff | go/direct.go:640-709 | a steal or reclaim wins its generation swap if and only if nothing bumped it since the snapshot |
| StreamSpec.Overlay | go/stream.go:272-276 | a chunk's bytes land at its destination and no other byte changes |
| StreamSpec.DrainKeepsShape | go/stream.go:642-661 | draining moves bookkeeping only |
| StreamSpec.FeedAll | go/stream.go:605-688 | feeding chunks never changes a live stream's size, count, tag or buffer length |
| StreamSoundness.DrainInv | go/stream.go:642-661 | the drain loop keeps the accounting, byte counts included, and fails only at a misplaced record |
| StreamSoundness.InOrderInv | go/stream.go:625-641 | accounting an in-order chunk keeps the accounting and the faithfulness of singly covered bytes |
| StreamSoundness.AheadInv | go/stream.go:292-302 | recording a chunk ahead of the cursor keeps them |
| StreamSoundness.Tiled | go/stream.go:671-682 | accepted chunks at their running offsets that fill the size cover every byte exactly once |
| StreamSoundness.ConsumeInv | go/stream.go:600-701 | one chunk with any index, size, payload and destination keeps the invariant, or drops, or delivers the index-order concatenation |
| StreamSoundness.DeliveredIsFirstArrivals | go/stream.go:600-701 | for every chunk sequence a live context satisfies the invariant, and a delivered buffer is the first-arriving payload of every index, in index order, of exactly the advertised length |
| StreamVerdict.ExactVerdict | go/stream.go:605-688 | after any chunks that left the stream live, the verdict on the next one, whatever its index, destination and payload, in terms of the first arrivals so far: rejected, repeated, ruinous, completing or accepted, with exact conditions |
| StreamVerdict.DrainExact | go/stream.go:642-661 | the drain succeeds if and only if every record from the cursor up to the first missing index sits at its running offset, and then stops at that index |
| StreamCompleteness.ArrivalVerdict | go/stream.go:605-668 | a chunk of a conforming stream is dropped if and only if it does not fit the window, and is never rejected |
| StreamCompleteness.ExactOutcome | go/stream.go:605-688 | any arrival order with repeats of a conforming stream is dropped iff some arrival exceeds the window, delivered with the original data iff within it and complete, and live otherwise |
| StreamSender.Cut | include/shm/Stream.h:249-309 | the chunk loop yields the advertised number of chunks, each the right slice at the right offset and index |
| StreamSender.PieceCount | include/shm/Stream.h:228-229 | the advertised count is the number of pieces |
| StreamSender.PiecesFlatten | go/stream_sender.go:231-254 | the pieces in order are the data |
| StreamSender.HandledWithinWindow | include/shm/Stream.h:256-328 | every order the FIFO window allows stays within the reassembler's bound |
| StreamSender.ParkedAtMostDepthMinusOne | include/shm/Stream.h:256-328 | a receiver never holds more than depth - 1 chunks ahead |
| StreamSender.RoundTrip | include/shm/Stream.h:177-331 | any data, cut and handled in any order the window allows, is reassembled to exactly that data and never dropped on the way |
| StreamSender.NeverDroppedIff | include/shm/Stream.h:256-328 | no schedule drops the stream if and only if the depth or the chunk count is at most 1025 |
| StreamSender.CanFinishIff | include/shm/Stream.h:256-328 | the pipelined send can run to its end if and only if its depth is positive or there is nothing to send |
| StreamSender.HandledOnce | include/shm/Stream.h:256-328 | no chunk is handled twice in any schedule |
| StreamWire.StartRoundTrip | go/stream_sender.go:28-33 | a start decodes to what was sent, whatever follows it in the buffer |
| StreamWire.StartLayout | go/stream_sender.go:28-33 | every field of a start is its little-endian bytes at its own offset: id 0-7, size 8-15, count 16-19, tag 20-23 |
| StreamWire.ChunkRoundTrip | go/stream_sender.go:38-44 | a chunk decodes to what was sent, whatever follows it |
| StreamWire.ChunkLayout | go/stream_sender.go:38-44 | every field of a chunk header is its little-endian bytes at its own offset, and the payload follows the header |
| StreamWire.StartInverse | go/stream.go:450-469 | every 24 bytes are some start, and re-encoding gives them back |
| StreamWire.ChunkInverse | go/stream.go:554-577 | re-encoding a decoded chunk gives its bytes back with the padding cleared |
| StreamWire.TruncatedIsMalformed | go/stream.go:554-577 | every proper prefix of a start's header or of a chunk message is malformed |
| StreamWire.PutStreamHeader | go/stream_sender.go:28-33 | the buffer starts with the encoded header and is otherwise unchanged |
| StreamWire.PutChunkHeader | go/stream_sender.go:38-44 | the same for a chunk header, padding zero |
| GoReassembler.StreamContext.Write | go/stream.go:272-276 | the in-place copy is the overlay of the payload |
| GoReassembler.StreamContext.AccountInOrder | go/stream.go:279-282 | moves the cursor over one chunk and changes nothing else |
| GoReassembler.StreamContext.NotePlaced | go/stream.go:292-302 | records a chunk, or nothing when the bound is reached |
| GoReassembler.StreamContext.DrainPlaced | go/stream.go:642-661 | the loop is the specified drain |
| GoReassembler.StreamContext.ContextSection | go/stream.go:597-688 | the whole context section is the specified consumption of a chunk, and leaves a finished or reclaimed context untouched |
| GoReassembler.Reassembler.Reclaim | go/stream.go:512-515 | marks one context and unlinks it, and nothing else |
| GoReassembler.Reassembler.Prune | go/stream.go:510-517 | leaves exactly the streams within their age |
| GoReassembler.Reassembler.FindOldest | go/stream.go:526-534 | finds a stream no other was active before |
| GoReassembler.Reassembler.MakeRoom | go/stream.go:524-540 | displaces one least recently active stream exactly when a new id meets a full table |
| GoReassembler.Reassembler.Install | go/stream.go:541-548 | publishes a fresh context, marking the one it replaces |
| GoReassembler.Reassembler.HandleStart | go/stream.go:450-552 | the in-place start handler is the specified start, on every request |
| GoReassembler.Reassembler.Retire | go/stream.go:435-441 | removes the entry only if it is still this context |
| GoReassembler.Reassembler.HandleChunk | go/stream.go:554-704 | the in-place chunk handler is the specified chunk step on every request, reply included; EveryChunkIsAnswered says what that reply is |
| CppReassembler.Reassembler.PruneInternal | include/shm/StreamReassembler.h:277-287 | leaves exactly the streams within their age in whole milliseconds |
| CppReassembler.Reassembler.Update | include/shm/StreamReassembler.h:566-690 | the in-place update of an entry is the specified consumption of a chunk |
| CppReassembler.Reassembler.HandleStart | include/shm/StreamReassembler.h:447-528 | the start branch of the handler is the specified start |
| CppReassembler.Reassembler.HandleChunk | include/shm/StreamReassembler.h:530-695 | the chunk branch of the handler is the specified chunk step, reply included; EveryChunkIsAnswered says what that reply is |
| ReassemblerSpec.GoStepInv | go/stream.go:498-550 | every Go step keeps the table within its cap, shaped, and totally ordered by activity |
| ReassemblerSpec.CppStepShaped | include/shm/StreamReassembler.h:498-524 | every C++ step keeps the table within its cap and shaped |
| ReassemblerStarts.GoStartIsAnswered | go/stream.go:450-552 | Go acknowledges a start if and only if it is at most 1 GiB in at most 2^20 chunks with no bytes without chunks, delivers exactly the empty ones at once, and opens exactly the others, dated now |
| ReassemblerStarts.CppStartIsAnswered | include/shm/StreamReassembler.h:447-528 | the same for C++, which also refuses exactly when 1024 streams are left after pruning |
| ReassemblerStarts.OpeningCosts | go/stream.go:498-550 | an opening start keeps every other stream within its age unchanged, except that a new id at 1024 costs exactly the one active least recently |
| ReassemblerStarts.TouchedIsNewest | go/stream.go:585-594 | a start, or a chunk in range, makes its stream the most recently active, and the others keep their place |
| ReassemblerStarts.ActivityIsLastTouch | go/stream.go:520-540 | in every run the order of activity is the order in which the live streams were last touched |
| ReassemblerStarts.ChunksDoNotRenew | go/stream.go:554-704 | no chunk makes a stream younger |
| ReassemblerParity.ExpiryTests | include/shm/StreamReassembler.h:280-282 | the two expiry tests differ exactly in the millisecond after the timeout |
| ReassemblerParity.ParityStep | include/shm/StreamReassembler.h:447-698 | one message leaves both peers with the same reply, deliveries and streams if and only if it is not a start at the cap or at the expiry edge |
| ReassemblerParity.SameDeliveries | go/stream.go:474-484 | both deliver the same even where they part |
| ReassemblerParity.Parity | go/stream.go:450-710 | over every message sequence the peers agree throughout if and only if no message is a start at the cap or at the edge |
| ReassemblerParity.QuietParity | go/stream.go:450-710 | up to 1024 openings within one timeout are answered alike, whatever else is sent |
| ReassemblerParity.CapIsReached | include/shm/StreamReassembler.h:499-505 | 1025 streams opened at once reach the divergence |
| ReassemblerParity.GoRunInv | go/stream.go:498-550 | every reachable Go table is within the cap and ordered |
| ReassemblerTheorems.GoRunIsChronicle | go/stream.go:450-704 | every run of the Go handler follows the steps common to both peers |
| ReassemblerTheorems.CppRunIsChronicle | include/shm/StreamReassembler.h:447-698 | so does every message sequence through the C++ handler |
| ReassemblerTheorems.EveryDeliveryIsJustified | go/stream.go:683-701 | over all traffic, a delivery is the first arrivals since the last accepted start of its id, under that start's tag, or an empty stream |
| ReassemblerTheorems.NoStartIsDeliveredTwice | go/stream.go:683-701 | between two deliveries of an id lies an accepted start of it |
| ReassemblerTheorems.EveryChunkIsAnswered | go/stream.go:554-704 | over all traffic, a chunk is acknowledged if and only if its stream is live, its index is in range and it does not ruin the stream, judged from the first arrivals since the start; one that retires its stream without a delivery, or names none, gets an error |
| ReassemblerTheorems.MalformedChunkIsAnError | go/stream.go:554-577 | a malformed chunk is answered with an error and changes nothing |
| ReassemblerTheorems.ConformingIsAcknowledged | go/stream.go:605-704 | every chunk of a conforming stream within the window, repeats included, is acknowledged until the stream is complete and refused after |
| ReassemblerTheorems.EpisodeOutcome | go/stream.go:554-704 | in any traffic that does not disturb a stream, the table and its deliveries are the outcome of its own chunks |
| ReassemblerTheorems.SenderIsUnderstood | include/shm/Stream.h:177-298 | what a sender within the size and count bounds writes decodes, and its start is one that opens |
| ReassemblerTheorems.EndToEnd | include/shm/Stream.h:177-331 | during a pipelined send either handler acknowledges every chunk, and once it is drained has delivered exactly the sender's data, exactly once, under its tag |
| ReassemblerThreads.NextInv | go/stream.go:435-701 | every map section, context section, retirement and callback keeps the invariant, in any interleaving |
| ReassemblerThreads.DeliversAtMostOnce | go/stream.go:600-701 | each context delivers at most once, and then the first arrivals of what its sections consumed in lock order; with DeliversExactlyOnce, exactly once |
| ReassemblerThreads.DeliversExactlyOnce | go/stream.go:683-701 | in every reachable state a completed context has been delivered exactly once, or a thread is on its way to deliver it |
| ReassemblerThreads.EveryStreamCanRun | go/stream.go:554-704 | for every start that opens and every chunk sequence, a run that feeds them to it and delivers, drops or keeps the stream as the specification says |
| ReassemblerThreads.LiveIsLinked | go/stream.go:435-441 | a context neither finished nor reclaimed is always in the map under its id, so no retirement removes a newer one, and the map stays within its cap |
| ReassemblerThreads.ReclaimedAbsorbsNothing | go/stream.go:597-603 | in every continuation a reclaimed context absorbs nothing more, except the chunk of a thread already inside it |
| ReassemblerThreads.DisplacesLeastRecentlyActive | go/stream.go:524-540 | a start displaces only at the cap and only for a new id, exactly one stream, whose last use in the order of map sections is the earliest of those kept |
| ReassemblerAdmission.NoStrayChunkIsConsumed | go/stream.go:578-594 | no interleaving lets a context consume a chunk out of its range |
| ReassemblerAdmission.AdmissionIsActivity | go/stream.go:585-594 | every chunk let past the map section makes its stream the most recently active |
| ReassemblerThreads.NoDeadlock | go/stream.go:339-362 | a thread in mid-message can always go on, or waits for a lock whose holder can |
| RingBuffer.StoredAppends | include/shm/RingBuffer.h:94-106 | the two-piece store into free space appends to what is unread |
| RingBuffer.TwoPieces | go/ringbuffer.go:77-88 | the unread window is a run to the ring's end and a run from its start |
| RingBuffer.Ring.WritePass | include/shm/RingBuffer.h:79-110 | one pass appends as much as fits to the contents, and nothing when full or when the offsets are out of order |
| RingBuffer.Ring.Write | include/shm/RingBuffer.h:73-121 | the writer's loop against any reader: bytes come out in order, none lost or invented, and a reader that keeps reading lets it finish |
| RingBuffer.Ring.Read | go/ringbuffer.go:59-92 | takes a prefix of the contents, leaves the rest, and answers a corrupt header with nothing |
| RingInterleaving.FifoInEveryInterleaving | go/ringbuffer.go:59-92 | in every interleaving byte by byte, what was read plus what the ring holds is what was written, it never overfills, and the corruption guard never fires |
| RingInterleaving.EveryStringGetsThrough | include/shm/RingBuffer.h:79-117 | for every capacity and every byte string, a run that writes and reads exactly those bytes |
| RingInterleaving.BatchGetsThrough | go/ringbuffer.go:59-92 | after any earlier traffic one pass of a write moves as much as the ring holds, and one read as much of that as its buffer holds |
| RingInterleaving.WriterInv | include/shm/RingBuffer.h:79-117 | every writer step keeps the invariant |
| RingInterleaving.ReaderInv | go/ringbuffer.go:59-92 | every reader step keeps it |
| SequenceNumbers.SharedIff | include/shm/SlotAllocator.h:779-781 | two sends share a number exactly when their counters are a multiple of 2^32 apart |
| SequenceNumbers.NumbersAreDistinct | include/shm/DirectHost.h:472-539 | below 2^32 the number tells slot and send apart |
| SequenceNumbers.Sequencer.Stamp | go/direct.go:955-957 | hands out the slot's index plus one plus its sends times the slot count, modulo 2^32, which was never used on any slot while no counter has wrapped |
| Geometry.HostIsAcceptedIff | include/shm/DirectHost.h:474-485 | a host's header is accepted if and only if the counts are in range and the payload size is under 128, or 8-aligned and at most 1 GiB |
| Geometry.AcceptedIff | go/direct.go:316-400 | a guest refuses a header exactly when a count or size is out of range, something is unaligned, or a buffer is empty |
| Geometry.Init | include/shm/DirectHost.h:474-536 | the host's arithmetic and pointer walk give the specified header and slots, and share every slot out: from 128 bytes on the request buffer is the largest multiple of 64 whose double fits and the response buffer is the rest, below that both are 64 |
| Geometry.HalvesAreEven | include/shm/DirectHost.h:474-482 | the two buffers differ by less than 128 bytes, and no larger whole-line half would fit |
| Geometry.GuestSlots | go/direct.go:401-455 | the guest's walk gives the same slots |
| Geometry.SlotsAreSeparate | go/direct.go:316-416 | for every accepted header no two headers or buffers of any slots overlap |
| Geometry.SlotsAreInside | go/direct.go:316-416 | and every slot is inside the mapping with its atomics 8-aligned |
| CopySmall.Copy | include/shm/Platform.h:214-229 | for every size the ladder is a plain copy of n bytes and touches nothing outside |
| CopySmall.TwoWindows | include/shm/Platform.h:214-229 | two windows that cover n bytes are one copy of n bytes |
| CopySmall.WindowsMustMeet | include/shm/Platform.h:214-229 | windows that leave a gap are not |
| SpinWait.WaitStrategy.Wait | go/spin.go:111-142 | the plain spin resolves as specified: answer, number of readings and next limit |
| SpinWait.WaitStrategy.WaitState | go/spin.go:207-241 | the chunked spin resolves as the same specification, for every sequence of observations |
| SpinWait.SpinUntil | go/spin_amd64.s:29-53 | one burst stops at the first hit of its window |
| SpinWait.ReadyIffSeen | go/spin.go:111-142 | the answer is whether any reading saw the condition, and only the last can |
| SpinWait.LimitStaysBounded | go/spin.go:153-194 | any sequence of waits keeps the limit between 100 and 50000 |
| SpinWait.AdaptedMoves | go/spin.go:153-194 | within its bounds a hit adds 5000 up to 50000 and never lowers the limit, a miss takes 1000 down to 100 and never raises it |
| SpinWait.RunsOfOutcomes | go/spin.go:153-194 | the limit after any run of hits or of misses, in closed form |
| SpinWait.WaitStrategy.RecordOutcome | go/spin.go:153-194 | moves the limit by the step for a hit or a miss, clamped |

## Left out

- The slot protocols, the doorbells, the generation handshake and the interleaved reassembler are transition systems over values, not classes: every interleaving of their steps is the point, and a class method would fix one. Aliasing between the mapped segment's views is not captured there.
- Weak memory: steps are sequentially consistent. The 64-bit wrap of the generation, of the activity counter and of the ring offsets is not modelled.
- GuestCallTheorems.OwnAnswer: assumes less than one wrap of the 32-bit counter since the call, because without that it is false; GuestCallWrap.StraysIff has the exact distances.
- HostSlotTheorems.LateHandlerIsHarmless: says nothing about what a late handler reads from the request buffer after the slot was stolen; HostSlotRecovery.LateHandlerSeesTheNext shows that it can read the next request.
- StreamSender.RoundTrip: a chunk whose wait fails is not retried; a failed send ends the run, as in the source.
- ReassemblerTheorems.EndToEnd: asks that the stream is not started again, expired or displaced while it is sent.
- Several host threads on one host slot, the plain-store consume of the fast path, and lease-based reclaim: they rely on the caller's discipline or a caller-chosen age, and no exclusion holds at this grain.
- The Go pipelined sender: its semaphore counts tokens and bounds no order, so there is no window to prove.
- ReassemblerThreads.DeliversExactlyOnce: the replies of interleaved handlers are not recorded; ReassemblerTheorems.EveryChunkIsAnswered has them for one handler at a time.
- Configurations of the C++ reassembler other than the default limits (its timeout is a parameter), allocation failure, and the fallback handler for other messages.
- Each message is handled with one reading of the clock.
- Named events, mappings, locks and their failures; an event is one auto-reset flag.
- Heartbeats and shutdown on guest slots, attach and detach, affinity, logging, benchmark counters and the thin client wrappers: they would only add easy members.
