# Outpost-Pi: verified models of its stateful protocols

This project models, in Dafny, the parts of Outpost-Pi (a relay and an agent extension) whose correctness
rests on an invariant that no single function establishes, and proves those invariants and what follows
from them over whole runs.

| file | models |
|---|---|
| `OfflineBuffer.dfy`, `OwnerMultiplexer.dfy`, `OwnerMachine.dfy` | the app-owner channel registry: attach, detach, fan-out with a two-slot offline buffer, replay on return, remembered compaction keys, and the gate that orders channel generations; and one owner's life in it |
| `RelayDispatch.dfy`, `RelayFrames.dfy` | one relay binding's dispatch queue: two admission budgets, one FIFO, an asynchronous drain, release on unbind, a counted overflow audit; and one frame's dispatch |
| `UserDelivery.dfy`, `DeliveryFrames.dfy` | user-message delivery: in-flight coalescing, the delivered-id check, the two-place replay queue; and one frame's way through it |
| `RuntimeCoordinator.dfy` | ownership leases of the process-wide runtime |
| `CaptureUpload.dfy`, `UploadProtocol.dfy`, `CaptureRetention.dfy` | chunked capture uploads up to their acknowledgement, what each message of an upload means, and pruning of old captures |
| `MeshInbox.dfy`, `MeshWake.dfy` | the drop-oldest inbox and the rate-capped wake |
| `FixedWindow.dfy`, `Subscriptions.dfy` | the relay's fixed-window budget and bidirectional subscription index |
| `CanonicalJson.dfy`, `CanonicalText.dfy`, `Base64.dfy`, `EditHunk.dfy` | canonical JSON and which text of a value it is, canonical base64 acceptance, and edit-to-hunk construction |
| `Prelude.dfy` | UTF-16 text, options, distinct lists and suffixes |

**How state is modelled.** Each stateful component has a class with the source's operations. For the four
largest (registry, dispatch queue, delivery, capture upload) the private fields of the source's object or
closure are the parts of one record, and a method reassigns them one after another as the source does. Every
method is proved equal to a step of a transition function on that record, loops included, and the invariants
are lemmas over all steps and all runs of that function. The record also carries histories (frames broadcast
since an owner left, cells released, wakes made); no decision of an operation reads them. Code between two
awaits is one step; clocks, outcomes of sends, handlers, wakes and writes are inputs of the steps.

**What the steps are held to.** Beside each of these four stands a reference, defined apart from its transitions, that
says what every step must do, seen from one participant: an owner (`OwnerMachine.OwnerStep`), a relayed frame
(`RelayFrames.FrameDispatched`), a user message (`DeliveryFrames.StepFollows`), an upload and its decoded bytes
(`UploadProtocol.ChunkLaw` and its neighbours). The registry is proved to be its owners' machines side by side,
and the others to follow their references in every step or run. The canonical text is pinned down without the
printer as well: it is the shortest well-formed text of its value (`CanonicalText.QuotedExactly`,
`CanonicalIsShortest`).

**Where the code does less than its documentation says.** The code is followed, and the exact condition is proved.

- *Compaction keys outlive their owner.* A replay send may disconnect the channel, which detaches the owner
  and forgets its keys; the loop then remembers the frame it had just sent, for an owner no longer attached.
  This happens exactly when the frame at which the flush is cut short is a timestamped compaction
  (`StepKeys`, `KeysOutliveOwnerIff`; `KeysCanOutliveOwner` from the start); the early return of `detach` is right exactly when it has not happened
  (`NobodyToForget`).
- *A session reset can let a duplicate wake the agent twice.* A reset erases the delivered ids and the
  in-flight table of every session, while the replacement context has been bound, and the replay queue
  drained, before it; the fresh-session shutdown stages it behind a fence that is lifted again when its
  runtime turns out to be stale. In any state the rest of the session keeps at-most-once exactly when no key
  was woken twice, no waking attempt repeats one, and no *exposed* key belongs to the session: one not
  recorded as delivered, although it was woken or has an unfinished attempt the in-flight table does not hold
  (`SessionExact`). So a reset keeps it for the rest of the session exactly when the session has nothing
  woken or unfinished (`ResetExact`), and a move to another session exactly when that session has no exposed
  key (`SwitchExact`). Runs whose resets and moves all pass these tests keep it throughout
  (`AtMostOneWake`), and after the first that does not, some run loses it (`UnsafeRunDoubles`); from the
  start, delivering, resetting in place and delivering again does (`DuplicateWakesTwice`). Behind a fence
  that is not lifted, and with no attempt of the session forgotten while it runs, an exposed key does harm
  exactly when a frame already admitted can be attempted for it (`HeldFenceExact`).
- *A wake can be lost.* The coordinator reads the clock for the decision and again for the re-check delay. An
  edge is left uncovered exactly when nothing covered it before and the two readings fall on different sides
  of the cap (`DecisionCovers`, `LostWake`); with one reading per step it never is. Over every run, while a
  local message is unread, a wake is out or a re-check armed exactly when the last decision was not such a
  one (`WakeCoordinator.Valid`), so the next drain recovers.
- *The inbox's message limit.* The newest entry is always kept, so a limit of zero retains one message
  (`RetainedWithinLimits`).
- *A hunk shows whole lines only.* For any edit, wherever in the file it starts and ends, the hunk turns the
  file's lines into the edited file's lines exactly when the edit starts at the beginning of a line, ends at a
  line boundary, and old and new text agree on whether they end a line, or when both texts are empty
  (`HunkPatchesFile`; `JoinedLinesNotShown`, `FragmentsShownAsLines`).
- *The known-peer lookup waits for no gate.* When the frame of an established owner leaves the drain loop,
  every generation detached so far has settled; the gate is not looked at again after the lookup. At the
  attach all generations have settled exactly when the owner then has no gate or its gate has settled
  (`SettledIffGateOpen`, `AttachKnown`; `LookupOutrunsGate`).
- *Two slots hold one finished turn.* What is kept is the longest fitting suffix made of whole turns exactly
  when the last two finished turns with frames do not fit together with the open one (`KeptIsLongestIff`;
  `OlderTurnGivenUp`). Among what two slots can hold, the longest is kept (`KeptIsGenerous`).
- *Not every capture message gets a reply.* An `end` that goes on to its commit gets exactly one reply if and
  only if nothing releases the upload before the commit settles (`EndRepliedExactly`): no detach of its owner,
  of its channel or of all, no dispose, and no collection while it is stale (`Releases`, `StaysActive`). A run
  from the start loses the reply to a collection (`EndUnanswered`).

## Model

| member | source | states |
|---|---|---|
| `OfflineBuffer.BufferMessage` | pi-extension/src/extension/owner_multiplexer.ts:675-705 | buffering a frame takes the meaning of a history to the meaning of that history and the frame: both caps, the sealed interval given up first, overflow empties the buffer |
| `OfflineBuffer.SealTurn` | pi-extension/src/extension/owner_multiplexer.ts:649-659 | sealing a turn takes the meaning of a history to the meaning of that history and a turn end; an empty open interval leaves the sealed one |
| `OfflineBuffer.TakeNext` | pi-extension/src/extension/owner_multiplexer.ts:661-673 | frames come back completed first, then current, and each counter falls by the size of its frame |
| `OfflineBuffer.IntervalsAreSuffix` | pi-extension/src/extension/owner_multiplexer.ts:638-659 | the last non-empty sealed interval followed by the open one is a contiguous suffix of all frames broadcast while offline |
| `OfflineBuffer.KeptIsSuffix` | pi-extension/src/extension/owner_multiplexer.ts:638-705 | what an owner gets back is a contiguous suffix of the frames broadcast since it left |
| `OfflineBuffer.MeaningIsKept` | pi-extension/src/extension/owner_multiplexer.ts:675-705 | in every reachable buffer the slots hold exactly the kept frames, the byte counters are their sums, both combined caps hold, and overflow is flagged exactly when the open interval cannot fit |
| `OfflineBuffer.OverflowKeepsNothing` | pi-extension/src/extension/owner_multiplexer.ts:693-701 | an open turn too big to hold gives everything up, the turns before it included |
| `OfflineBuffer.KeptIsGenerous` | pi-extension/src/extension/owner_multiplexer.ts:649-705 | no suffix of the history that starts at a turn boundary, holds at most one finished turn with frames and fits the caps is longer than the kept frames |
| `OfflineBuffer.KeptIsWhole` | pi-extension/src/extension/owner_multiplexer.ts:649-705 | unless the open interval alone does not fit, the kept frames are such a suffix |
| `OfflineBuffer.KeptIsLongestIff` | pi-extension/src/extension/owner_multiplexer.ts:649-705 | the kept frames are the longest fitting suffix made of whole turns if and only if no fitting suffix holds exactly two finished turns with frames |
| `OfflineBuffer.OlderTurnGivenUp` | pi-extension/src/extension/owner_multiplexer.ts:649-655 | of two small finished turns the older is given up although both fit |
| `OwnerMultiplexer.StepValid` | pi-extension/src/extension/owner_multiplexer.ts:493-776 | every operation keeps the registry consistent: inverse channel maps, disjoint offline and late sets of attached owners, buffers only for offline owners and equal to what their histories mean, at most 128 distinct keys per owner, a hint naming an attached owner, every detached generation settled or chained into the gate |
| `OwnerMultiplexer.RunValid` | pi-extension/src/extension/owner_multiplexer.ts:493-776 | so is every state of every run |
| `OwnerMultiplexer.NobodyToForget` | pi-extension/src/extension/owner_multiplexer.ts:536-568 | for an owner without a channel, forgetting it everywhere changes nothing exactly when no remembered key has outlived it: the early return of detach is right |
| `OwnerMultiplexer.ContentsAreKept` | pi-extension/src/extension/owner_multiplexer.ts:606-632 | what an offline owner has buffered is exactly the kept part of its history |
| `OwnerMultiplexer.StepKeys` | pi-extension/src/extension/owner_multiplexer.ts:606-632 | from a state whose keys all belong to attached owners, a step keeps that so if and only if it is not a flush cut short by a disconnect at a keyed compaction |
| `OwnerMultiplexer.RunKeys` | pi-extension/src/extension/owner_multiplexer.ts:606-725 | over any run without such a flush, remembered keys exist only for attached owners |
| `OwnerMultiplexer.RememberedBounded` | pi-extension/src/extension/owner_multiplexer.ts:707-721 | remembering a key keeps the set distinct, non-empty and within 128, and loses no key below the cap |
| `OwnerMultiplexer.QuietFlushDeliversAll` | pi-extension/src/extension/owner_multiplexer.ts:606-624 | a flush whose sends all succeed delivers every kept frame in order |
| `OwnerMultiplexer.KeysOutliveOwnerIff` | pi-extension/src/extension/owner_multiplexer.ts:615-624 | a flush leaves keys behind for a detached owner exactly when the first disconnecting frame is a keyed compaction |
| `OwnerMultiplexer.KeysCanOutliveOwner` | pi-extension/src/extension/owner_multiplexer.ts:606-632 | from the start: an owner misses one timestamped compaction, returns over a channel that the replay disconnects, and its key stays behind with no owner attached |
| `OwnerMultiplexer.ReplayIsFlush` | pi-extension/src/extension/owner_multiplexer.ts:606-632 | the replay loop, send by send and with the re-entrant detach, does what the closed form of a flush says |
| `OwnerMultiplexer.FlushDelivers` | pi-extension/src/extension/owner_multiplexer.ts:611-624 | a flush delivers the frames before its first disconnect, less those whose send threw |
| `OwnerMachine.OwnerStep` | pi-extension/src/extension/owner_multiplexer.ts:493-776 | what any step does to an owner depends on that owner alone, and is what the owner's own machine does: its channel, whether it is offline or late, what it missed, what its channel accepted, its remembered keys, the channels it left and its gate, whatever the other owners do |
| `OwnerMachine.StepWorld` | pi-extension/src/extension/owner_multiplexer.ts:493-580 | a step numbers at most its own new channel and settles at most its own |
| `OwnerMachine.OwnerLife` | pi-extension/src/extension/owner_multiplexer.ts:493-776 | so over every run an owner's life is its machine's |
| `OwnerMachine.Misses` | pi-extension/src/extension/owner_multiplexer.ts:638-659 | over any run that does not touch it, an offline owner misses exactly the broadcasts and turn ends of the run |
| `OwnerMachine.ReturnDeliversKept` | pi-extension/src/extension/owner_multiplexer.ts:598-705 | an owner that goes offline, misses any run of steps and returns over a working channel has received exactly the kept suffix of that run's broadcasts, after what it had |
| `OwnerMachine.ReturnDelivers` | pi-extension/src/extension/owner_multiplexer.ts:598-705 | the same whatever the sends do: over a channel that lasts, the kept frames less those whose send threw; over one that disconnects the owner is detached, with the key of the frame it was cut at |
| `OwnerMachine.SyncResumes` | pi-extension/src/extension/owner_multiplexer.ts:747-757 | a session_sync on an offline owner's current channel brings it online with nothing replayed, buffered or missed, and touches no other owner; on any other channel, or for an owner online, it changes nothing |
| `OwnerMachine.SyncSkipsMissed` | pi-extension/src/extension/owner_multiplexer.ts:747-757 | an owner that goes offline, misses any run of steps and then syncs receives none of that run's broadcasts, and the next one directly |
| `OwnerMachine.HintFollows` | pi-extension/src/extension/owner_multiplexer.ts:493-568 | the hint names the owner last attached; when an owner of that short id leaves, it names the owner attached longest |
| `OwnerMachine.RemembersNewest` | pi-extension/src/extension/owner_multiplexer.ts:707-721 | of distinct delivered compaction keys, the newest 128 are remembered |
| `OwnerMachine.RemembersAllWithinCap` | pi-extension/src/extension/owner_multiplexer.ts:707-721 | while all keys together are within the cap, repeated ones included, none is forgotten |
| `OwnerMultiplexer.SettledChain` | pi-extension/src/extension/owner_multiplexer.ts:570-580 | a gate has settled exactly when every generation chained into it has |
| `OwnerMultiplexer.NoGateAllSettled` | pi-extension/src/extension/owner_multiplexer.ts:320-335 | an owner without a gate has no unsettled generation among all it ever detached |
| `OwnerMultiplexer.GateDeletedOnlyByItself` | pi-extension/src/extension/owner_multiplexer.ts:570-580 | a step either keeps every gate (perhaps chaining a later one onto it) or is the continuation of the owner's own latest gate, once everything chained into it settled |
| `OwnerMultiplexer.NothingLeft` | pi-extension/src/extension/owner_multiplexer.ts:540-568 | after a detach the rest of an outer one finds nothing left to forget |
| `OwnerMultiplexer.SettledAfterLookup` | pi-extension/src/extension/owner_multiplexer.ts:320-339 | after the lookup the generations that had settled are still settled, and all have exactly when the gate entry, looked at again, is absent or settled |
| `OwnerMultiplexer.SettledIffGateOpen` | pi-extension/src/extension/owner_multiplexer.ts:318-335 | in any consistent state every generation of an owner has settled if and only if the owner has no gate or its gate has settled |
| `OwnerMultiplexer.LookupOutrunsGate` | pi-extension/src/extension/owner_multiplexer.ts:337-352 | attached and detached again during the lookup, an owner has an unsettled generation at its end |
| `OwnerMultiplexer.Superseded` | pi-extension/src/extension/owner_multiplexer.ts:747-757 | dropping the buffer and coming online, as a session_sync does, is coming online with nothing to replay |
| `OwnerMultiplexer.AddKey` | pi-extension/src/extension/owner_multiplexer.ts:714-720 | the eviction loop leaves the newest 128 keys |
| `OwnerMultiplexer.OwnerMultiplexer.constructor` | pi-extension/src/extension/owner_multiplexer.ts:214-226 | starts empty and consistent, no key outliving its owner |
| `OwnerMultiplexer.OwnerMultiplexer.TrackReattachDrain` | pi-extension/src/extension/owner_multiplexer.ts:570-580 | the new gate waits for the channel and for the gate before it |
| `OwnerMultiplexer.OwnerMultiplexer.Detach` | pi-extension/src/extension/owner_multiplexer.ts:536-568 | without a reason: forgets the owner in every map and set, chains a gate for a draining channel, and moves the hint to the first owner left |
| `OwnerMultiplexer.OwnerMultiplexer.Forget` | pi-extension/src/extension/owner_multiplexer.ts:556-567 | the deletions, and the hint |
| `OwnerMultiplexer.OwnerMultiplexer.DetachWithReason` | pi-extension/src/extension/owner_multiplexer.ts:540-568 | with a farewell whose send may disconnect the channel and so run a whole detach inside this one: the outcome is one detach and a second gate for the same channel |
| `OwnerMultiplexer.OwnerMultiplexer.Attach` | pi-extension/src/extension/owner_multiplexer.ts:493-522 | replaces any earlier channel by a fresh one; the registry stays consistent |
| `OwnerMultiplexer.OwnerMultiplexer.DetachAll` | pi-extension/src/extension/owner_multiplexer.ts:582-592 | detaches every owner, any of whose farewells may disconnect, and leaves none attached |
| `OwnerMultiplexer.OwnerMultiplexer.MarkPeerOffline` | pi-extension/src/extension/owner_multiplexer.ts:598-604 | suspends an attached online owner, and reports whether it did |
| `OwnerMultiplexer.OwnerMultiplexer.RememberFlushedCompaction` | pi-extension/src/extension/owner_multiplexer.ts:707-721 | remembers a timestamped compaction's key and nothing else |
| `OwnerMultiplexer.OwnerMultiplexer.Replay` | pi-extension/src/extension/owner_multiplexer.ts:611-624 | the loop over the buffer, ended by a disconnect, refines the frame-by-frame replay |
| `OwnerMultiplexer.OwnerMultiplexer.MarkPeerOnline` | pi-extension/src/extension/owner_multiplexer.ts:606-632 | replays the buffer and lifts the suspension; reports whether the owner was offline |
| `OwnerMultiplexer.OwnerMultiplexer.BufferOfflineMessage` | pi-extension/src/extension/owner_multiplexer.ts:675-705 | the owner's buffer becomes what its longer history means |
| `OwnerMultiplexer.OwnerMultiplexer.SendOrBuffer` | pi-extension/src/extension/owner_multiplexer.ts:638-646 | one owner's part of a broadcast |
| `OwnerMultiplexer.OwnerMultiplexer.Broadcast` | pi-extension/src/extension/owner_multiplexer.ts:638-646 | the loop over a registry that sends may shrink does one part per owner |
| `OwnerMultiplexer.OwnerMultiplexer.CompleteOfflineTurn` | pi-extension/src/extension/owner_multiplexer.ts:649-659 | the loop seals every buffer, and every offline history gains a turn end |
| `OwnerMultiplexer.OwnerMultiplexer.RouteFrom` | pi-extension/src/extension/owner_multiplexer.ts:747-757 | frames of a replaced channel are dropped; a session_sync discards the buffer and resumes the owner |
| `OwnerMultiplexer.OwnerMultiplexer.LateAttachTargets` | pi-extension/src/extension/owner_multiplexer.ts:759-765 | each late owner's channel, all of them still attached; the set is consumed |
| `OwnerMultiplexer.OwnerMultiplexer.GateResolved` | pi-extension/src/extension/owner_multiplexer.ts:575-579 | a settled gate clears the entry only if it is still the owner's gate |
| `OwnerMultiplexer.OwnerMultiplexer.AwaitDrain` | pi-extension/src/extension/owner_multiplexer.ts:318-335 | against any schedule of other operations: when the loop is left to attach, the owner is unattached and every generation it detached so far has settled |
| `OwnerMultiplexer.OwnerMultiplexer.AttachKnown` | pi-extension/src/extension/owner_multiplexer.ts:318-352 | an established owner is attached only after its gate: the generations detached before the lookup have settled, and all have exactly when the gate entry at the attach is absent or settled |
| `RelayDispatch.StepConsistent` | pi-extension/src/extension/relay_transport.ts:239-466 | every step keeps arrival order, counters equal to the held cells and within their caps, releases once and in order, effects in arrival order, claimed frames unpublished, finished dispatches resolved, audits balanced, and a drain awake while work is pending |
| `RelayDispatch.RunConsistent` | pi-extension/src/extension/relay_transport.ts:239-466 | so does every run, and what was accepted, taken, done and released stays so, in its order |
| `RelayDispatch.ReleasedOnce` | pi-extension/src/extension/relay_transport.ts:315-342 | each cell is released exactly once: never while it waits or runs on a live binding, and all of them by the unbind, with both counters back at zero |
| `RelayDispatch.AdmissionExact` | pi-extension/src/extension/relay_transport.ts:403-444 | a frame is refused exactly when it would break its class's frame or byte cap over the cells then waiting or running |
| `RelayDispatch.HandlerLogs` | pi-extension/src/extension/relay_transport.ts:666-711 | a settling handler keeps the order of effects and resolves its frame: control frames are published even after a throw, outer frames unless claimed or failed |
| `RelayFrames.FrameDispatched` | pi-extension/src/extension/relay_transport.ts:666-711 | over every run of a live binding, what happened for each frame taken is its own story: with handlers it is shown to one after another, as many as follow each other, and published after them unless one claimed it or threw; without, it is published at once if it decodes; and it awaits a handler exactly when the story says so |
| `RelayFrames.StepMoves` | pi-extension/src/extension/relay_transport.ts:344-381 | every step opens the dispatch of the frames it takes, answers the handler awaited, and does nothing for any other frame |
| `RelayFrames.ShownToEach` | pi-extension/src/extension/relay_transport.ts:671-711 | a frame with handlers is shown to one plus one for each that another follows, any other frame to none |
| `RelayFrames.StoryEnds` | pi-extension/src/extension/relay_transport.ts:671-711 | once no handler is awaited a control frame has been published; an outer one has failed if its last handler threw, has been published if none claimed it, and else has not |
| `RelayDispatch.ArrivalAdmits` | pi-extension/src/extension/relay_transport.ts:403-444 | a frame that fits its class's caps over the cells then waiting or running is accepted behind all others; any other is counted as rejected in its class, and nothing else changes |
| `RelayDispatch.DropsAudited` | pi-extension/src/extension/relay_transport.ts:300-313 | the first drop of a class is audited at once, and so is every one that completes a hundred; any other waits for a timer |
| `RelayDispatch.TimerAudits` | pi-extension/src/extension/relay_transport.ts:308-312 | a fired timer audits what was dropped since, and nothing of the other class |
| `RelayDispatch.StepQuiet` | pi-extension/src/extension/relay_transport.ts:329-342 | neither the unbind itself nor any step after it takes a frame, starts a handler or publishes |
| `RelayDispatch.QuietAfterUnbind` | pi-extension/src/extension/relay_transport.ts:457-466 | the same over every run after an unbind |
| `RelayDispatch.RunConserves` | pi-extension/src/extension/relay_transport.ts:272-313 | over any run, frames and bytes admitted, audited and not yet audited add up to what arrived; fewer than 100 drops of a class are unaudited at any step, and none once unbound |
| `RelayDispatch.OwnStepAdvances` | pi-extension/src/extension/relay_transport.ts:344-381 | every step of a running drain, however its handler settles, brings it closer to rest unless another handler follows |
| `RelayDispatch.DrainTakesEverything` | pi-extension/src/extension/relay_transport.ts:344-381 | no wake-up is lost: whatever the handlers do, the drain of a live binding left to itself takes boundedly many steps, and when it can take none it has taken every accepted frame |
| `RelayDispatch.RelayBinding.constructor` | pi-extension/src/extension/relay_transport.ts:239-270 | starts consistent |
| `RelayDispatch.RelayBinding.ReleaseDispatch` | pi-extension/src/extension/relay_transport.ts:315-327 | releases a cell, or does nothing the second time |
| `RelayDispatch.RelayBinding.DispatchWork` | pi-extension/src/extension/relay_transport.ts:666-711 | a dispatch up to its first await: it shows an outer or control frame to the first handler if there is one, else publishes what decodes |
| `RelayDispatch.RelayBinding.DrainDispatches` | pi-extension/src/extension/relay_transport.ts:344-373 | the drain loop up to its next await, blank lines passed over |
| `RelayDispatch.RelayBinding.OnMessage` | pi-extension/src/extension/relay_transport.ts:403-444 | admission by class, then one shared queue |
| `RelayDispatch.RelayBinding.EnsureDispatchDrain` | pi-extension/src/extension/relay_transport.ts:375-381 | starts a drain unless one is under way |
| `RelayDispatch.RelayBinding.RecordOverflow` | pi-extension/src/extension/relay_transport.ts:300-313 | counts a drop: the first and every hundredth are audited at once, others by a timer |
| `RelayDispatch.RelayBinding.FlushOverflow` | pi-extension/src/extension/relay_transport.ts:272-293 | emits and zeroes what is unaudited |
| `RelayDispatch.RelayBinding.HandlerSettled` | pi-extension/src/extension/relay_transport.ts:671-711 | the next handler, or publication, or neither |
| `RelayDispatch.RelayBinding.DrainResumed` | pi-extension/src/extension/relay_transport.ts:366-373 | the finally of one turn, then the rest of the loop |
| `RelayDispatch.RelayBinding.DrainFinalised` | pi-extension/src/extension/relay_transport.ts:377-380 | the finaliser restarts the drain if work arrived meanwhile |
| `RelayDispatch.RelayBinding.TimerFired` | pi-extension/src/extension/relay_transport.ts:308-312 | a summary timer flushes its class |
| `RelayDispatch.RelayBinding.UnbindRelay` | pi-extension/src/extension/relay_transport.ts:329-342 | abort, release the active cell and every queued one, and emit the last audits |
| `UserDelivery.StepConsistent` | pi-extension/src/index.ts:2708-2998 | every admitted frame stays in exactly one place (attempting, queued, or answered once), the queue within two entries, in the order of their ids; a frame is answered as delivered only if the agent was woken for its session and id, and with an error blamed on a wake or on age only if that attempt failed or threw, or the time to live had passed |
| `UserDelivery.RunConsistent` | pi-extension/src/index.ts:2708-2998 | so over every run: no frame is lost or settled twice, and no answer is withdrawn |
| `UserDelivery.StepConserved` | pi-extension/src/index.ts:2871-2998 | each step keeps each frame in exactly one place |
| `DeliveryFrames.StepFollows` | pi-extension/src/index.ts:2708-2998 | what any step does to a frame, by where the frame is: an admitted one is attempted or answered; one whose attempt is over is answered as delivered with the attempt's key if the agent was woken, with that attempt's failure if it failed or threw, and else joins the end of the queue with the time it first did, unless that is a time to live ago; a queued one is attempted again by a drain, renewed or expired by its own due timer, evicted as the oldest of a full queue, or answered when the queue is given up; an answered one stays so |
| `DeliveryFrames.StepAttempts` | pi-extension/src/index.ts:2708-2833 | what any step does to attempts and keys: each attempt goes its own way; one is started for each key tried that is neither delivered nor in flight, and no other; a key counts as woken and delivered only through its own attempt; the clock, the session and the fence change only by their own steps |
| `DeliveryFrames.AnsweredExactly` | pi-extension/src/index.ts:2871-2998 | over every run, a frame ends with a given answer if and only if some step called for it: delivered by its own successful wake or an id already delivered; an error by its failed or throwing wake, its return past the time to live, its expired timer, its eviction, or the giving up of the queue |
| `DeliveryFrames.DecidedIsAnswered` | pi-extension/src/index.ts:2946-2998 | once its attempt has settled other than recoverably, over any run a frame waits until it returns, and is then answered as delivered with the attempt's key if the agent was woken, else with that attempt's failure |
| `DeliveryFrames.DrainsInOrder` | pi-extension/src/index.ts:2946-2970 | of two keys a drain starts, the one queued first is started first |
| `DeliveryFrames.FailsInOrder` | pi-extension/src/index.ts:2936-2944 | giving up the queue answers its frames in their order |
| `UserDelivery.StepOnce` | pi-extension/src/index.ts:2708-2869 | a step that stays in the session keeps every key woken at most once and exposes no key of the session, under every interleaving of duplicates, attempts, failures and replays |
| `UserDelivery.StepShields` | pi-extension/src/index.ts:2708-2869 | a step in the session that attempts no exposed key wakes none twice and exposes none anew |
| `UserDelivery.SessionExact` | pi-extension/src/index.ts:2708-2869 | in any state, at-most-once holds for the rest of the session if and only if no key was woken twice, no waking attempt repeats one, and no exposed key belongs to the session |
| `UserDelivery.AtMostOneWake` | pi-extension/src/index.ts:2708-2869 | over any run whose resets and session moves are safe the agent is successfully woken at most once per session and client message id |
| `UserDelivery.UnsafeRunDoubles` | pi-extension/src/index.ts:2708-2869 | after the first reset or move that is not safe, some run within the session wakes a key twice |
| `UserDelivery.DuplicateWakesTwice` | pi-extension/src/index.ts:3893-3906 | from the start: a delivery, a reset without moving on, and a duplicate wake the agent twice |
| `UserDelivery.SafeStepOnce` | pi-extension/src/index.ts:2708-2869 | each step keeps the at-most-once state if and only if it is safe |
| `UserDelivery.ResetExact` | pi-extension/src/index.ts:3893-3906 | at-most-once holds for the rest of a session after a reset if and only if the session had nothing woken or unfinished at the reset, fenced or not |
| `UserDelivery.SwitchExact` | pi-extension/src/index.ts:2708-2750 | after a move to another session it holds if and only if that session has no exposed key |
| `UserDelivery.HeldFenceKeeps` | pi-extension/src/extension/fresh_session_shutdown.ts:47-51 | while a fence is held, exposed keys that no admitted frame can be attempted for do no harm |
| `UserDelivery.HeldFenceExact` | pi-extension/src/extension/fresh_session_shutdown.ts:122-137 | while a fence is held and no attempt of the session has been forgotten while it runs, at-most-once holds if and only if no admitted frame can be attempted for an exposed key of the session |
| `UserDelivery.HeldRetries` | pi-extension/src/extension/fresh_session_shutdown.ts:41-51 | behind a held fence no message id becomes attemptable that was not |
| `UserDelivery.WokenAgain` | pi-extension/src/session/sdk_session_projection.ts:1138-1143 | a key woken but neither recorded as delivered nor in flight wakes again on a duplicate |
| `UserDelivery.WakingTwice` | pi-extension/src/index.ts:3904 | clearing the in-flight table lets a duplicate start a second wake beside a running one |
| `UserDelivery.FinallyRemovesSuccessor` | pi-extension/src/index.ts:2745-2748 | the in-flight entry is deleted by key, so a forgotten attempt removes its successor's entry and a third attempt starts |
| `UserDelivery.StepFresh` | pi-extension/src/index.ts:2898-2934 | with punctual timers no queued frame's timer is overdue or set beyond the absolute deadline plus one time to live, and each renewal has used up a time to live |
| `UserDelivery.RunFresh` | pi-extension/src/index.ts:2898-2934 | the same over every punctual run |
| `UserDelivery.WaitIsBounded` | pi-extension/src/index.ts:2898-2934 | a queued frame is younger than the deadline plus one time to live and has been renewed fewer than twelve times, so renewal ends |
| `UserDelivery.UserDelivery.constructor` | pi-extension/src/index.ts:2592-2612 | starts consistent, at-most-once and with nothing overdue |
| `UserDelivery.UserDelivery.DeliverUserMessage` | pi-extension/src/index.ts:2972-2988 | a fenced frame is turned away before admission, any other is attempted |
| `UserDelivery.UserDelivery.AttemptUserDelivery` | pi-extension/src/index.ts:2708-2750 | suppresses a delivered id, coalesces onto an attempt in flight, or starts one |
| `UserDelivery.UserDelivery.WakeReturned` | pi-extension/src/index.ts:2776-2833 | a successful wake records the id as delivered |
| `UserDelivery.UserDelivery.AttemptFinally` | pi-extension/src/index.ts:2745-2747 | the in-flight entry goes by key |
| `UserDelivery.UserDelivery.EnqueuePendingDelivery` | pi-extension/src/index.ts:2871-2896 | a full queue answers its oldest entry with an error first |
| `UserDelivery.UserDelivery.DeliveryReturned` | pi-extension/src/index.ts:2952-2994 | answers as delivered, with the failed attempt, or with age past the time to live, or queues the frame again |
| `UserDelivery.UserDelivery.PendingTimeout` | pi-extension/src/index.ts:2898-2934 | renews during a replacement below the absolute deadline, otherwise answers with an error; a cleared entry is left alone |
| `UserDelivery.UserDelivery.FindQueued` | pi-extension/src/index.ts:2906-2907 | finds the first entry with the queue id, or the length of the queue when none has it |
| `UserDelivery.UserDelivery.DrainPendingDeliveryQueue` | pi-extension/src/index.ts:2946-2970 | every queued frame is attempted again with its enqueue time |
| `UserDelivery.UserDelivery.FailPendingDeliveryQueue` | pi-extension/src/index.ts:2936-2944 | every queued frame is answered with an error and the queue is empty |
| `UserDelivery.UserDelivery.ResetSessionForNew` | pi-extension/src/index.ts:3893-3906 | forgets delivered ids and in-flight attempts of every session |
| `RuntimeCoordinator.RunConsistent` | pi-extension/src/extension/runtime_coordinator.ts:45-146 | in every reachable state the leases marked candidate are exactly the one named in the state, and a live owner is marked owner |
| `RuntimeCoordinator.OwnerLeavesOnlyByShutdown` | pi-extension/src/extension/runtime_coordinator.ts:73-117 | a live owner is displaced only by its own shutdown |
| `RuntimeCoordinator.RetiredForGood` | pi-extension/src/extension/runtime_coordinator.ts:73-146 | a known lease that is neither candidate nor owner never becomes either |
| `RuntimeCoordinator.NoSecondReign` | pi-extension/src/extension/runtime_coordinator.ts:73-117 | a former owner never owns again |
| `RuntimeCoordinator.SatelliteNeverOwns` | pi-extension/src/extension/runtime_coordinator.ts:73-107 | a satellite never becomes owner |
| `RuntimeCoordinator.OwnerSessionIsNoChild` | pi-extension/src/extension/runtime_coordinator.ts:85-106 | every change of owner or of its session is an activation whose session was not registered as a child at that moment |
| `RuntimeCoordinator.DisposedIsFinal` | pi-extension/src/extension/runtime_coordinator.ts:79 | DISPOSED is final |
| `RuntimeCoordinator.ReplyMeans` | pi-extension/src/extension/runtime_coordinator.ts:73-107 | the lease owns the session afterwards exactly when it is told so; a candidate or the owner is turned away only for a child's session, any other lease always; nobody else's lease changes |
| `RuntimeCoordinator.CandidateMeans` | pi-extension/src/extension/runtime_coordinator.ts:45-57 | a new lease becomes the candidate exactly when nobody owns or is about to: at first, or in a replacement without a successor |
| `RuntimeCoordinator.SuccessorTakesOver` | pi-extension/src/extension/runtime_coordinator.ts:45-117 | an owner that shuts down makes way: for good on quit or startup, else for the next lease, which takes over with any session that is no child's |
| `RuntimeCoordinator.ChildrenMean` | pi-extension/src/extension/runtime_coordinator.ts:63-70 | the children are the sessions announced and not disposed of, the empty name never |
| `RuntimeCoordinator.OutpostPiRuntimeCoordinator.constructor` | pi-extension/src/extension/runtime_coordinator.ts:40-43 | starts unowned |
| `RuntimeCoordinator.OutpostPiRuntimeCoordinator.AcquireFactory` | pi-extension/src/extension/runtime_coordinator.ts:45-57 | the first lease, or the first during a replacement, is the candidate; others are satellites |
| `RuntimeCoordinator.OutpostPiRuntimeCoordinator.ChildSessionCreated` | pi-extension/src/extension/runtime_coordinator.ts:63-66 | registers a child session |
| `RuntimeCoordinator.OutpostPiRuntimeCoordinator.ChildSessionDisposed` | pi-extension/src/extension/runtime_coordinator.ts:67-70 | forgets a child session |
| `RuntimeCoordinator.OutpostPiRuntimeCoordinator.RejectCandidate` | pi-extension/src/extension/runtime_coordinator.ts:137-146 | demotes a lease other than the owner and withdraws its candidacy |
| `RuntimeCoordinator.OutpostPiRuntimeCoordinator.ActivateLease` | pi-extension/src/extension/runtime_coordinator.ts:73-107 | the decision taken from the lease table, with its unguarded last branch, is the one the state's candidate calls for |
| `RuntimeCoordinator.OutpostPiRuntimeCoordinator.BeginShutdown` | pi-extension/src/extension/runtime_coordinator.ts:109-117 | only the owner may, and quit or startup disposes |
| `CaptureUpload.StepConsistent` | pi-extension/src/actions/capture_upload_handler.ts:146-293 | every step keeps: each buffer is its decoded chunks in order and then zeros; commits and files hold complete uploads with the declared length and hash; each acknowledgement names its own upload's channel and bytes, once; an active upload is finalizing only while its commit is in flight |
| `CaptureUpload.RunConsistent` | pi-extension/src/actions/capture_upload_handler.ts:146-293 | so does every run |
| `CaptureUpload.DeliveredBytes` | pi-extension/src/actions/capture_upload_handler.ts:236-293 | an acknowledged delivery names exactly the concatenation of the accepted chunks, of the declared length and hash, as written to its file |
| `CaptureUpload.StepFreezes` | pi-extension/src/actions/capture_upload_handler.ts:180-293 | an upload never changes once finalizing or no longer active |
| `CaptureUpload.RunFreezes` | pi-extension/src/actions/capture_upload_handler.ts:180-293 | it stays frozen over every run, from hash to acknowledgement and after |
| `CaptureUpload.FinishingTouchesOnlyItself` | pi-extension/src/actions/capture_upload_handler.ts:258-290 | a commit that settles for an upload no longer active changes neither the active upload nor any reply; for the active one it replies for itself alone and clears it |
| `CaptureUpload.SettlingReplies` | pi-extension/src/actions/capture_upload_handler.ts:258-290 | a settling commit replies, once and on its upload's channel, if and only if the upload is still active: delivered with the upload's bytes, or an I/O error |
| `CaptureUpload.StaysActive` | pi-extension/src/actions/capture_upload_handler.ts:110-139 | while its commit is in flight an active upload stays active if and only if no matching detach, dispose or stale collection releases it |
| `CaptureUpload.RepliedUnlessReleased` | pi-extension/src/actions/capture_upload_handler.ts:236-293 | over any run in which the commit settles, it makes exactly one reply if nothing released the upload before, and none otherwise |
| `CaptureUpload.EndRepliedExactly` | pi-extension/src/actions/capture_upload_handler.ts:94-107 | an end that goes on to its commit gets exactly one reply if and only if nothing releases the upload before the commit settles |
| `CaptureUpload.EndUnanswered` | pi-extension/src/actions/capture_upload_handler.ts:94-139 | from the start: an upload goes stale while its commit is in flight, the file lands, and its end is never answered |
| `CaptureUpload.AdmissibleExactly` | pi-extension/src/actions/capture_upload_handler.ts:194-217 | a chunk is accepted exactly when its payload is the standard base64 of 1 to 8192 bytes that fit the declared size, at least 1024 of them unless they complete it |
| `CaptureUpload.ChunksAreBounded` | pi-extension/src/actions/capture_upload_handler.ts:207-217 | at most one chunk per KiB declared, rounded up, is accepted |
| `CaptureUpload.LengthIsExact` | pi-extension/src/actions/capture_upload_handler.ts:218-222 | the length test and the write agree, so the branch for an inconsistent length is dead |
| `CaptureUpload.FilledAssembled` | pi-extension/src/actions/capture_upload_handler.ts:218-225 | writing a chunk appends its decoded bytes and keeps the buffer assembled |
| `CaptureUpload.OneReply` | pi-extension/src/actions/capture_upload_handler.ts:96-107 | a begin or chunk gets one reply at once, and so does an end unless its commit goes ahead |
| `UploadProtocol.BeginLaw` | pi-extension/src/actions/capture_upload_handler.ts:146-178 | an upload begins, empty and under a new number, exactly when its size is allowed and nothing else is going on or disposed; otherwise the first failing test is reported and nothing changes |
| `UploadProtocol.ChunkLaw` | pi-extension/src/actions/capture_upload_handler.ts:180-234 | in any consistent state: the bytes held grow exactly when the chunk is from the owner, channel and id of the active upload, that is not finalizing, the sequence is the number of chunks held, and the payload is the standard base64 of bytes that fit; they grow by exactly those bytes; a chunk of the active upload out of sequence or unfit drops it with the right code; any other, or one while finalizing, changes nothing |
| `UploadProtocol.EndLaw` | pi-extension/src/actions/capture_upload_handler.ts:236-256 | an end of the active upload starts its commit exactly when the bytes held are complete, hash as declared and are a capture; else it drops the upload with the first failing test's code |
| `UploadProtocol.CarryLaw` | pi-extension/src/actions/capture_upload_handler.ts:110-139 | a commit writes the bytes held, once; a failure removes the file; detaches, dispose and collection make nothing active exactly when they release the active upload, finalizing or not; and nothing else changes |
| `UploadProtocol.CaptureIsDelivered` | pi-extension/src/actions/capture_upload_handler.ts:146-293 | a client that sends any capture in any allowed pieces, undisturbed, has each piece acknowledged with the bytes so far, finds exactly its bytes in the file, and is told so |
| `CaptureUpload.CaptureUploadHandler.constructor` | pi-extension/src/actions/capture_upload_handler.ts:80-93 | starts consistent |
| `CaptureUpload.CaptureUploadHandler.Begin` | pi-extension/src/actions/capture_upload_handler.ts:146-178 | size, disposal and busy checks in order, then a fresh zeroed upload |
| `CaptureUpload.CaptureUploadHandler.Chunk` | pi-extension/src/actions/capture_upload_handler.ts:180-234 | the checks in order, each failure dropping the upload, then write and acknowledgement |
| `CaptureUpload.CaptureUploadHandler.End` | pi-extension/src/actions/capture_upload_handler.ts:236-256 | completeness, hash and event checks, then the commit is started |
| `CaptureUpload.CaptureUploadHandler.CommitReturned` | pi-extension/src/actions/capture_upload_handler.ts:258-292 | acknowledges or reports only if still active and not disposed, and clears only itself |
| `CaptureUpload.CaptureUploadHandler.DetachOwner` | pi-extension/src/actions/capture_upload_handler.ts:110-112 | drops the upload only of that owner |
| `CaptureUpload.CaptureUploadHandler.DetachChannel` | pi-extension/src/actions/capture_upload_handler.ts:115-119 | drops the upload only of that owner's lost channel |
| `CaptureUpload.CaptureUploadHandler.DetachAll` | pi-extension/src/actions/capture_upload_handler.ts:122-124 | drops the upload |
| `CaptureUpload.CaptureUploadHandler.Dispose` | pi-extension/src/actions/capture_upload_handler.ts:127-132 | once, and nothing is active afterwards |
| `CaptureUpload.CaptureUploadHandler.Gc` | pi-extension/src/actions/capture_upload_handler.ts:135-139 | drops the upload only when stale |
| `CaptureRetention.EnforceRetention` | pi-extension/src/actions/capture_upload_handler.ts:406-460 | the source's loops remove exactly the listed captures that do not survive |
| `CaptureRetention.DropOldest` | pi-extension/src/actions/capture_upload_handler.ts:441-446 | a day's loop removes all but its last captures up to the cap |
| `CaptureRetention.ShedBytes` | pi-extension/src/actions/capture_upload_handler.ts:448-455 | the byte loop keeps the longest suffix within the cap |
| `CaptureRetention.SortPermutes` | pi-extension/src/actions/capture_upload_handler.ts:429-433 | sorting keeps the listed captures, by name with the current one last |
| `CaptureRetention.DayPass` | pi-extension/src/actions/capture_upload_handler.ts:435-446 | of each day exactly the last captures up to the cap survive the day pass |
| `CaptureRetention.WithinCaps` | pi-extension/src/actions/capture_upload_handler.ts:435-455 | afterwards no day exceeds the file cap and the total does not exceed the byte cap |
| `CaptureRetention.RemovedPrecedesKept` | pi-extension/src/actions/capture_upload_handler.ts:429-455 | every removed capture precedes every surviving one of its day |
| `CaptureRetention.ByteKeptIsLongest` | pi-extension/src/actions/capture_upload_handler.ts:448-455 | the byte pass removes no more than needed: any longer suffix exceeds the cap |
| `CaptureRetention.CurrentSurvives` | pi-extension/src/actions/capture_upload_handler.ts:429-455 | the capture just committed survives if and only if the day cap is at least one and it fits the byte cap alone |
| `CaptureRetention.DeliveredSurvives` | pi-extension/src/actions/capture_upload_handler.ts:429-455 | with the caps in force every capture an upload can deliver survives its own retention |
| `MeshInbox.LongestSuffix` | pi-extension/src/mcp/inbox.ts:93-98 | no longer suffix than the retained one would have fitted the limits |
| `MeshInbox.KeepsNewestUnique` | pi-extension/src/mcp/inbox.ts:85-99 | so the retained suffix is determined |
| `MeshInbox.KeepsNewestOfAll` | pi-extension/src/mcp/inbox.ts:85-99 | keeping the newest of what was kept keeps the newest of everything accepted |
| `MeshInbox.RetainedWithinLimits` | pi-extension/src/mcp/inbox.ts:85-99 | the byte limit always holds; the message limit exactly when it admits one message or nothing is retained |
| `MeshInbox.BoundedInbox.constructor` | pi-extension/src/mcp/inbox.ts:59-62 | starts empty |
| `MeshInbox.BoundedInbox.Push` | pi-extension/src/mcp/inbox.ts:85-99 | keeps the newest message; over every run the inbox is the longest fitting suffix of everything accepted since the drain; an oversized message is only counted; pushed = retained + drained + dropped |
| `MeshInbox.BoundedInbox.ShedOverflow` | pi-extension/src/mcp/inbox.ts:93-98 | the shedding loop drops the oldest, no more than needed |
| `MeshInbox.BoundedInbox.Drain` | pi-extension/src/mcp/inbox.ts:102-109 | hands out everything retained in arrival order, with the drops since the last drain |
| `MeshWake.DecisionCovers` | pi-extension/src/mcp/wake.ts:64-89 | an edge leaves a wake out or a re-check armed, unless nothing covered it and the two clock readings straddle the cap |
| `MeshWake.OneReadingCovers` | pi-extension/src/mcp/wake.ts:135-160 | with one clock reading per step an edge is always covered |
| `MeshWake.LostWake` | pi-extension/src/mcp/wake.ts:135-139 | two readings on different sides of the cap lose the wake |
| `MeshWake.SpacedApart` | pi-extension/src/mcp/wake.ts:83-89 | any two wakes of a run are at least the minimum interval apart for each wake between them |
| `MeshWake.LocalWasThere` | pi-extension/src/mcp/wake.ts:153-159 | a push that is not the first local message never creates unread local messages |
| `MeshWake.LocalExactly` | pi-extension/src/mcp/wake.ts:33-36 | a sender is local unless it is the relay, or a name before a first colon and something after it |
| `MeshWake.WakeCoordinator.constructor` | pi-extension/src/mcp/wake.ts:126-133 | starts unarmed with nothing sent |
| `MeshWake.WakeCoordinator.FindLocal` | pi-extension/src/mcp/wake.ts:146 | the first retained local message, if any |
| `MeshWake.WakeCoordinator.WakeOrArm` | pi-extension/src/mcp/wake.ts:135-151 | the gate's decision, with wakes at least the interval apart and a re-check due exactly when the cap ends |
| `MeshWake.WakeCoordinator.OnMessage` | pi-extension/src/mcp/wake.ts:154-161 | wakes or arms exactly on a local edge; over every run, while local messages are unread a wake is out or a re-check armed exactly when the last decision was not an uncovered edge straddling the cap |
| `MeshWake.WakeCoordinator.RecheckFires` | pi-extension/src/mcp/wake.ts:140-150 | a due re-check with local messages unread and none announced wakes |
| `MeshWake.WakeCoordinator.GetMessages` | pi-extension/src/mcp/mesh_server.ts:231-245 | drains in order and forgets the pending re-check when something was drained |
| `FixedWindow.WindowWithinLimit` | relay/src/resource_limits.rs:65-80 | cost accepted within one lazily started window never exceeds the limit |
| `FixedWindow.TwiceTheLimit` | relay/src/resource_limits.rs:65-80 | cost accepted in any half-open interval of one window's length never exceeds twice the limit |
| `FixedWindow.TwiceTheLimitIsTight` | relay/src/resource_limits.rs:65-80 | that bound is reached |
| `FixedWindow.RefusedOnlyWhenBusy` | relay/src/resource_limits.rs:65-80 | over every run, a refused call's cost and what was accepted during the last window's length exceed the limit |
| `FixedWindow.TailWithinLimit` | relay/src/resource_limits.rs:65-80 | an interval no earlier than the open window sees at most one limit |
| `FixedWindow.FixedWindowBudget.constructor` | relay/src/resource_limits.rs:56-63 | starts with nothing used |
| `FixedWindow.FixedWindowBudget.Allow` | relay/src/resource_limits.rs:65-80 | rolls over lazily, and accepts exactly what fits, an overflowing sum included among the refusals |
| `Subscriptions.MirrorIsUnique` | relay/src/subscriptions.rs:8-12 | the two maps determine each other |
| `Subscriptions.SubscriptionIndex.constructor` | relay/src/subscriptions.rs:8-12 | starts with the empty relation |
| `Subscriptions.SubscriptionIndex.RemoveReverseEdge` | relay/src/subscriptions.rs:57-68 | removes one edge and leaves no empty entry |
| `Subscriptions.SubscriptionIndex.RemoveAll` | relay/src/subscriptions.rs:49-55 | removes exactly the subscriber's edges, from both maps |
| `Subscriptions.SubscriptionIndex.Replace` | relay/src/subscriptions.rs:17-29 | the subscriber watches exactly the listed targets afterwards, duplicates or none included |
| `Subscriptions.SubscriptionIndex.Remove` | relay/src/subscriptions.rs:32-46 | removes exactly the listed edges, duplicates and unknown targets included |
| `Subscriptions.SubscriptionIndex.SubscribersOf` | relay/src/subscriptions.rs:76-81 | exactly the subscribers of the target |
| `CanonicalJson.SameTextIffEquivalent` | pi-extension/src/mesh/canonical.ts:29-53 | two values print the same text exactly when they are equal up to object key order |
| `CanonicalJson.ParseCanonical` | pi-extension/src/mesh/canonical.ts:29-53 | a JSON reader recovers the key-sorted value from the text |
| `CanonicalJson.ReadCanonical` | pi-extension/src/mesh/canonical.ts:29-53 | in front of any text: canonical text is self-delimiting |
| `CanonicalJson.ReadQuoted` | pi-extension/src/mesh/canonical.ts:38 | every string, escapes and lone surrogates included, reads back as itself |
| `CanonicalText.QuotedExactly` | pi-extension/src/mesh/canonical.ts:38-47 | a text is the printed body of a string if and only if it is the shortest text, free of lone surrogates, that a JSON reader takes for the string, with its escapes in lower case |
| `CanonicalText.QuotedFrugal` | pi-extension/src/mesh/canonical.ts:38 | a six-unit escape stands only for a control without a letter of its own or for a lone surrogate |
| `CanonicalText.CanonicalIsShortest` | pi-extension/src/mesh/canonical.ts:29-53 | no text free of lone surrogates that parses to the key-sorted value is shorter than the canonical one |
| `CanonicalJson.ReadPrintedInt` | pi-extension/src/mesh/canonical.ts:36 | an integer reads back from its digits |
| `CanonicalJson.ReadSpelled` | pi-extension/src/mesh/canonical.ts:36 | a number with a fraction or an exponent reads back as spelled |
| `CanonicalJson.EquivalentPrintSame` | pi-extension/src/mesh/canonical.ts:44-48 | values equal up to key order print the same or fail alike |
| `CanonicalJson.NormalFormSeparates` | pi-extension/src/mesh/canonical.ts:44-48 | values with one key-sorted form are equal up to key order |
| `CanonicalJson.NormalFormEquivalent` | pi-extension/src/mesh/canonical.ts:46 | the key-sorted form is equal to the value up to key order |
| `CanonicalJson.CanonicalTextIsStable` | pi-extension/src/mesh/canonical.ts:29-53 | parsing canonical text and printing it again gives the same text |
| `CanonicalJson.ThrowsIffNonFinite` | pi-extension/src/mesh/canonical.ts:32-36 | the error is raised exactly for values that hold a non-finite number |
| `CanonicalJson.SortKeysAscending` | pi-extension/src/mesh/canonical.ts:46 | sorting keys keeps them and puts them in strictly ascending code-unit order |
| `Base64.AcceptsExactlyEncodings` | pi-extension/src/actions/capture_upload_handler.ts:374-385 | the decoded length is n for a payload exactly when the payload is the standard padded encoding of some non-empty n bytes |
| `Base64.AlphabetIsTable` | pi-extension/src/actions/capture_upload_handler.ts:386-395 | the alphabet is that of RFC 4648, table 1 |
| `Base64.ThreeAreBits` | pi-extension/src/actions/capture_upload_handler.ts:374-385 | a group of three bytes is encoded as its 24 bits in big-endian order, six by six |
| `Base64.TwoAreBits` | pi-extension/src/actions/capture_upload_handler.ts:374-385 | a last group of two is filled up with zero bits and padded with one sign |
| `Base64.OneIsBits` | pi-extension/src/actions/capture_upload_handler.ts:374-385 | a last group of one with two |
| `Base64.EncodesByGroups` | pi-extension/src/actions/capture_upload_handler.ts:374-385 | a text is encoded group by group of three bytes |
| `Base64.AcceptedDecodeInjectively` | pi-extension/src/actions/capture_upload_handler.ts:374-385 | accepted payloads decode to the same bytes only if equal, and to the reported length |
| `Base64.CanonicalGroups` | pi-extension/src/actions/capture_upload_handler.ts:374-385 | an accepted payload is the encoding of what it decodes to, of the reported length |
| `Base64.DecodeEncode` | pi-extension/src/mesh/encoding.ts:35 | decoding an encoding gives the bytes back |
| `Base64.SpellingsDecodeAlike` | pi-extension/src/mesh/encoding.ts:28-36 | the standard, unpadded and URL-safe spellings of any bytes decode to those bytes |
| `Base64.DecodeCanonicalExact` | pi-extension/src/extension/owner_multiplexer.ts:183-188 | bytes are returned exactly when the value is their standard encoding and they have the required length |
| `Base64.BytesEqual` | pi-extension/src/mesh/encoding.ts:46-52 | true exactly for equal byte strings |
| `EditHunk.HunkIsPatch` | pi-extension/src/index.ts:3972-4031 | the old side is context, old lines, context and the new side context, new lines, context, and both sides' line numbers are consecutive |
| `EditHunk.HunkShape` | pi-extension/src/index.ts:3990-4030 | a hunk is up to four lines above, the shared lines, every removed line, every added one, the shared lines, up to four lines below, and a mark at either end exactly where more of the file is left out; only what the common prefix and suffix leave over is removed and added |
| `EditHunk.PatchedLines` | pi-extension/src/index.ts:3972-4031 | applying the hunk to the file's lines puts the new lines in place of the old ones |
| `EditHunk.HunkPatchesFile` | pi-extension/src/index.ts:3972-4031 | for any edit the hunk gives the edited file's lines if and only if the edit starts and ends at line boundaries and old and new text agree on whether they end a line, or both are empty |
| `EditHunk.JoinedLinesNotShown` | pi-extension/src/index.ts:4039-4044 | an edit that joins two lines, which the hunk does not show |
| `EditHunk.FragmentsShownAsLines` | pi-extension/src/index.ts:3972-4031 | an edit inside a line, whose fragments the hunk shows as lines |
| `EditHunk.LineNumberAt` | pi-extension/src/index.ts:4033-4037 | one more than the line breaks before the offset, clamped to the text |
| `EditHunk.CommonPrefix` | pi-extension/src/index.ts:3994-4001 | the common prefix is maximal |
| `EditHunk.CommonSuffix` | pi-extension/src/index.ts:4003-4010 | the common suffix does not overlap the prefix and is maximal |
| `EditHunk.PushRun` | pi-extension/src/index.ts:4012-4014 | a pushing loop adds one numbered line per text line |
| `EditHunk.BuildEditHunk` | pi-extension/src/index.ts:3972-4031 | the result is the window laid out around a maximal, non-overlapping common prefix and suffix, and both its sides are the consecutively numbered old and new lines in context |

## Left out

- Reconnect and start interleavings of the relay transport: one binding's life is modelled, not the claim that at most one is bound.
- The cross-PC bridge, the daemon supervisor and its child process, fleet update, pairing and its cryptography, the keyring, HTTP and WebSocket clients, service installation, cron and git lookup: foreign calls or process orchestration.
- The text of the `bye` frame, fan-out presence notices and footer refreshes: effects that no later decision reads. Whether sending the `bye` disconnects the channel is an input.
- `arbitrateSessionHistory` (pi-extension/src/extension/owner_multiplexer.ts:731-745), which leaves out of a history reply the compactions whose keys are remembered for its owner: the keys are modelled, the history is not.
- OwnerMultiplexer.OwnerMultiplexer.Attach: a channel is an identity and whether it can drain; secure-channel keys and sequence numbers are not part of this model.
- OwnerMultiplexer.OwnerMultiplexer.AwaitDrain: a schedule that never lets the frame resume leaves it waiting; pairing, the other caller of attach, is not part of this model.
- In the registry, the dispatch queue, the delivery coordinator and the capture handler the mutable maps, lists and buffers are reassigned values, so aliasing of a buffer object is not captured; that a detached owner's buffer is no longer looked at is modelled as the end of the replay.
- RelayDispatch.RelayBinding.OnMessage: handlers do not deliver socket messages from inside a handler; line decoding is an input (control, outer, other, undecodable, blank); the text of a retained line and its early release are not modelled. `Next` ignores messages once unbound, because the listener is removed.
- UserDelivery.UserDelivery.WakeReturned: turn seeding and its rollback, transcript events and echoes are not modelled, and confirming a delivery is taken not to throw, as its durable record reports failures as values.
- UserDelivery.UserDelivery.DeliverUserMessage: the delivered-id store is an unbounded set, as in the projection; the ingress fence is one boolean, lifted by a step of its own as the fresh-session shutdown lifts it when its runtime is stale. The hot-reload fence, which is never lifted, is a held one.
- UserDelivery.HeldFenceKeeps: one way only while an attempt of the session that an earlier reset forgot still runs; the shutdown awaits the in-flight table alone, so this can be so at its reset. Whether a held fence is then harmless turns on which frames wait for which attempt, on frames that a drain attempts together, and on how much of each frame's time to live is left; a single frame that waits for the very attempt it would repeat does no harm. Without such an attempt the condition is exact.
- CaptureUpload.CaptureUploadHandler.CommitReturned: path checks, the temporary file and the rename are one step that lands the file or does not; SHA-256 and the JSONL event count are uninterpreted functions of the bytes. A written file is told apart by its upload; the source names it by the time and a hash of the upload id, and a later retention pass may remove it.
- CaptureRetention.EnforceRetention: a failing directory read or removal is not modelled; capture file names are taken in the order of their fixed-shape text, and a day is a number read from the name.
- CanonicalJson.SameTextIffEquivalent: arrays have no holes. The source prints a hole as nothing, so an array of one hole prints like an empty array, and one of two holes prints a text that is no JSON.
- CanonicalJson.ParseCanonical: a finite number is told apart by its decimal spelling; that distinct numbers have distinct spellings, and which spelling a number gets (integers beyond the exact range of doubles included), belongs to the JavaScript runtime. Negative zero is spelled as zero. The reader accepts what the printer prints, without white space.
- Base64.DecodeEncode: decoding of text that is no base64 spelling at all is the runtime's; only what the modelled callers can pass on as accepted is specified.
- EditHunk.BuildEditHunk: rendering of the lines and the search for the edited text in the file.
- MeshWake.WakeCoordinator.OnMessage: the scheduler's timer is one armed flag with a due time; the nudge text is not modelled.
- FixedWindow.FixedWindowBudget.Allow: time is a natural number from a monotone clock, as the relay's clock type guarantees.
- JSON size estimates, log lines and telemetry.
