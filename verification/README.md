# Verified model of the in-process ingest pipeline

The pipeline takes market-data messages from one callback thread, spreads them over decoder
lanes, decodes them, restores the native order of every channel, and hands ticks, gaps, faults and
late records to their consumers through rings and mailboxes. This project models that pipeline in
Dafny and proves what it promises. `dafny verify dfyconfig.toml` checks everything.

## How it is organised

**Recovery of one channel and one lane** (`src/engine.cpp`, class `SequenceRecovery`).
`ChannelSpec` and `LaneSpec` say what each operation does, as functions on values; a channel keeps a
trace of everything it did, including the answers of its bounded output queues, which are arbitrary.
`Recovery` is the code's own shape: objects with fields, a slot array indexed by the sequence, an
open-addressing channel table, and the `for (;;)` loops for draining and retrying. Every method is
proved to do exactly what the functions say. The theorems are then about runs of the functions:

- `Ledger` computes an independent account of a channel from its trace alone and shows that all
  fields and all published records agree with it at every step;
- `TraceTheorems` turns that into the partition of the committed range, exact gap counters, exact
  history and gap marks, and the survival of a retried record;
- `OneChannel` is a run as one of its channels sees it: each input takes the channel from where it was,
  whatever the others do, and only adds to its trace events that name the channel and the input's clock;
- `Decisions` tells what each input decides by what it leaves behind: which records are duplicates,
  conflicts or late, when a gap is given up and which one, and exactly when a channel is frozen;
- `Accounting` and `Conservation` show that no record is lost, duplicated or made up on any channel of any run;
- `Timers` shows that the cached deadline skips nothing, and `Waits` when each wait began; `Healing` and `Arrivals` show that bounded
  reordering heals completely in every run without timer expiry, that the benchmark's schedule is such
  a reordering, and exactly up to which window it is;
- `PartialOrigin` says exactly when a PARTIAL channel starts at the smallest observed sequence;
- `OwnerStream` composes the lane with the rings: what an owner pops is, channel by channel, what the
  lane published to it, and the answers the recovery gets are those of the ring;
- `Pipeline` puts the decoder, the routing and the shutdown before the lane, so that the theorems speak of
  admitted messages, and `EndToEnd` follows the benchmark from its encoder to what its owners pop.

**Shared memory.** `GapMailbox`, `GapNotification`, `SpscRing` (its second half), `SlotCycle` and
`Shutdown` are step machines: every access to shared memory is one step and a theorem speaks of every
interleaving. `GapDispatcher`, `SpscRing` (its first half) and `LaneStorage` are the same objects as
classes over arrays, call by call; `GapQuiet` carries the result about polls over to the interleavings.

**Tables, decoder and encoder.** `ProbeTable` is linear probing for any hash; `ChannelIndex` and
`Catalog` use it. `Wire`, `FixedPoint`, `DynamicRanges`, `SnapshotBook` and `ShanghaiTick` are the
decoder, and `BookContents` and `TickContents` say what it decodes by the bytes of the body, at the
literal offsets of the wire formats; `Synthetic` is the benchmark's encoder with the round trips.

## Notes on the source

- The design document (`docs/mdl-ingestd-design.md:198-199`) says that PARTIAL starts at the smallest
  sequence *observed*. The code starts at the smallest sequence *retained*: a record that collides with a
  retained one ends the hold before it is looked at (`src/engine.cpp:770-775`). The model follows the
  code; `PartialOrigin.OriginExact` states for every run exactly when the two differ and
  `PartialOrigin.SmallestCanBeLate` is a run in which they do.
- One `false` from `TryPollGap` does not mean that nothing is undelivered, because leftover bits of a word
  are looked at before its fresh ones (`src/engine.cpp:562-565`). `GapDispatcher.OneQuietPoll` gives the
  exact condition, `GapDispatcher.OneFalseIsNotEnough` a history that leads there from a new dispatcher, and
  `GapDispatcher.TwoQuietPolls` shows that two are enough, which `GapQuiet.TwoQuietPollsOfRun` says of
  every concurrent run that has come to rest.
- Zero marks "no timer" in `gap_open_ns`, `first_seen_ns` and `next_deadline_ns_`; the timer theorems therefore
  assume a positive clock (`Timers.ZeroClockStalls` shows why). They speak of channels none of whose ticks was
  refused, because a refused tick leaves the drain before the timer is armed again (`src/engine.cpp:1074-1076`,
  `Timers.RefusedTickStalls`); answers to other channels and of the other queues do not matter.
- Indices that the source masks with `capacity - 1` are remainders here; capacities are powers of two there.

## Model

| member | source | states |
|---|---|---|
| Ledger.AccountBounds | src/engine.cpp:1096-1107 | the number of gap ranges never exceeds the missing total, nor that the frontier, so neither saturation guard of the gap counters ever acts |
| Ledger.EmitKeeps | src/engine.cpp:1037-1062 | publishing the record at the frontier keeps every field equal to the account computed from the trace, and the published tick is the one that account demands |
| Ledger.SkipKeeps | src/engine.cpp:1085-1129 | recording a gap adds exactly one to the epoch and the size of the range to the missing total, and the published gap says so |
| Ledger.DrainContiguousKeeps | src/engine.cpp:1064-1083 | after a drain nothing retained is at or behind the frontier, which never moved back, and the account still agrees |
| Ledger.FinishDiscoveryKeeps | src/engine.cpp:1155-1167 | fixing the origin turns a collecting channel into an active one whose account agrees |
| Ledger.ForceKeeps | src/engine.cpp:1169-1187 | a forced advance keeps the channel's invariants and identity |
| Ledger.RetainKeeps | src/engine.cpp:1224-1279 | retaining a future record, with or without a forced advance, keeps the channel's invariants |
| Ledger.ClashKeeps | src/engine.cpp:1231-1245 | a conflicting projection freezes a FROM_OPEN channel or diverts the body in PARTIAL and keeps the invariants |
| Ledger.MakeRoomKeeps | src/engine.cpp:1246-1270 | freeing a colliding slot keeps the invariants |
| Ledger.ProcessActiveKeeps | src/engine.cpp:1189-1280 | the retry loop ends for every pattern of sequences and keeps the invariants |
| Ledger.DiscoverKeeps | src/engine.cpp:751-788 | one arrival during the initial hold keeps the channel collecting or makes it active |
| Ledger.ProcessKeeps | src/engine.cpp:730-791 | every arrival on a new or running channel leaves it in a good state with the same identity |
| Ledger.PollKeeps | src/engine.cpp:802-824 | one step of the timer scan keeps the invariants |
| Ledger.FlushKeeps | src/engine.cpp:832-844 | flushing a channel keeps the invariants |
| Accounting.ProcessAccounts | src/engine.cpp:730-791 | a record handed in is afterwards disposed of or retained exactly once more than before, and no other record's count changes |
| Accounting.PollAccounts | src/engine.cpp:802-824 | the timer scan neither loses nor duplicates a record |
| Accounting.FlushAccounts | src/engine.cpp:827-845 | flushing neither loses nor duplicates a record |
| Conservation.RunSound | src/engine.cpp:730-865 | in every run every channel's fields and publications agree with its trace, and every record of a channel that the lane has is accounted for exactly as often as it was handed in, whichever other channels were refused |
| LaneSpec.FlushEmpties | src/engine.cpp:827-845 | after a flush nothing is pending except on frozen channels, which are left exactly as they were |
| TraceTheorems.Partition | src/engine.cpp:1064-1129 | every sequence from the origin up to the frontier was consumed once or lies in one recorded gap, never both, and outside that range neither |
| TraceTheorems.GapTotals | src/engine.cpp:1096-1122 | the epoch is the number of recorded gaps, and origin plus consumed plus missing is the frontier |
| TraceTheorems.EveryRunPartitions | src/engine.cpp:730-1280 | on every channel of every run the committed range is partitioned, the counters are exact, and frontier and counters stay at or below two to the 63 |
| TraceTheorems.DeliveredInOrder | src/engine.cpp:1042-1061 | the sequences delivered on a channel strictly increase |
| TraceTheorems.HistoryBit | src/engine.cpp:1046-1049 | a dispatched tick keeps the history bit exactly in FROM_OPEN before the first gap, and then every earlier sequence was consumed exactly once and none is missing |
| TraceTheorems.GapMark | src/engine.cpp:1050-1056 | a dispatched tick carries the gap-before mark exactly when a gap was recorded since the previous dispatched tick, with the latest range and the number of gaps |
| TraceTheorems.LateMark | src/engine.cpp:1013-1035 | a diverted body never claims complete history, names the frontier and epoch it met, and if diverted as late with a sequence at or above the origin, that sequence had already been consumed or given up |
| Conservation.ShutdownDrains | src/engine.cpp:827-845 | after a final flush a channel that is not frozen retains nothing and every record it was given was disposed of exactly as often as it was given |
| TraceTheorems.RetriedRecordSurvives | src/engine.cpp:1200-1279 | a record not behind the frontier and not yet retained is emitted or retained by the call that brings it, however often it is retried; forced advances never make it late |
| Timers.StepArms | src/engine.cpp:730-845 | every call leaves the saturating deadline of each channel none of whose ticks was refused at or after the cached one, which is nonzero while it retains records |
| Timers.RunArmed | src/engine.cpp:798-824 | in every run with a positive clock the cached deadline is never later than that of a channel none of whose ticks was refused |
| Timers.FastPathExact | src/engine.cpp:798-800 | for each such channel, returning early from a poll does exactly what the full scan would have done, up to the cached deadline itself |
| Timers.RefusedTickDisarms | src/engine.cpp:1074-1076 | a run in which a refused tick leaves a gap wait open with nothing retained |
| Timers.RefusedTickStalls | src/engine.cpp:1074-1076 | ... after which a gap is ripe and no poll finds it |
| Timers.ZeroClockStalls | src/engine.cpp:814-823 | a record retained at clock zero is ripe and no poll finds it |
| Healing.NoCollision | src/engine.cpp:969-980 | within the reorder span no two retained sequences share a slot |
| OneChannel.StepTakes | src/engine.cpp:730-865 | every input takes each channel from where it was, independently of the lane's other channels |
| OneChannel.LastPublishesOwn | src/engine.cpp:1110-1150 | whatever an input makes a channel publish names the channel: ticks and late records carry its market, number and sequence, gaps and faults its market and number and the clock of that input |
| OneChannel.PublishesOwn | src/engine.cpp:730-1153 | on every run every tick, late record, gap and fault of a channel is its own and names it, with the clock of some input of the run |
| Decisions.ScanGivesUp | src/engine.cpp:793-825 | a poll at or past the cached deadline records, for each settled channel whose gap wait runs, exactly the gap up to the least retained sequence and moves past it if and only if the wait is over, ends a hold if and only if it is over, and leaves every other channel as it was |
| Decisions.PollExact | src/engine.cpp:793-825 | on every run with a positive clock a poll at any time, early return or not, does the same to each channel none of whose ticks was refused, and a timer runs on each that retains records |
| Decisions.RepeatExact | src/engine.cpp:1225-1245 | a record whose sequence is retained, during the hold or after, is a counted duplicate if and only if contents and catalog answer agree; otherwise it freezes the channel with the fault in FROM_OPEN and is diverted as a conflict in PARTIAL; nothing else changes |
| Decisions.RepeatOfRun | src/engine.cpp:969-984 | the same of the last arrival of any run |
| Decisions.LateExact | src/engine.cpp:1201-1209 | a record behind the frontier is diverted as late with the frontier and epoch it met, and nothing else changes |
| Decisions.NextExact | src/engine.cpp:1210-1222 | a record at the frontier is published first and without a gap; a refused tick leaves the frontier and everything retained, otherwise the frontier passes the record |
| Decisions.FutureExact | src/engine.cpp:1246-1278 | a future record with a free slot makes the channel give up the gap before the least retained record if and only if it is beyond the span or no wait is configured; otherwise it is only retained |
| Decisions.CollisionGivesUp | src/engine.cpp:1255-1269 | a future record that collides makes the channel first give up exactly the gap before the least of it and the retained records |
| Decisions.FreezeStep | src/engine.cpp:847-865 | an input freezes a live FROM_OPEN channel if and only if it contradicts a retained record or is a body of the channel that does not decode, with the fault naming channel, reason, frontier, observed sequence and clock; a frozen channel only counts what it is given |
| Decisions.FrozenExactly | src/engine.cpp:1131-1153 | on every run a FROM_OPEN channel is frozen if and only if some input was such a contradiction or failure |
| Waits.WaitExact | src/engine.cpp:1271-1274 | on every run with a positive clock the wait of a channel none of whose ticks was refused began with the last input that moved the frontier, ended the hold or found nothing retained, and there is none while nothing is retained |
| Waits.HoldExact | src/engine.cpp:776-781 | on every run with a positive clock the hold of a PARTIAL channel began with the first record it was given |
| Conservation.EmittedWasGiven | src/engine.cpp:1037-1083 | a channel publishes only records that the lane was given for it |
| Healing.BoundedReorderingHeals | src/engine.cpp:730-1280 | in every FROM_OPEN run, with other channels and timer scans in between, whose records of a channel are consistent and within the span, in which no scan finds its wait reached and none of its ticks is refused: no gap, frontier equal to the least sequence not received, exactly the sequences below it consumed once and in order, the rest retained |
| Healing.OwnersGetAll | src/engine.cpp:1037-1083 | if moreover every instrument is in the catalog, the owners received exactly 1, 2, 3, ... up to that frontier, in this order |
| Arrivals.OrdinalRecovered | benchmarks/benchmark_mdl_ingest.cpp:489-509 | the schedule never repeats a pair of channel and sequence |
| Arrivals.ArrivalRecovered | benchmarks/benchmark_mdl_ingest.cpp:489-509 | the schedule misses no pair |
| Arrivals.QuantaExact | benchmarks/benchmark_mdl_ingest.cpp:489-509 | in both patterns a whole number of quanta deals exactly the sequences from 1 to quanta times window on every channel |
| Arrivals.OrderedIsWindowOne | benchmarks/benchmark_mdl_ingest.cpp:489-509 | the ordered pattern is the reversed one with a window of one |
| Arrivals.DealtToOne | benchmarks/benchmark_mdl_ingest.cpp:499-508 | among any first arrivals of the schedule, those of one channel are exactly its reversed sequences, each in its turn |
| Arrivals.LocalReversalHeals | benchmarks/benchmark_mdl_ingest.cpp:789-820 | a lane fed any first arrivals of the schedule for its channels, with a window up to the span plus one and timer scans that find no wait reached: no gap on any channel none of whose ticks is refused, every whole block consumed once and in order |
| Arrivals.QuantaHeal | benchmarks/benchmark_mdl_ingest.cpp:716-746 | after whole quanta every channel has consumed its whole share and retains nothing, and the owners got 1, 2, 3, ... in order, which is what the benchmark checks |
| Arrivals.WiderWindowSkips | benchmarks/benchmark_mdl_ingest.cpp:499-508 | with any wider window the very first arrival records a gap |
| PartialOrigin.HoldEndsExact | src/engine.cpp:776-787 | a record that does not collide keeps the hold with every sequence retained, or ends it with the smallest sequence observed as the origin |
| PartialOrigin.TimerEndsHold | src/engine.cpp:809-812 | a timer scan ends the hold exactly when it is reached, with the smallest sequence observed as the origin |
| PartialOrigin.FlushEndsHold | src/engine.cpp:837-839 | the final flush ends the hold with the smallest sequence observed as the origin |
| PartialOrigin.CollisionExact | src/engine.cpp:770-775 | when a colliding record ends it, the origin is the smallest observed if and only if the record is above some retained one; otherwise the record is diverted as late |
| PartialOrigin.OriginExact | src/engine.cpp:751-845 | on every run, the origin of a channel is the smallest sequence observed up to the end of its hold if and only if the hold was not ended by a colliding record below every retained one, and stays what it is |
| PartialOrigin.SmallestCanBeLate | src/engine.cpp:770-775 | a run of two records in which the origin is not the smallest sequence observed, and the smallest is diverted as late |
| OwnerStream.ShareOfStream | src/engine.cpp:1793-1809 | of everything a lane has pushed to an owner, the part of one channel is exactly what that channel published to the owner, in its order |
| OwnerStream.PushedIsStream | src/engine.cpp:1769-1784 | if the worker tries each offer of a run as often as PublishBounded does, with the ring giving the answers the recovery got, then what the ring has pushed is a prefix of the lane's accepted ticks |
| OwnerStream.OwnerSeesIncreasing | src/engine.cpp:466-532 | in every interleaving of such a ring what an owner popped of a channel is a prefix of what the channel published to the owner, in strictly increasing native sequence |
| Recovery.SequenceRecovery.Insert | src/engine.cpp:969-989 | inserting into the slot array reports exactly inserted, duplicate, conflict or collision with respect to the retained map, and updates it accordingly |
| Recovery.SequenceRecovery.Find | src/engine.cpp:991-998 | finds a sequence exactly when it is retained |
| Recovery.SequenceRecovery.MinimumOf | src/engine.cpp:1000-1011 | the scan returns the smallest retained sequence, or the largest 64-bit value when there is none |
| Recovery.SequenceRecovery.Emit | src/engine.cpp:1037-1062 | clears history and attaches gap metadata as specified and reports the sink's answer |
| Recovery.SequenceRecovery.DivertLate | src/engine.cpp:1013-1035 | publishes the specified late record and changes nothing else |
| Recovery.SequenceRecovery.RecordGap | src/engine.cpp:1085-1129 | commits the missing range with the specified counters and publication |
| Recovery.SequenceRecovery.FreezeFromOpen | src/engine.cpp:1131-1153 | freezes once, with the specified fault |
| Recovery.SequenceRecovery.ScheduleDeadline | src/engine.cpp:908-917 | the cached deadline becomes the earlier of the old one and the saturating new one |
| Recovery.SequenceRecovery.DrainRun | src/engine.cpp:1069-1078 | the drain loop emits exactly the contiguous run at the frontier, stopping at a refused tick |
| Recovery.SequenceRecovery.Drains | src/engine.cpp:1064-1083 | the drain with its re-arming of the gap timer |
| Recovery.SequenceRecovery.FinishDiscoveryOf | src/engine.cpp:1155-1167 | ends the discovery exactly as specified |
| Recovery.SequenceRecovery.ForceToMinimum | src/engine.cpp:1169-1187 | forces the frontier to the smallest retained record exactly as specified |
| Recovery.SequenceRecovery.ActiveArrival | src/engine.cpp:1189-1280 | the retry loop terminates and refines the recursive specification; every round frees a slot or moves the frontier to the record |
| Recovery.SequenceRecovery.DiscoveryArrival | src/engine.cpp:751-788 | an arrival during the hold does exactly what is specified |
| Recovery.SequenceRecovery.FindOrCreate | src/engine.cpp:931-967 | finds or creates the channel at the index the growing map gives it, for any hash, and fails only for a new name when the maximum is reached |
| Recovery.SequenceRecovery.Process | src/engine.cpp:730-791 | the whole object after an arrival represents exactly the specified lane |
| Recovery.SequenceRecovery.Poll | src/engine.cpp:793-825 | the whole object after a poll represents exactly the specified lane |
| Recovery.SequenceRecovery.Flush | src/engine.cpp:827-845 | the whole object after a flush represents exactly the specified lane; the loop terminates |
| Recovery.SequenceRecovery.FreezeDecodeFailure | src/engine.cpp:847-865 | the whole object after a decode failure represents exactly the specified lane |
| ChannelIndex.OthersUntouched | src/engine.cpp:730-791 | an arrival changes no channel but its own |
| ChannelIndex.IndexForever | src/engine.cpp:931-967 | once a name has an index it keeps it through every later input |
| ChannelIndex.GapSlotInBounds | src/engine.cpp:486-492 | every channel of every run has its own mailbox slot within the dispatcher's bounds, so publishing a gap never fails |
| ProbeTable.FreeMeansAbsent | src/engine.cpp:936-959 | a probe that meets a free slot proves its key absent, for any hash |
| ProbeTable.ProbeEnds | src/catalog.cpp:192-221 | a probe cannot run through a whole table that has more slots than entries |
| ProbeTable.Register | src/engine.cpp:936-959 | filing a new key in the slot that ended its probe keeps every key findable |
| Catalog.VerdictExact | src/catalog.cpp:106-221 | the checks made definition by definition accept exactly the lists with valid definitions, unique nonzero ids and unique identities |
| Catalog.InstrumentCatalog.Build | src/catalog.cpp:98-236 | succeeds with the catalog holding the definitions, or reports the first thing wrong with them and leaves the catalog unchanged |
| Catalog.InstrumentCatalog.Find | src/catalog.cpp:315-353 | returns the ordinal and id of the definition with exactly this identity, and nothing exactly when there is none |
| Catalog.IdentityUnique | src/catalog.cpp:201-218 | an identity names at most one definition |
| GapMailbox.RecheckKeeps | src/engine.cpp:384-393 | once the recheck has passed, no buffer the producer may be about to write is the claimed one |
| GapMailbox.StoreKeeps | src/engine.cpp:361-366 | storing a token publishes a complete gap under a new generation |
| GapMailbox.MoveKeeps | src/engine.cpp:346-403 | every step of either side keeps the mailbox's invariant |
| GapMailbox.NeverTorn | src/engine.cpp:346-403 | in every interleaving every ready result is exactly one published gap, generations strictly increase, and the producer never writes the buffer being copied |
| GapMailbox.QuietSnapshot | src/engine.cpp:369-403 | without a publication in progress a snapshot ends with the newest gap delivered, now or earlier |
| GapNotification.MoveKeeps | src/engine.cpp:486-599 | every step of producers and consumer keeps each undelivered gap noticed: dirty, pending, about to be notified, or being handled |
| GapNotification.NeverLost | src/engine.cpp:486-599 | no interleaving loses a notification |
| GapNotification.QuietMeansDelivered | src/engine.cpp:553-599 | with producers at rest and no bit left, everything published was delivered |
| GapDispatcher.Dispatcher.PublishGap | src/engine.cpp:486-503 | publishes and sets the channel's own bit, or rejects indices out of range and changes nothing |
| GapDispatcher.Dispatcher.PollWord | src/engine.cpp:559-597 | looks at leftovers before fresh bits, lowest first, delivers the first news in the word, and puts a busy bit back and gives up |
| GapDispatcher.Dispatcher.TryPollGap | src/engine.cpp:553-599 | delivers the newest gap of the first channel with news from the cursor on, or gives up at the first busy snapshot before it, or has swept every word and found none |
| GapDispatcher.GivingUpKeeps | src/engine.cpp:582-585 | a poll that a busy snapshot ends loses no notification, and its bit is left over for the next |
| GapDispatcher.TwoQuietPolls | src/engine.cpp:553-599 | from a board that lost nothing, two polls in a row that return false mean that every gap was delivered |
| GapQuiet.BoardLosesNothing | src/engine.cpp:486-599 | what a concurrent run leaves when it comes to rest is a board that lost nothing |
| GapQuiet.TwoQuietPollsOfRun | src/engine.cpp:486-599 | after any concurrent run that has come to rest, two polls in a row that return false mean that the newest gap of every channel was delivered |
| GapDispatcher.OneQuietPoll | src/engine.cpp:562-565 | one is enough exactly when no leftover bits hid a fresh bit with news |
| GapDispatcher.OneFalseIsNotEnough | src/engine.cpp:562-565 | in every dispatcher with two channels a sequence of calls from the start after which a poll finds nothing although a gap is undelivered |
| SpscRing.Ring.TryPush | src/engine.cpp:170-183 | appends to the queue, or fails exactly when it is full |
| SpscRing.Ring.TryPop | src/engine.cpp:185-199 | takes the oldest element, or fails exactly when the queue is empty |
| SpscRing.WriteIsApart | src/engine.cpp:172-181 | the slot being written is never one that holds a live element |
| SpscRing.StepRefines | src/engine.cpp:170-199 | step by step, with stale copies of the indices, the ring is a bounded queue; a push is refused only when it is full and a pop only when it is empty |
| SpscRing.NeverReordered | src/engine.cpp:170-199 | in every interleaving what was popped is a prefix of what was pushed, at most one capacity behind |
| SlotCycle.HandIsApart | src/engine.cpp:248-264 | the slot in the producer's hand is in no ring and not in the consumer's hand, and the ready ring has room for it |
| SlotCycle.CycleSound | src/engine.cpp:225-299 | in every interleaving each slot is in exactly one place, no ring refuses a slot, and the consumer reads exactly what was published, in order |
| LaneStorage.Storage.TryPublish | src/engine.cpp:239-269 | queues the message, or fails exactly when the body is too large or no slot is free or given back |
| LaneStorage.Storage.TryConsume | src/engine.cpp:271-285 | returns exactly the header and body published first and not yet taken |
| LaneStorage.Storage.Release | src/engine.cpp:287-289 | gives back a held slot, whichever it is, and fails for a number that is no slot; a slot that is not held is taken too, and exactly then the store is valid no more |
| LaneStorage.Storage.Empty | src/engine.cpp:291 | says exactly whether no message is waiting |
| LaneStorage.CopyLeavesOthers | src/engine.cpp:259-263 | copying a body into one slot's part of the arena leaves every other message intact |
| Shutdown.MoveKeeps | src/engine.cpp:1518-1650 | every step of any number of callers, stoppers and workers keeps the shutdown protocol's invariant |
| Shutdown.PushedIsReported | src/engine.cpp:1640-1649 | in every interleaving and at any time the messages pushed on a lane are exactly those that Admit has reported as accepted, in order and as often, and then at most one that a caller is about to report |
| Shutdown.NothingStranded | src/engine.cpp:1518-1533 | when a worker has exited, it has consumed everything pushed on its lane in order; once the callers have returned that is exactly what Admit reported as accepted |
| Shutdown.GateStaysShut | src/engine.cpp:1519-1526 | after running is cleared nothing is pushed any more |
| Wire.LoadUnsigned | src/decoder.cpp:104-123 | loads the little-endian number at an offset, or nothing when it would leave the buffer |
| Wire.BytesOfValue | src/decoder.cpp:104-123 | n bytes spell a number below 256 to the n, and are its bytes |
| Wire.Buffer.PutUnsigned | benchmarks/benchmark_mdl_ingest.cpp:116-127 | stores the lowest bytes of a number and nothing else |
| Wire.Buffer.AppendText | benchmarks/benchmark_mdl_ingest.cpp:141-155 | appends a text and points its descriptor to it |
| Wire.LoadOfPut | benchmarks/benchmark_mdl_ingest.cpp:116-139 | what was stored is loaded again |
| Wire.LoadBesidePut | benchmarks/benchmark_mdl_ingest.cpp:116-139 | storing a number leaves every load beside it as it was |
| FixedPoint.NormalizeExact | src/decoder.cpp:276-297 | a valid raw value is scaled if and only if the product fits in 64 bits, on both signs with truncating division, and then to exactly that product |
| FixedPoint.TimeIncreases | src/decoder.cpp:417-441 | accepted times decode in order and to less than one day |
| FixedPoint.TimeAccepted | src/decoder.cpp:417-441 | exactly the times with hour below 24 and minute and second below 60 are accepted, with their value |
| DynamicRanges.Reader.ProtectRange | src/decoder.cpp:81-102 | accepts a range exactly when it overlaps none accepted before |
| DynamicRanges.Reader.Text | src/decoder.cpp:159-214 | reads a text exactly as specified over the body's bytes, errors included |
| DynamicRanges.Reader.List | src/decoder.cpp:222-274 | reads a list descriptor exactly as specified, errors included |
| DynamicRanges.TextDisciplined | src/decoder.cpp:159-214 | an accepted text is the bytes of a range behind the fixed part, inside the body and apart from all others |
| DynamicRanges.ListDisciplined | src/decoder.cpp:222-274 | an accepted list occupies such a range |
| DynamicRanges.TotalBounded | src/decoder.cpp:81-102 | all accepted ranges together are no longer than the body without its fixed part |
| SnapshotBook.BookReader.ValidateAndDecodeLevel | src/decoder.cpp:976-1029 | one level with its nested queue as specified; the subtraction from the queue limit cannot underflow |
| SnapshotBook.BookReader.Levels | src/decoder.cpp:1154-1174 | the loop over a list's levels retains the first ones and validates the rest, as specified |
| SnapshotBook.BookReader.Decode | src/decoder.cpp:1131-1174 | both lists, then bid levels, then ask levels, with the totals and flags as specified |
| SnapshotBook.PriceInBounds | src/decoder.cpp:341-375 | level prices never overflow |
| SnapshotBook.LevelOrderly | src/decoder.cpp:1180-1232 | decoding a level inside the body fails only for a declared count or range, and keeps ranges disjoint and queue items within the limit |
| SnapshotBook.BookOrderly | src/decoder.cpp:1339-1382 | every load of a book is in bounds, all ranges stay disjoint and within the body's length, queue items within the limit, and the retained levels are the first of each list |
| BookContents.ShanghaiBook | src/decoder.cpp:976-1143 | a decoded Shanghai book has on each side the depth and the first ten levels of its own list, each with the price, quantity and order count loaded at their offsets in the level; a price is scaled exactly if positive, a quantity valid exactly if not negative, and no queue is longer than the order count |
| BookContents.ShenzhenBook | src/decoder.cpp:1180-1366 | the same of a Shenzhen book, at the offsets and widths of its format |
| BookContents.TruncatedExactly | src/decoder.cpp:1150-1153 | the book is flagged as truncated exactly if a side has more than ten levels |
| ShanghaiTick.DecodeTick | src/decoder.cpp:600-782 | the record of a tick body for all four record types as specified, with its texts' ranges disciplined |
| Pipeline.DecodeMessage | src/decoder.cpp:450-786 | the whole decode of a Shanghai tick message, with vendor time and the catalog's answer, as specified |
| Pipeline.PayloadExact | src/engine.cpp:683-703 | two decoded records of one place compare equal exactly if the listed fields agree |
| Pipeline.ChannelHears | src/engine.cpp:1854-1890 | a channel is given exactly the decodes of the messages its worker takes, in their order |
| Pipeline.ChannelStaysTogether | src/engine.cpp:1633-1638 | all messages of a channel go to one lane in the order in which they were admitted, however routes are spread over lanes |
| Pipeline.AdmittedIsDisposedOf | src/engine.cpp:1518-1650 | when a worker has exited and flushed, every record of every message admitted for a channel that is not frozen was disposed of exactly as often as it was admitted |
| Pipeline.OwnersReceive | src/engine.cpp:1784-1910 | of an admitted sequence of messages whose records of a channel are within the span the owners receive exactly 1, 2, 3, ... before the least sequence missing |
| EndToEnd.BenchmarkDelivers | benchmarks/benchmark_mdl_ingest.cpp:789-820 | whole quanta of the schedule, encoded, admitted, routed, decoded and recovered, are delivered completely and in order on every channel |
| EndToEnd.OwnerPopsInOrder | benchmarks/benchmark_mdl_ingest.cpp:716-746 | whatever the interleaving at its ring, the owner pops native sequence i as the i-th tick of the channel, which is what the benchmark checks |
| TickContents.TickSays | src/decoder.cpp:597-782 | whatever decodes has every field as loaded at its offset, and the letters of its two texts decide exactly action, side with the order of that side, aggressor, phase, which orders and quantities are valid, and whether an unknown letter is flagged |
| ShanghaiTick.NumbersExact | src/decoder.cpp:597-782 | whatever decodes has a price exactly if it is an add or a trade with a positive raw price, an amount exactly if it is a trade with one that is not negative, a matched quantity exactly if it is an add with a whole one, and each is the scaled raw number of the body |
| ShanghaiTick.ShortcutsAgree | src/decoder.cpp:1467-1545 | whatever decodes is routed and described under the very channel and sequence it decodes to |
| ShanghaiTick.OverflowExactly | src/decoder.cpp:690-782 | past the texts a decode fails exactly for a trade whose amount does not fit in 64 bits |
| ShanghaiTick.OneLanePerChannel | src/engine.cpp:1633-1638 | messages have the same route exactly when they are of the same channel, so a channel stays on one lane |
| ShanghaiTick.MarketsApart | src/decoder.cpp:1474-1496 | a Shanghai channel never shares a route with a Shenzhen one |
| Synthetic.MakeBody | benchmarks/benchmark_mdl_ingest.cpp:157-172 | writes the specified body |
| Synthetic.MakeHeader | benchmarks/benchmark_mdl_ingest.cpp:174-186 | writes the specified header |
| Synthetic.RoundTrip | benchmarks/benchmark_mdl_ingest.cpp:157-172 | for every positive channel and sequence and every printable id that is not empty and fits its descriptor the sent body decodes to the record it was made from, exactly if the id is within the text limit, and both shortcuts agree |
| Synthetic.HeaderRoundTrip | src/engine.cpp:2066-2084 | the header with the ordinal stored parses back to the fields it was made from |

## Left out

- Memory order: atomics are sequentially consistent steps. The mailbox uses that order itself; the rings and
  the Stop/Admit handshake use acquire and release, so their proofs cover interleavings only.
- The rings' 64-bit counters and the mailbox's generation do not wrap (2^64 and 2^62 operations).
- Dynamic loading, vendor objects and foreign callbacks (`src/sdk_runtime.cpp`), the daemon, CSV and stream files.
- Thread creation, affinity, spinning and real clocks; times are inputs. `Stop` is not called during `Start`.
- Queue sizes behind the fault and late sinks: one Boolean answer per call.
- Allocation failure and exceptions.
- The Shenzhen tick decoders with their enum tables and stream ids, and the fixed fields of both snapshots: more of
  the same loads and flags. In `Pipeline` a Shenzhen message comes with what it decodes to.
- Concrete hashes; any hash is allowed. Configuration validation is assumed (`Canonical.ValidConfig`).
- Statistics and the benchmark's measurements.
- Recovery.SequenceRecovery.FindOrCreate: the channel vector grows on demand instead of being sized up front.
- Catalog.InstrumentCatalog.Find: probes with the loop of `Build`, which has no bound of its own; both end at the same slot.
- Synthetic.RoundTrip: the encoder only writes trades, so the other three record types have no encoder to return to.
- A decode that fails without a readable position only raises the engine's fatal error, which is not modelled.
