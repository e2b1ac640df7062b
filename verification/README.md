# Verified model of the Prazor virtual platform's hard parts

Prazor simulates multi-core ARM systems. This project models the parts of the
simulator where many small updates have to add up, and proves that they do:

- **The coherence fabric** (`Fabric*.dfy`). Every node has a system request
  interface (SRI) and a crossbar. The nodes and a bag of messages in flight form
  a transition system; one callback, or one locked region of the blocking
  transport call, is one step. A run starts idle and interleaves arriving
  transactions, deliveries, replies and wake-ups in any order.
  `Fabric` holds the handlers and the steps, `FabricView` the invariant (an
  abstract view that determines every message in flight), `FabricRank` a measure
  of the work left, `FabricSteps`, `FabricEngine`, `FabricAnswers`,
  `FabricCollect` and `FabricHomes` one proof per kind of step, `FabricRuns` the
  invariant over runs, `FabricTheorems` the safety results, `FabricMistakes` the exact
  condition for the counting of answers, `FabricData` whose data an acknowledgement
  reports, `FabricOrder` the order of parked requests and probes, who wakes a
  transaction and where a line moves, and `FabricProgress` freedom from
  deadlock and completion. `FabricMigration`, built from the single steps in
  `FabricEffects`, holds runs that go wrong when lines can move. `FabricNodes` is the
  same set of handlers as objects updated in place, each proved equal to its function.
- **The directory** (`Directory`, `DirectoryFrames`, `DirectoryNodes`): which node
  owns a cache line, the frame allocator of every node, and the frames that requests
  carry while lines move. `FabricFrames` joins it to the fabric, and `FabricStale` is
  a run of both.
- **The requester's line queues** (`LineQueue`) and **the merge of data
  acknowledgements** (`ReadMerge` for reads, `WriteMerge` for writes).
- **The message pool** (`MsgPool`): a linked chain split by a cursor.
- **Translation**: the ARM TLB against the table walk (`Tlb`), the walk against
  tables laid out from a plan of the address space (`TlbTables`), the lazily built
  radix table and the address translation above it (`RadixTable`, `VmUnit`), the
  trampoline target buffer (`Abtb`).
- **The ARM core** in A32 state: flags and conditions (`ArmAlu`), banked
  registers and exceptions (`ArmException`), block transfers (`ArmBlock`).
- **Interrupt selection** (`Gic`) and **the GDB remote protocol** (`Rsp`).

Code that updates state is modelled twice: as a function on values, about which
the properties are proved, and as a class or a loop in the source's own form,
whose contract is equality with the function.

## Reading the results

- `LineQueue.NoAssertionFails`, and with memory migration off (the default)
  `FabricRuns.OrderlySafe`, say that the run-time assertions modelled on those paths
  never fail. Elsewhere a failed assertion is a result of its own (`AssertionFailed`,
  `Crash`, `OutOfPages`) or the condition for it is proved.
- With memory migration on, a write moves its line before all sockets have answered,
  so the new home may take up another request for the line while the write is still in
  service. Four things go wrong then. Each is shown by a run from the start, and each
  has its condition:
  - An engine matches DRAM's answer to its running probe by the line alone
    (sri.cpp:624-625). A step is *mistaken* if it delivers such an answer while the
    answer's own probe, which its home sent to itself, is still on its way or parked.
    The accounts of engines and sockets hold throughout a run if and only if no step
    was mistaken (`FabricMistakes.AccountsExactly`). In unmistaken runs each home has
    messages of one request only and an unblock finds it busy
    (`FabricTheorems.Serialised`, `FabricTheorems.UnblockIsLast`); after a mistaken
    step an assertion can fail (`FabricMigration.AnswerRefused`) or a home serve two
    requests at a time (`FabricMigration.TwoAtOneHome`).
  - In unmistaken runs one assertion can still fail, on one kind of step: a probe
    without interest in DRAM that starts where DRAM has answered early for its line
    (`FabricRuns.NoAssertionFails`, `FabricMigration.ProbeRefused`). A run serves one
    request per home and per line if and only if it is orderly, that is, no home takes
    up a request for a line still in service (`FabricTheorems.SerialExactly`), and in
    orderly runs all these assertions hold (`FabricRuns.OrderlySafe`).
  - A home that sends a parked request after its line does not notify the next one.
    That, with nothing else coming, is exactly how a home gets stuck
    (`FabricProgress.StuckExactly`), and a parked request may then never be served
    (`FabricMigration.NeverServed`); every other one can be
    (`FabricProgress.EverybodyServedOrParked`).
  - The assertion that a dirty line is written back to the frame its request carries
    holds if and only if the line, should it have come back to the node since the frame
    was looked up, was given that same frame (`DirectoryFrames.TakeOverAsserts`,
    `DirectoryFrames.SameFrameAgain`, `FabricFrames.FramesExactly`);
    `FabricStale.StaleWriteBack` is a run where it fails. With migration off the
    assertion is never reached.
- Some properties hold under a condition only; the condition is proved exact:
  - The read merge is right on an arrival order if and only if nothing but memory
    follows a write buffer's data and not even memory does when a cache answered
    first (`ReadMerge.ExactlyOrderly`); in the order cache, write buffer, memory
    the stale memory bytes replace the cache's (`ReadMerge.MemoryOverwritesCache`).
  - A translation equals the reference exactly when the page does not end at
    2^32 (`Tlb.TranslateKeeps`); there the assertion after the second lookup fails.
  - Invalidation by address takes the first entry covering the address, whatever
    its address space (`Tlb.MvaRemoves`, `Tlb.MvaMisses`).
  - The page-table levels fit their array if and only if the number of levels
    divides the number of frame-number bits (`RadixTable.SplitLevels`), because
    the quotient is truncated before it is rounded up.
  - A frame is accepted exactly when its escaped form leaves two bytes of the
    buffer free (`Rsp.AcceptedExactly`).
  - The status register is restored on return unless IRQ mode was interrupted
    with interrupts unmasked (`ArmException.StatusRestored`).
  - After an aborted block transfer the base register is intact unless it is the
    link register of abort mode (`ArmBlock.AbortKeepsBase`).
  - The trampoline buffer answers with the current target for every address but
    0xFFFFFFFF, the tag of an unused entry (`Abtb.NeverStale`,
    `Abtb.ReservedAddressHits`).

## Conventions

- Machine words are integers below 2^32; shifts and masks by constants are
  divisions and remainders, and sums wrap where the source's do.
- The busy flag of a home, which the source does not initialise, starts false.
  Where an early return leaves a lock held, the step is still one step. In the
  fabric a request is sent and its acknowledgement bookkeeping is set up in one
  step; `LineQueue` takes the two apart. Every
  SRI has at least one cache, and every cache and memory answers each question
  exactly once. DRAM bases are not zero where that matters
  (`Directory.RequeueFindsOwner`).
- CP15 registers and memory are parameters of a translation; the MMU of an
  address space sees registers and tables that do not change until the TLB is
  told (`Tlb.Event`).

## Model

| member | source | states |
|---|---|---|
| FabricRuns.NoAssertionFails | vhls/src/bus/sri.cpp:477-664 | after any run in which no DRAM answer was counted for another request, migration on or off, the next step passes the run-time assertions modelled if and only if it is not a probe without interest in DRAM that starts at an idle engine holding early DRAM data for its line |
| FabricRuns.OrderlySafe | vhls/src/bus/sri.cpp:425-1074 | in orderly runs, and so with migration off, no assertion modelled ever fails: the unblock finds its home busy, early DRAM data is expected, all sockets' bits are set when the count is complete, a completing read has data, a parked request's line has an owner |
| FabricRuns.MigrationOff | vhls/src/bus/crossbar.cpp:64-89 | with migration off every run is orderly and unmistaken and leaves nobody behind |
| FabricRuns.OrderlyUnmistaken | vhls/src/bus/sri.cpp:622-636 | if no home takes up a request for a line still in service, no DRAM answer is counted for another request |
| FabricRuns.RunInv | vhls/src/bus/crossbar.cpp:64-227 | every state of every unmistaken run is explained by a view that accounts for each message in flight, queue entry, counter and busy flag |
| FabricTheorems.Serialised | vhls/src/bus/crossbar.cpp:70-89 | in every unmistaken run, migration on or off, a home has messages of one request only between setting and clearing its busy flag; with migration off so has each line in the whole system |
| FabricTheorems.SerialisedLines | vhls/src/bus/crossbar.cpp:70-89 | in every orderly run each line has at most one request in service in the whole system |
| FabricMistakes.AccountsExactly | vhls/src/bus/sri.cpp:622-640 | in a run, migration on or off, every engine counts the answers of one request and every socket of a request in service is accounted for once, at all times, if and only if no DRAM answer was counted for another request |
| FabricMistakes.MistakenBreaks | vhls/src/bus/sri.cpp:622-663 | a DRAM answer that is matched by its line alone to another request leaves a wrong counter, or an engine at rest with its cache still asked |
| FabricTheorems.SerialExactly | vhls/src/bus/crossbar.cpp:70-89 | a run, migration on or off, serves one request per home and one per line at all times if and only if every request taken up was for a line not in service elsewhere |
| FabricTheorems.RequestConserved | vhls/src/bus/crossbar.cpp:70-82 | the request of every transaction has one home and is in exactly one place there while it waits; after that its home is busy with it, and with nothing else, until the unblock |
| FabricTheorems.NoStrayRequest | vhls/src/bus/sri.cpp:280-346 | every request in flight or parked belongs to a live transaction of its source, with migration off at the line's owner, and is parked nowhere else |
| FabricTheorems.QueueProgress | vhls/src/bus/crossbar.cpp:364-445 | unless some unblock sent a request away from other parked ones, an idle home with parked requests has a re-notified request on its way |
| FabricTheorems.ProbeProgress | vhls/src/bus/sri.cpp:889-899 | an idle probe engine with parked probes always has a re-notified probe on its way |
| FabricTheorems.SocketTrichotomy | vhls/src/bus/sri.cpp:482-512 | each socket of a request in service still owes its acknowledgement, or has one in flight, or is recorded: exactly one of the three |
| FabricTheorems.AckBalance | vhls/src/bus/sri.cpp:909-917 | unanswered sockets plus acknowledgements in flight plus recorded bits equal the socket count |
| FabricTheorems.EngineCounts | vhls/src/bus/sri.cpp:619-663 | a busy engine's counter equals the local answers still on their way, DRAM's included, all of one request, with migration off at the line's owner; it is zero only during a write-back |
| FabricTheorems.UnblockedIsOver | vhls/src/bus/sri.cpp:1038-1065 | after its unblock is sent nothing of a request is in flight but that unblock and the store, once each, and every socket has answered |
| FabricTheorems.UnblockIsLast | vhls/src/bus/crossbar.cpp:364-373 | in every unmistaken run, migration on or off, an unblock arrives at a busy home and is the only message left of the request served there |
| FabricTheorems.ReadAnswered | vhls/src/bus/sri.cpp:1073-1074 | the acknowledgement of a read's home always carries data, so no read completes without a response |
| FabricData.AckCarriesData | vhls/src/bus/sri.cpp:838-866 | in every unmistaken run an acknowledgement in flight from a socket carries data if and only if, since its home took up the request, a local cache of that socket answered this very request with data, or the socket is the home and its DRAM has answered |
| FabricData.WrittenBackFirst | vhls/src/bus/sri.cpp:740-835 | in every unmistaken run a line has been written back from a socket for a request if and only if the request is an invalidation and the acknowledgement in flight carries data |
| FabricData.DataStep | vhls/src/bus/sri.cpp:607-664 | every unmistaken delivery keeps the account of what has been brought to each socket, for questions, answers, write-backs, acknowledgements and parked probes |
| FabricData.BroughtMeans | vhls/src/bus/sri.cpp:638-664 | what the account calls brought is exactly an answer with data delivered since the home took up the request |
| FabricOrder.ProbeOrder | vhls/src/bus/sri.cpp:483-488 | in every unmistaken run, migration on or off, the probes a socket has sent again, followed by those still parked there, are those it parked, in order |
| FabricOrder.RequestOrder | vhls/src/bus/crossbar.cpp:70-81 | in every unmistaken run, migration on or off, the requests a home has sent away again, followed by those still parked there, are those it parked, in order |
| FabricOrder.SentToOwner | vhls/src/bus/crossbar.cpp:374-442 | a request sent away again goes to the node that owns its line by then |
| FabricOrder.WriteStored | vhls/src/bus/sri.cpp:425-466 | in every unmistaken run a write is woken if and only if its data has been stored since it started |
| FabricOrder.StoreOwed | vhls/src/bus/sri.cpp:1066-1212 | a transaction is unblocked exactly at the full count; its store is in flight, once, exactly while it is an unblocked write that sleeps, and every other kind is woken at the unblock |
| FabricOrder.RecordedExactly | vhls/src/bus/sri.cpp:909-921 | in every run a transaction has recorded a socket if and only if an acknowledgement of that socket has reached it since it started, and counts as answered if and only if one with data has |
| FabricOrder.LineMoves | vhls/src/bus/sri.cpp:677-798 | with migration on, an unmistaken step moves a line exactly when its owner acknowledges a write of another node, then to the writer, or when a write-back starts at a node that does not own it, then to that node |
| FabricRuns.StepInv | vhls/src/bus/sri.cpp:425-1074 | every admissible step passes its assertions and keeps the invariant and the promises made about it |
| FabricProgress.NoDeadlock | vhls/src/bus/sri.cpp:893-899 | while some transaction has not been woken and nobody was left behind, a message is in flight |
| FabricProgress.HomeOrder | vhls/src/bus/crossbar.cpp:70-81 | with migration off, over any run the requests notified again by a home, followed by those still parked there, are those it parked, in order |
| FabricProgress.QuietIdle | vhls/src/bus/crossbar.cpp:364-445 | without messages every home is idle and every probe engine is idle with an empty queue |
| FabricProgress.QuietExactly | vhls/src/bus/crossbar.cpp:374-442 | when no message is left, a transaction has been unblocked and woken if and only if its request is not parked |
| FabricProgress.StuckExactly | vhls/src/bus/crossbar.cpp:374-442 | a step leaves an idle home with parked requests and none on its way exactly when its unblock sends the first parked request to another node, others stay parked and none is coming |
| FabricProgress.DeliveriesEnd | vhls/src/bus/crossbar.cpp:374-438 | from any reachable state only a bounded number of deliveries is possible without new transactions, re-notified requests and probes included; with migration on, of unmistaken deliveries |
| FabricProgress.QuietMeansServed | vhls/src/bus/sri.cpp:1195-1215 | when no message is left and nobody was left behind, every transaction has been unblocked and woken and nothing is parked |
| FabricProgress.EverybodyServedOrParked | vhls/src/bus/sri.cpp:1038-1212 | from every state reached by an orderly run, migration on or off, some orderly run of deliveries alone leaves no message, and then a transaction made so far has been unblocked and woken if and only if its request is not parked |
| FabricProgress.EverybodyServed | vhls/src/bus/sri.cpp:1038-1212 | with migration off, from every reachable state some run of deliveries alone unblocks and wakes every transaction made so far |
| FabricMigration.AnswerRefused | vhls/src/bus/sri.cpp:619-627 | with migration on, a run after which a cache's answer finds its engine at rest and fails the assertion |
| FabricMigration.ProbeRefused | vhls/src/bus/sri.cpp:503-505 | with migration on, an unmistaken run after which a write's probe finds early DRAM data and fails the assertion |
| FabricMigration.TwoAtOneHome | vhls/src/bus/crossbar.cpp:364-373 | with migration on, a run in which a home serves one line while a probe of its earlier request for another line is still on its way |
| FabricMigration.LeftBehind | vhls/src/bus/crossbar.cpp:374-442 | with migration on, an orderly run in which an unblock sends the first parked request away and leaves the second one at an idle home |
| FabricMigration.NeverServed | vhls/src/bus/crossbar.cpp:374-442 | that run continued until no message is left: the second request is never served |
| FabricRank.FallsRelease | vhls/src/bus/sri.cpp:889-899 | freeing an engine costs more work than the parked probe it sends again |
| FabricRank.FallsOpen | vhls/src/bus/crossbar.cpp:87-169 | a request outside service weighs more than everything its service can cause |
| FabricAnswers.Unmatched | vhls/src/bus/sri.cpp:622-636 | an answer that matches no running probe is DRAM's, and the first for its line |
| FabricAnswers.Matched | vhls/src/bus/sri.cpp:638-664 | an answer that matches is for the one request that occupies the engine, and the counter is at least one |
| FabricEngine.ProbeStarted | vhls/src/bus/sri.cpp:493-510 | starting a probe counts the caches and DRAM, less an early DRAM answer, which only a probe that wants DRAM can find |
| FabricCollect.LastMeansAll | vhls/src/bus/sri.cpp:914-917 | the count is complete exactly when every other socket's bit is set |
| FabricHomes.FanCount | vhls/src/bus/crossbar.cpp:91-169 | the fan-out sends one probe to each socket and nothing else |
| FabricNodes.Crossbar.ReqIncoming | vhls/src/bus/crossbar.cpp:64-227 | in place: park the request, or go busy, probe every socket and ask DRAM for reads |
| FabricNodes.Crossbar.UnblockIncoming | vhls/src/bus/crossbar.cpp:364-445 | in place: clear the busy flag and notify the first parked request again, here or at the node that owns its line by now |
| FabricNodes.ProbeEngine.OnProbeMessage | vhls/src/bus/sri.cpp:477-606 | in place: park the probe, or start it and ask every cache |
| FabricNodes.ProbeEngine.OnLocalAckMessage | vhls/src/bus/sri.cpp:607-866 | in place: keep an early DRAM answer, count down, start a write-back, or acknowledge with the data taken in and release; the line's owner afterwards (`FabricData.AckCarriesData` says which data) |
| FabricNodes.ProbeEngine.Settle | vhls/src/bus/sri.cpp:677-798 | the last answer of a write moves a line owned here to the writer, a write-back moves it here, and nothing else moves a line |
| FabricNodes.ProbeEngine.OnEvictedMessage | vhls/src/bus/sri.cpp:1236-1272 | in place: the write-back done, acknowledge and release |
| FabricNodes.ProbeEngine.Release | vhls/src/bus/sri.cpp:868-899 | in place: clear the engine and send the first parked probe again |
| FabricNodes.AckCounter.OnAckMessage | vhls/src/bus/sri.cpp:909-1065 | in place: record the origin, and at the full count send the unblock and the store |
| Directory.NoAssertionFails | vhls/src/bus/sri.cpp:684-798 | in every reachable directory the assertions of write migration and takeover hold, except that a takeover of a line owned here holds exactly when the answer carries the line's frame |
| Directory.StepKeeps | vhls/src/bus/sri.cpp:222-257 | every operation keeps single ownership and the frame account, leaves its line owned, and moves no other line |
| Directory.OwnedForever | vhls/src/bus/sri.cpp:761-799 | a line once owned is owned by exactly one node ever after, through migrations and takeovers |
| DirectoryFrames.RunAsserts | vhls/src/bus/sri.cpp:684-798 | after any run the next operation passes its assertions if and only if it is not a takeover of an owned line that carries another frame |
| DirectoryFrames.TakeOverAsserts | vhls/src/bus/sri.cpp:787-798 | a takeover whose frame was looked up earlier in the run passes its assertions if and only if, should the line have come back to the node since, it was given the frame that is carried |
| DirectoryFrames.SameFrameAgain | vhls/src/bus/sri.cpp:88-97 | a node's own frame is given again exactly when it lies on top of the free list |
| DirectoryFrames.UnmovedAsserts | vhls/src/bus/sri.cpp:787-798 | with migration on, a takeover passes its assertions while nobody moves the line |
| DirectoryFrames.StaleFrame | vhls/src/bus/sri.cpp:795-797 | the run first touch, migration away, first touch of another line, migration back: a takeover that carries the first frame fails its assertion |
| DirectoryFrames.FrameRegained | vhls/src/bus/sri.cpp:83-102 | a line that came back to a node has the frame that was next there when it came back |
| FabricFrames.TablesFollow | vhls/src/bus/sri.cpp:677-798 | over any unmistaken run of the fabric with its directory the nodes' tables represent the owners the fabric works with |
| FabricFrames.FramesExactly | vhls/src/bus/sri.cpp:684-798 | after any such run the next step passes the assertions about the tables if and only if it is not a takeover of a line owned there whose request carries another frame |
| FabricStale.StaleWriteBack | vhls/src/bus/crossbar.cpp:382-436 | a run of the fabric with its directory in which a parked request, whose line left and came back meanwhile, carries the old frame to the write-back |
| Directory.RunRefines | vhls/src/bus/sri.cpp:222-257 | over any run the tables of all nodes represent a plain map from lines to owners |
| Directory.StepRefines | vhls/src/bus/sri.cpp:677-711 | one operation on the tables is one update of the owner map |
| Directory.RealAddressConserves | vhls/src/bus/sri.cpp:83-102 | allocation keeps mapped lines equal to owned lines and carves every frame once; no other line moves |
| Directory.ReleaseConserves | vhls/src/bus/sri.cpp:685-691 | giving a line up returns its frame to the free list and to nobody else |
| Directory.SearchFinds | vhls/src/bus/sri.cpp:225-235 | the walk round the ring finds an owner if there is one |
| Directory.RequeueFindsOwner | vhls/src/bus/crossbar.cpp:385-407 | a home that lost a line finds its one owner among the other nodes, at a frame that is not zero |
| Directory.StoreFindsOwner | vhls/src/bus/sri.cpp:1138-1151 | the store after the last acknowledgement finds the one owner of the line |
| DirectoryNodes.Sri.constructor | vhls/src/bus/sri.cpp:72-79 | a new node joins the ring after its predecessor |
| DirectoryNodes.Build | vhls/src/bus/sri.cpp:72-79 | nodes constructed one after the other form a ring in number order with empty tables |
| DirectoryNodes.Sri.GetRealAddress | vhls/src/bus/sri.cpp:83-102 | in place: the mapped frame, else the frame given back last, else a new one |
| DirectoryNodes.Sri.Access | vhls/src/bus/sri.cpp:222-257 | in place: the owner found walking the ring, or this node on first touch |
| DirectoryNodes.Sri.HandOver | vhls/src/bus/sri.cpp:677-711 | in place: an owned line is disowned here and allocated at the writer, found by walking the ring |
| DirectoryNodes.Sri.TakeLine | vhls/src/bus/sri.cpp:761-799 | in place: the first other owner on the ring gives the line up and this node allocates it unless it has it; false exactly when an assertion fails, on the carried frame too |
| DirectoryNodes.Sri.FindOwner | vhls/src/bus/crossbar.cpp:385-404 | the owner among the other nodes, and its frame, found by walking the ring |
| LineQueue.NoAssertionFails | vhls/src/bus/sri.cpp:352-357 | bookkeeping for a line is never set up twice, and a completing transaction always has its entry |
| LineQueue.OnePerLine | vhls/src/bus/sri.cpp:127-220 | two transactions in service at a node are for different lines, and neither is left in the wake queue or the order queue |
| LineQueue.WaitersProgress | vhls/src/bus/sri.cpp:195-214 | a free line with waiters has an awake front waiter that enters when it retries |
| LineQueue.ArrivalOrder | vhls/src/bus/sri.cpp:130-157 | those that got a line, followed by those still queued, are those that asked, in order |
| LineQueue.ArrivesExactly | vhls/src/bus/sri.cpp:130-157 | in every run an arriving process is dropped if and only if it is a write and a process in service for its line invalidates it; otherwise it enters exactly when the line is not served and nobody queues for it, and sleeps otherwise, and nobody else is affected |
| LineQueue.CompletesExactly | vhls/src/bus/sri.cpp:394-407 | in every run a completing process leaves, every sleeper becomes runnable, and nobody else is affected |
| LineQueue.CompleteInv | vhls/src/bus/sri.cpp:394-407 | completion frees the line and makes every sleeper runnable, keeping the queues exact |
| LineQueue.LineTable.Enter | vhls/src/bus/sri.cpp:127-220 | in place: enter, queue up and sleep, or, for a write while an invalidation of the line is in service, count as written |
| LineQueue.LineTable.Again | vhls/src/bus/sri.cpp:195-214 | in place: a woken process enters when it is first for a free line, else sleeps again |
| LineQueue.LineTable.Done | vhls/src/bus/sri.cpp:1296-1313 | in place: the wake queue is emptied front to back |
| ReadMerge.OrderlyMerges | vhls/src/bus/sri.cpp:921-1034 | on every orderly arrival order the line is the write buffer's byte where enabled, else the cache's, else memory's, else the old byte |
| ReadMerge.ExactlyOrderly | vhls/src/bus/sri.cpp:949-989 | the orderly arrival orders are exactly those on which the merge is right for all data |
| ReadMerge.OrderIndependent | vhls/src/bus/sri.cpp:954-989 | two orderly orders of the same acknowledgements give the same line |
| ReadMerge.ExpectedOrderly | vhls/src/bus/sri.cpp:936-952 | without a write buffer, or with one and no cache, every order is orderly |
| ReadMerge.MemoryOverwritesCache | vhls/src/bus/sri.cpp:960-984 | cache, write buffer, memory: memory's byte replaces the cache's |
| ReadMerge.LineBuffer.OnData | vhls/src/bus/sri.cpp:921-1034 | in place, lane by lane: one data acknowledgement of a read, or a failed assertion |
| WriteMerge.TakesExactly | vhls/src/bus/sri.cpp:991-1034 | for a waiting write, any arrivals with at most one cache leave a state that depends on who answered only, a cache's line replacing memory's; exactly a second cache fails the assertion |
| WriteMerge.LineWritten | vhls/src/bus/sri.cpp:1092-1117 | the line sent to memory: the old byte from a cache, else from memory, where a byte is not enabled, else the write buffer's where its lane is enabled, else the byte written |
| WriteMerge.WriteOrderIndependent | vhls/src/bus/sri.cpp:921-1034 | two arrival orders of the same acknowledgements for a write send the same line or fail together |
| WriteMerge.StoreBuffer.OnData | vhls/src/bus/sri.cpp:991-1034 | in place, lane by lane: one data acknowledgement of a write, or a failed assertion |
| WriteMerge.StoreBuffer.Concatenate | vhls/src/bus/sri.cpp:1092-1121 | in place: old bytes go under the bytes not enabled, if there are byte enables and an old line, and then all bytes are enabled |
| MsgPool.Pool.Allocate | vhls/src/bus/opteron_msg_mm.cpp:17-45 | hands out the payload given back last or a new one, never one in use, with reference count zero |
| MsgPool.Pool.Release | vhls/src/bus/opteron_msg_mm.cpp:88-104 | stacks the payload in an empty node, or in one new node when none is left |
| MsgPool.Pool.Pop | vhls/src/bus/opteron_msg_mm.cpp:25-33 | moving the cursor keeps the chain linked both ways and pops the stack of free payloads |
| MsgPool.Pool.Prepend | vhls/src/bus/opteron_msg_mm.cpp:92-98 | a new node is linked in front of a chain without empty nodes |
| MsgPool.GiveAndTake | vhls/src/bus/opteron_msg_mm.cpp:17-104 | give back, then ask: the same payload, and the pool as before |
| MsgPool.PeakIsMaximum | vhls/src/bus/opteron_msg_mm.cpp:92-104 | the node count of a valid pool is the largest number of payloads ever free at once |
| Tlb.TranslateKeeps | vhls/src/arm/arm_mmu.cpp:208-404 | a translation keeps the TLB coherent and without overlaps, and equals a fresh walk plus the permission check exactly when the page does not end at 2^32 |
| Tlb.RunTranslates | vhls/src/arm/arm_mmu.cpp:208-404 | the same in every run of translations in any address spaces, faults, invalidations and table changes |
| Tlb.RunCoherent | vhls/src/arm/arm_mmu.cpp:168-196 | in every run each entry agrees with the walk of its address space and no two entries overlap |
| Tlb.SecondLookup | vhls/src/arm/arm_mmu.cpp:349-355 | the lookup after an insertion finds the new entry, unless its page ends at 2^32 |
| Tlb.PageUniform | vhls/src/arm/arm_mmu.cpp:406-609 | all addresses of a mapped page walk to the same entry |
| Tlb.EntryCovers | vhls/src/arm/arm_mmu.h:47-54 | an entry matches exactly the addresses of its page, and none if the page ends at 2^32 |
| Tlb.DescriptorPlace | vhls/src/arm/arm_mmu.cpp:414-438 | the first-level descriptor address is a word of the table and needs no truncation |
| Tlb.TargetPlace | vhls/src/arm/arm_mmu.h:56-58 | a mapped address keeps its offset in the page or section of the entry; which frame that is, `TlbTables.AnswersPlan` says |
| TlbTables.AnswersPlan | vhls/src/arm/arm_mmu.cpp:443-600 | for every plan of the address space, layout of its tables in memory, address and access: the reference translation gives the planned frame with the address's offset, section fault 5 or page fault 7 exactly where that level is missing, marked for writes and for fetches, and denies a write exactly on a read-only small page of a client domain |
| TlbTables.Build | vhls/src/arm/arm_mmu.cpp:443-600 | every plan can be laid out wherever its tables do not overlap, for every split between the two base registers and whatever the unused bits and the rest of memory |
| TlbTables.TranslatesPlan | vhls/src/arm/arm_mmu.cpp:208-404 | with a coherent TLB the same holds of every translation, except in the last page or megabyte, where the assertion after the second lookup fails |
| TlbTables.RunsToPlan | vhls/src/arm/arm_mmu.cpp:208-404 | and in every run of accesses, table changes and invalidations |
| TlbTables.AreaFields | vhls/src/arm/arm_mmu.cpp:457-511 | a first-level descriptor gives back its kind, its frame or table and its domain, whatever its other bits |
| TlbTables.LeafFields | vhls/src/arm/arm_mmu.cpp:555-605 | a second-level descriptor gives back whether it maps, its frame and whether it is read-only, whatever its other bits |
| TlbTables.RoleRead | vhls/src/arm/arm_mmu.cpp:459-463 | the domain register gives back the two bits of each of the sixteen domains |
| Tlb.AllRestores | vhls/src/arm/arm_mmu.cpp:41-48 | after any change of tables and registers, invalidating all restores coherence |
| Tlb.AsidRestores | vhls/src/arm/arm_mmu.cpp:68-79 | after a change confined to one address space, invalidating it restores coherence |
| Tlb.MvaRemoves | vhls/src/arm/arm_mmu.cpp:50-66 | invalidation by address removes an address space's entry exactly when no other space's entry for the address comes first |
| Tlb.MvaMisses | vhls/src/arm/arm_mmu.cpp:50-66 | two address spaces, one address: the second one's entry stays |
| Tlb.Mmu.Lookup | vhls/src/arm/arm_mmu.cpp:168-190 | the index of the first matching entry, if any |
| Tlb.Mmu.InsertEntry | vhls/src/arm/arm_mmu.cpp:192-196 | in place: all entries move up by one, the last is lost, the new one is first |
| Tlb.Mmu.TranslateAddress | vhls/src/arm/arm_mmu.cpp:208-404 | in place: lookup, walk, insertion, second lookup, permission check; `TlbTables.TranslatesPlan` says what the result is for given tables |
| Tlb.Mmu.InvalidAll | vhls/src/arm/arm_mmu.cpp:41-48 | in place: every entry loses its valid bit and keeps everything else |
| Tlb.Mmu.InvalidByAsid | vhls/src/arm/arm_mmu.cpp:68-79 | in place: exactly the entries of the address space lose their valid bit |
| Tlb.Mmu.InvalidByMva | vhls/src/arm/arm_mmu.cpp:50-66 | in place: the first covering entry only |
| RadixTable.SplitLevels | vhls/src/bus/vmunit64.cpp:30-51 | the levels fit their array if and only if nlevels divides the bits; then sizes, bit counts and the leaf flag are as the lookup needs them |
| RadixTable.WalkFinds | vhls/src/bus/vmunit64.cpp:87-111 | a lookup only adds to the tables, and the next lookup finds its entry |
| RadixTable.FindExtends | vhls/src/bus/vmunit64.cpp:91-111 | an entry found once is found in every later state |
| RadixTable.WalkAgain | vhls/src/bus/vmunit64.cpp:99-110 | looking up what is there changes nothing |
| RadixTable.FindVfn | vhls/src/bus/vmunit64.cpp:91-125 | the entry found carries the frame number looked up, so distinct frame numbers have distinct entries |
| RadixTable.WalkBased | vhls/src/bus/vmunit64.cpp:91-111 | lookups keep every table on the path of the frame-number digits that lead to it |
| VmUnit.TranslateKeeps | vhls/src/bus/vmunit64.cpp:165-190 | a translation succeeds unless a page is needed and none is left, and keeps all mappings |
| VmUnit.Stable | vhls/src/bus/vmunit64.cpp:165-190 | over any run an address keeps the physical address it was first given |
| VmUnit.FirstTouch | vhls/src/bus/vmunit64.cpp:165-190 | in every run an access gets the page of the first access to its virtual page: at the node of that access, after as many pages as had been touched before it, at the offset of the address |
| VmUnit.FullExactly | vhls/src/bus/vmunit64.h:106-155 | a run cannot go on exactly when a new virtual page is touched and as many have been touched as there are physical pages |
| VmUnit.Injective | vhls/src/bus/vmunit64.cpp:180-189 | two mapped addresses share a physical address only if they are equal, given page sizes that are powers of two and node bits above all frames |
| VmUnit.PagesOverlap | vhls/src/bus/vmunit64.cpp:181-184 | with another page size neighbouring pages overlap |
| VmUnit.FaultKeeps | vhls/src/bus/vmunit64.h:106-155 | the sequential allocator fails exactly when its pages are used up, and never loads a page twice |
| VmUnit.EvictKeeps | vhls/src/bus/vmunit64.h:115-140 | evicting a page keeps the account of loaded pages and the tables |
| VmUnit.Unit.PtLookupHelper | vhls/src/bus/vmunit64.cpp:91-111 | in place: the recursive lookup with its bit counting |
| VmUnit.Unit.Handle | vhls/src/bus/vmunit64.h:106-155 | in place: the next page for an entry, or a failed assertion |
| VmUnit.Unit.Xlat | vhls/src/bus/vmunit64.cpp:165-190 | in place: lookup, fault, address |
| Abtb.NeverStale | vhls/src/arm/arm_abt.cpp:111-183 | over any run a hit gives the value last stored in a slot of the trampoline asked for, and that slot is still watched |
| Abtb.HitIsSlotValue | vhls/src/arm/arm_abt.cpp:146-183 | with one slot per trampoline the hit is that slot's current value |
| Abtb.HitFromEvents | vhls/src/arm/arm_abt.cpp:46-183 | over any run a hit gives what the last store put in a slot through which a trampoline that starts at the address asked for has been seen to load the PC, told from the events alone |
| Abtb.RunInv | vhls/src/arm/arm_abt.cpp:21-90 | `via` always equals the keys of `via_to_src`, and every shortcut in use is current |
| Abtb.ReservedAddressHits | vhls/src/arm/arm_abt.h:99-102 | a fresh table hits for the reserved address and for no other |
| Abtb.HitOrMiss | vhls/src/arm/arm_abt.cpp:111-134 | a hit never returns the value that means a miss |
| Abtb.RedirectBits | vhls/src/arm/arm_abt.cpp:118-124 | the target is even; the Thumb bit follows the two low bits and no other status bit changes |
| Abtb.DetectsExactly | vhls/src/arm/arm_abt.cpp:21-46 | a trampoline is found exactly when its four instructions follow each other at a detector at rest |
| Abtb.ViaIsSum | vhls/src/arm/arm_abt.cpp:50-59 | the slot is always base plus offset: the comparison written for a shift does no harm here |
| Abtb.Buffer.Ins32Monitor | vhls/src/arm/arm_abt.cpp:21-90 | in place: the detector, or a failed assertion |
| Abtb.Buffer.WrittenAddressSnoop | vhls/src/arm/arm_abt.cpp:146-183 | in place: a store clears or installs shortcuts |
| Abtb.Buffer.InvalidateAll | vhls/src/arm/arm_abt.cpp:138-142 | in place: every entry's tag is cleared |
| Abtb.Buffer.Ask | vhls/src/arm/arm_abt.cpp:111-134 | the query and its effect on the status word |
| ArmAlu.AddExact | vhls/src/arm/armisa.cpp:704-728 | carry completes the unsigned sum and overflow tells whether the signed sum fits |
| ArmAlu.SubExact | vhls/src/arm/armisa.cpp:677-688 | carry clear is the borrow, overflow tells whether the signed difference fits, N and V give its sign |
| ArmAlu.ReverseExact | vhls/src/arm/armisa.cpp:691-754 | reverse subtraction is subtraction with exchanged operands, flags included |
| ArmAlu.Compare | vhls/src/arm/armisa.cpp:419-440 | after a comparison the conditions for order and equality decide what they are named for |
| ArmAlu.SignAndOverflow | vhls/src/arm/armisa.cpp:419-440 | after every operation 4 and 5 decide whether the signed value of the result is negative, and 6 and 7 whether the exact signed result fails to fit |
| ArmAlu.ConditionPairs | vhls/src/arm/armisa.cpp:419-440 | for all flags conditions 2k and 2k+1 are opposite below 14, 14 always passes and 15 is no condition |
| ArmAlu.AddChain | vhls/src/arm/armisa.cpp:704-728 | ADDS then ADCS computes the exact sum of numbers of any length, with C as carry |
| ArmAlu.SubChain | vhls/src/arm/armisa.cpp:677-741 | SUBS then SBCS computes the exact difference, with C as not-borrow |
| ArmAlu.SubCarryDecides | vhls/src/arm/armisa.cpp:425-426 | CS and CC after the last word decide the unsigned order of the whole numbers |
| ArmAlu.SubSignDecides | vhls/src/arm/armisa.cpp:433-434 | GE and LT after the last word decide the signed order of the whole numbers |
| ArmAlu.Unit.Execute | vhls/src/arm/armisa.cpp:677-756 | in place: result and flags of the arithmetic instructions |
| ArmException.Banking | vhls/src/arm/armisa.cpp:335-371 | two registers share a place only if they are the same register of one bank, or not banked |
| ArmException.OwnRegisters | vhls/src/arm/armisa.cpp:358-370 | modes with a bank of their own share neither stack pointer nor link register nor saved status with any other |
| ArmException.SeenIsIndex | vhls/src/arm/armisa.cpp:335-371 | the places a mode can reach are exactly those of its eighteen registers |
| ArmException.TrapEffect | vhls/src/arm/armisa.cpp:2905-2961 | entry saves PC and status in the new bank and changes nothing else of the old mode |
| ArmException.ServeTransparent | vhls/src/arm/armisa.cpp:845-897 | entry, a preserving handler with any nested exceptions to modes not in use, and return: mode, PC, status and every register of the banks in use are as before |
| ArmException.ScriptConfined | vhls/src/arm/armisa.cpp:2905-2984 | whatever nested handlers do stays in their own banks, and they unwind in reverse order |
| ArmException.StatusRestored | vhls/src/arm/armisa.cpp:394-403 | the status is restored exactly unless IRQ mode was interrupted unmasked, when the mask bit appears |
| ArmException.InterruptTransparent | vhls/src/arm/armisa.cpp:3752-3773 | an interrupt taken and handled leaves no trace in what the interrupted mode sees |
| ArmException.Cpu.SwitchMode | vhls/src/arm/armisa.cpp:373-404 | in place: mode, bank and mode bits; IRQ mode is entered masked |
| ArmException.Cpu.DecodeTrap | vhls/src/arm/armisa.cpp:2905-2961 | in place: PC and status go to the new bank, the PC to the vector |
| ArmException.Cpu.DecodeSetModeFromCpsr | vhls/src/arm/armisa.cpp:2963-2984 | in place: mode and bank follow the mode field of the status, and stay if it names no mode |
| ArmException.Cpu.ReturnFromTrap | vhls/src/arm/armisa.cpp:845-897 | in place: SUBS pc, lr, #4 takes the PC from the link register and status and mode from the saved status |
| ArmException.Cpu.HwInterrupt | vhls/src/arm/armisa.cpp:3752-3773 | in place: never taken in the middle of an instruction, masked, or in IRQ or FIQ mode, and taken otherwise; not taken, core and memory are untouched; a request in the middle of an instruction is counted as waiting |
| ArmBlock.MidTransfer | vhls/src/arm/armisa.cpp:3707-3741 | after k cycles exactly the first k listed registers have moved, at ascending words |
| ArmBlock.Completes | vhls/src/arm/armisa.cpp:3316-3348 | a mapped transfer takes one memory cycle per register and then writes the base back |
| ArmBlock.BlockWords | vhls/src/arm/armisa.cpp:3284-3302 | the block of each addressing mode, word by word from the base |
| ArmBlock.Aborts | vhls/src/arm/armisa.cpp:3717-3722 | a transfer stops at the first unmapped word with the abort taken and no writeback |
| ArmBlock.AbortKeepsBase | vhls/src/arm/armisa.cpp:3237-3348 | after an abort the base is intact exactly when it is not abort mode's own link register |
| ArmBlock.InterruptWaits | vhls/src/arm/armisa.cpp:3752-3763 | interrupt requests before any of its cycles leave a block transfer, complete or aborted, in the same core, memory and state as without them |
| ArmBlock.TakenAfterwards | vhls/src/arm/armisa.cpp:3752-3773 | an interrupt requested during a transfer is not taken before its last cycle, and is taken right after it, with every register moved, unless masked or in IRQ or FIQ mode |
| ArmBlock.LoadsUserBank | vhls/src/arm/armisa.cpp:1285-1286 | a load into the user bank sets the registers User mode sees and leaves the current mode's own registers alone |
| ArmBlock.StoresUserBank | vhls/src/arm/armisa.cpp:1372-1395 | a store from the user bank writes the registers User mode sees, whatever the mode |
| ArmBlock.PushPop | vhls/src/arm/armisa.cpp:1270-1417 | push, anything in between, pop: every listed register and the base are restored, nothing else changes |
| ArmBlock.PushTouches | vhls/src/arm/armisa.cpp:1372-1395 | a push writes only the words just below the base |
| ArmBlock.Unit.DecodeMultiple | vhls/src/arm/armisa.cpp:3237-3313 | in place: count, addresses and first register |
| ArmBlock.Unit.MemoryCycle | vhls/src/arm/armisa.cpp:3316-3348 | in place: one register, or the abort; next register or writeback |
| ArmBlock.Unit.Poll | vhls/src/arm/armisa.cpp:3752-3773 | in place: the interrupt line is looked at; in the middle of a transfer nothing changes |
| Gic.ReadRequestingDisjunction | vhls/src/arm/gic_arm_tlm.cpp:815-840 | one word of requests: software-interrupt bytes, active and unmasked bits |
| Gic.ScanWord | vhls/src/arm/gic_arm_tlm.cpp:856-904 | scanning a word of interrupts carries both groups' leaders from the words before to this one |
| Gic.Controller.FindLeaders | vhls/src/arm/gic_arm_tlm.cpp:842-911 | for every CPU and group the lowest-numbered of the best-priority deliverable interrupts |
| Gic.Controller.Distribute | vhls/src/arm/gic_arm_tlm.cpp:842-946 | every acknowledge register holds that interrupt or 0x3FF, and the lines are driven accordingly |
| Gic.BestUnique | vhls/src/arm/gic_arm_tlm.cpp:893-902 | there is at most one best interrupt |
| Gic.BestExists | vhls/src/arm/gic_arm_tlm.cpp:893-902 | there is always a best interrupt or none at all |
| Gic.GroupsDiffer | vhls/src/arm/gic_arm_tlm.cpp:882-902 | the two groups never offer a CPU the same interrupt |
| Gic.OfferUnique | vhls/src/arm/gic_arm_tlm.cpp:917-944 | the registers alone determine what a CPU is offered |
| Gic.LineRaised | vhls/src/arm/gic_arm_tlm.cpp:919-943 | an output line is raised exactly when some group has an interrupt for the CPU |
| Rsp.RoundTrip | vhls/src/gdbrsp/Utils.cpp:191-211 | unescaping what was escaped recovers the bytes |
| Rsp.Delivered | vhls/src/gdbrsp/RspConnection.cpp:359-455 | after any line noise the first good frame is the one accepted, each bad checksum refused once, and unescaping gives the bytes sent |
| Rsp.AcceptedExactly | vhls/src/gdbrsp/RspConnection.cpp:382-403 | a frame is accepted if and only if its escaped form leaves two bytes of the buffer free |
| Rsp.AcceptedIsFrame | vhls/src/gdbrsp/RspConnection.cpp:412-449 | whatever is accepted stands in the stream as a frame with the right checksum |
| Rsp.SkipNoise | vhls/src/gdbrsp/RspConnection.cpp:370-395 | junk, broken frames and bad checksums are skipped |
| Rsp.DigitRoundTrip | vhls/src/gdbrsp/Utils.cpp:41-75 | hex digits survive the round trip and every other character reads as 255 |
| Rsp.EscapedPlain | vhls/src/gdbrsp/RspConnection.cpp:489-507 | an escaped body contains neither start nor end of a frame and at most doubles in length |
| Rsp.FlipsOneBit | vhls/src/gdbrsp/RspConnection.cpp:492-497 | escaping a character turns over bit 5 and no other bit |
| Rsp.EscapesOnTheWire | vhls/src/gdbrsp/RspConnection.cpp:489-507 | the four escaped characters as they go over the wire |
| Rsp.OkOnTheWire | vhls/src/gdbrsp/RspConnection.cpp:481-519 | the reply OK goes over the wire as $OK#9a |
| Rsp.Connection.GetPkt | vhls/src/gdbrsp/RspConnection.cpp:359-455 | in place: payload, length and terminator in the buffer, the rest of the stream unread, one answer per frame |
| Rsp.Connection.PutPkt | vhls/src/gdbrsp/RspConnection.cpp:473-533 | the frame is sent until the first '+' comes back |
| Rsp.Connection.SendFrame | vhls/src/gdbrsp/RspConnection.cpp:481-519 | byte by byte: start, escaped body, checksum |
| Rsp.RspUnescape | vhls/src/gdbrsp/Utils.cpp:191-211 | in place: the buffer holds the text without its escapes, although it is overwritten while being read; the text may fill the buffer unless it ends in an escape mark that escapes nothing |

## Left out

- FabricRuns.NoAssertionFails: the assertions about the data and the priority of responses are those of `ReadMerge` and `WriteMerge`, and those about the tables are those of `FabricFrames`; of the responses only their presence is modelled here. After a mistaken step nothing is said.
- FabricRuns.StepInv: the same assertions about data and priorities are modelled in `ReadMerge` and `WriteMerge`.
- FabricTheorems.Serialised: that a run with a mistaken step may keep to one request per home by chance is not excluded.
- FabricTheorems.QueueProgress: with migration on it can fail once a home has sent a request away from others; `FabricProgress.StuckExactly` says when.
- FabricProgress.EverybodyServed: stated with migration off, because `FabricMigration.NeverServed` refutes it with migration on; `FabricProgress.EverybodyServedOrParked` is what remains.
- FabricProgress.HomeOrder: stated with migration off, where every request notified again stays at its home; `FabricOrder.RequestOrder` is the order in every unmistaken run.
- FabricNodes.ProbeEngine.OnProbeMessage: the branch for an interface without caches is not modelled.
- FabricNodes.ProbeEngine.OnLocalAckMessage: which of the buffered data is sent is not modelled, only whether there is any.
- FabricNodes.AckCounter.OnAckMessage: the merge of the data is modelled separately (`ReadMerge`, `WriteMerge`), and of the response only whether data has come.
- The contents of caches and memory in the fabric: which data an answer carries is a parameter; the merge at the requester is modelled separately.
- The combination of write-buffer data with cache or DRAM data inside one SRI before its acknowledgement leaves (sri.cpp:713-740).
- Hop-by-hop routing between crossbars: a message is delivered to its destination in one step.
- Load-linked and store-conditional extensions, statistics, latencies and power accounting.
- The UART bypass and the size check at the head of the blocking transport call.
- Directory.RealAddressConserves: frame addresses are unbounded, so the 64-bit wrap of `last_addr` after 2^64 bytes of frames is not modelled.
- ReadMerge.OrderlyMerges: byte lanes are 0x00 or 0xFF, the only values this code sets; other lane values are not considered.
- MsgPool.Pool.Release: the extensions and buffers freed with a payload are not modelled, only the chain and the reference count.
- Tlb.TranslateKeeps: external aborts, supersections and the statistics counters are not modelled; large pages end in the source's failed assertion, which is modelled.
- Tlb.Mmu.TranslateAddress: the fault registers are part of the result instead of CP15 writes, and the fields of an entry never filled start as zero.
- VmUnit.Injective: `total_physmem` is never initialised in the source, so the position of the node bits is a parameter, and an address is the sum of its parts. The source also hands the page allocator the size of memory in bytes where it expects a number of pages (vmunit64.cpp:57-58), so its own configuration does not meet the premise that all frames lie below the node bits.
- The page allocator for several nodes and the locking around a translation.
- Abtb.NeverStale: the Bloom filter, which no decision depends on, and the statistics.
- ArmException.ServeTransparent: Thumb state and its return offsets are not modelled, and handlers return with SUBS pc, lr, #4.
- ArmBlock.PushPop: the PC in the register list and the PC as base are not modelled, nor is the snoop of stores by the trampoline buffer.
- ArmBlock.Unit.DecodeMultiple: the PC in the register list and the PC as base, which the source accepts, are not modelled.
- ArmBlock.Unit.MemoryCycle: loading or storing the PC, which the source accepts, is not modelled.
- ArmAlu.Unit.Execute: logical instructions, the shifter and the write to the PC are not modelled here.
- Gic.Controller.Distribute: acknowledge and end-of-interrupt handling, register decoding and the priority mask, which the selection does not read. The fast-interrupt enable is read from CPU 0's control register at bit 8, as coded.
- Rsp.Connection.GetPkt: reads and writes that fail or are interrupted; the stream ends or delivers a byte, and writes succeed.
- Parsing of packet contents, breakpoints and register access of the debug stub.
- Coprocessor register files, timers, the disassembler, floating point, Thumb decoding, memory-mapped devices and SystemC itself.
