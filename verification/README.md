# Asset tracker verification model

A Dafny model of the asset tracker's storage pipeline, its application state machine, its cloud connection
machine and its update module, with proofs about them.

Samples arrive on channels and are buffered per data type in one of two interchangeable backends. On request
they are moved in framed batches through a byte pipe to a consumer, under a session protocol. The application
machine decides when to sample, when to send and how a firmware update proceeds; the cloud machine connects,
backs off and consumes the batches.

## How it is built

| file | what it holds |
|---|---|
| `Common` | bytes, records, data types, error numbers |
| `BoundedFifo` | the queue both backends implement, as functions on sequences |
| `RingBuffer`, `RamBackend` | the RAM backend over byte rings |
| `Slots`, `LfsPaths`, `LfsLayout`, `LfsQueue` | the LittleFS backend's arithmetic of counters, slots and blocks, file names, file contents, and what each write does to the queue |
| `LfsFiles`, `LfsWrap`, `LfsBackend` | how far its files grow, what its counters do over 2^32 stores, and the module itself |
| `LfsCalls`, `BackendEquivalence` | what calls do to all files and queues at once, and over which runs; both backends against the queue, call by call |
| `Pipe`, `Framing`, `FramePipe` | the byte pipe, the frame format, the reader and the round trip |
| `StorageSpec`, `Packing`, `Filling` | the storage module as one table; the batch in closed form; how the loops reach it |
| `Backend`, `Storage` | the storage module's object, loops and handlers, proved against that table |
| `Subsequences`, `StorageRuns`, `Requests` | sessions, the session timer, and where every record goes, over whole runs; what one batch request answers and leaves |
| `Publications` | where every relevant sample goes and what data is published over whole runs, whatever the mode |
| `Drain`, `CloudBatch` | storage and a connected cloud together over their shared channel |
| `Smf` | Zephyr's hierarchical state machine framework |
| `MainSpec`, `MainTransitions`, `Application` | the application machine: chart and flat table, what the framework makes of each transition, the module |
| `MainRuns`, `MainTimers` | mode, connectivity, history, timers and sampling over whole runs |
| `MainDevice`, `MainSettings` | the application as one small machine of nine fields that says everything it publishes; what the cloud's shadows set and ask for |
| `Fota`, `UpdateSafety`, `UpdateRuns` | the update module; what precedes a reboot or an image being applied, in both modules; that an image ordered is applied |
| `AppStorage`, `ModeAgreement` | application and storage module together: agreement on the mode, the clear before a reboot, and a shadow that asks for buffer mode |
| `CloudSpec`, `Cloud`, `CloudRuns`, `CloudLink` | the cloud machine: chart and table, the module, its invariants, and its connection as a fold over the messages |
| `Handover` | storage and the whole cloud machine together, as its connection comes and goes |

A module that the source writes as handlers over a state object is a class with those fields. Its `Process`
method is proved to do exactly what one flat function of the state says, and everything about runs is proved
of that function. What such a table means is then said a second time, apart from it: by record ledgers and
published data for storage, by small machines over the messages for the others, to which every run is proved equal. The storage table is written for records of any type, so its theorems speak of tagged
records as well: with distinct records, equal multisets mean that each is in exactly one place.

## What turned out differently from what the documentation says

- `docs/modules/storage.md:342` promises that stored data is cleared when a firmware update is applied. The
  clear that precedes the reboot is refused while a batch session is active: `AppStorage.RebootEmptiesIff` says
  exactly when it works, `AppStorage.RebootKeepsFromStart` and `Requests.ClearKeepsRecordsIff` give runs after
  which records remain.
- `docs/modules/storage.md:146` gives a block count per type that can fall short of the files a type uses, since
  no file splits a record over two blocks: `Slots.StartupCheckIff`, `Slots.ReservationCanFallShort`.
- `docs/modules/storage.md:301` says that the offer carries the total item count; it carries the count of
  the batch (`app/src/modules/storage/storage.c:668-670`). `Requests.OfferCountsAllIff` says when the two are
  the same.
- The free-running counters lose records at their 32-bit wrap unless RECORDS_PER_TYPE divides 2^32 or the
  live window is short: `Slots.WindowDistinctIff`, `LfsQueue.StoreRefinesIff`. From an empty partition that
  takes 2^32 + 1 stores: `LfsWrap.FaithfulIff`, `LfsWrap.WrapLosesRecords`; with other calls in between
  `LfsCalls.FaithfulIff` says when.
- A batch request with session id zero can arm the session timeout with no session to close, against the
  assertion in its handler: `StorageRuns.TimerSafeIff`. The application derives its ids from the uptime in
  milliseconds, which is zero once every 2^32 milliseconds.
- One record too large for the batch buffer keeps a batch exchange going for ever: `Drain.DrainBoundedIff`,
  `Drain.OversizeNeverEnds`.
- `docs/modules/cloud.md:21` has the cloud module consume the items of an offered batch before it closes the
  session. While its connection is paused it closes the session unread, and the storage module throws away the
  batch it has already taken out of the backend: `Handover.LostIffRefused`, `Handover.OutageLosesBatch`.
- A session timeout publishes a close that the storage module itself receives. Handled behind a request, it ends
  the session which that request has just opened, and the batch is lost: `Handover.TimeoutLosesNextBatch`.
- The backoff time is asserted, not limited, to be within the configured maximum
  (`app/src/modules/cloud/cloud.c:304`, against `docs/modules/cloud.md:85` and
  `app/src/modules/cloud/Kconfig.cloud:77-81`). The assertion holds over all runs exactly for configurations
  whose backoff never grows: `CloudRuns.MaximumKeptIff`; the default one exceeds its hour on the 61st backoff:
  `CloudRuns.DefaultExceedsMax`.
- A failed or empty batch start is answered twice, by the session start and by the state's entry action:
  `Requests.AnsweredOnceIff`.
- A shadow that sets an interval and says nothing of the mode asks the storage module for passthrough mode
  (`app/src/main.c:759-795`), while what is reported back is the mode the application is in
  (`app/src/main.c:869-876`). In buffer mode the two differ: `MainSettings.ReportsWishIff`.
- A confirmation of the storage mode that arrives during an update is dropped, so a cancelled update can resume
  in a mode that the storage module has left: `AppStorage.ModesAgreeIff`, `AppStorage.ModesDifferFromStart`.

## Model

| member | source | states |
|---|---|---|
| BoundedFifo.PushKeepsNewest | app/src/modules/storage/backends/ram_ring_buffer_backend.c:172-218 | storing into a full queue keeps exactly the newest records of the whole history, in order |
| BoundedFifo.ApplyKeepsQueuesOk | app/src/modules/storage/storage_backend.h:20-83 | no call breaks the bound on a queue or the size of its records |
| BoundedFifo.StoresKeepNewest | app/src/modules/storage/backends/ram_ring_buffer_backend.c:172-218 | after any calls without a consumer a queue holds the newest RECORDS_PER_TYPE records stored, oldest first |
| RingBuffer.RingBuffer.Put | app/src/modules/storage/backends/ram_ring_buffer_backend.c:194-211 | bytes are appended behind the contents across the wrap of the ring, as many as there is room for |
| RingBuffer.RingBuffer.Get | app/src/modules/storage/backends/ram_ring_buffer_backend.c:200-205 | the oldest bytes are returned and removed, across the wrap |
| RamBackend.FlattenLength | app/src/modules/storage/backends/ram_ring_buffer_backend.c:355-364 | used bytes are always records times record size |
| RamBackend.FlattenHead | app/src/modules/storage/backends/ram_ring_buffer_backend.c:300-322 | the first record-size bytes are the oldest record, the rest is the rest of the queue |
| RamBackend.RamBackend.SpaceMeansBelowCap | app/src/modules/storage/backends/ram_ring_buffer_backend.c:194-205 | there is room for a record exactly when the queue is below its capacity; a full ring holds at least one whole record |
| RamBackend.RamBackend.MakeRoom | app/src/modules/storage/backends/ram_ring_buffer_backend.c:194-205 | discarding one record of a full ring always makes room, so a store cannot fail for lack of it |
| RamBackend.RamBackend.GetTypeIndex | app/src/modules/storage/backends/ram_ring_buffer_backend.c:89-102 | the position of a registered type, or -1 for any other |
| RamBackend.RamBackend.Init | app/src/modules/storage/backends/ram_ring_buffer_backend.c:129-158 | all registered types get their ring |
| RamBackend.RamBackend.Store | app/src/modules/storage/backends/ram_ring_buffer_backend.c:172-218 | on the bytes of the ring: a push that drops the oldest record when full; unknown types are refused with -EINVAL |
| RamBackend.RamBackend.Peek | app/src/modules/storage/backends/ram_ring_buffer_backend.c:231-274 | the oldest record or its size, nothing removed; -EAGAIN, -ENOMEM and -EINVAL cases |
| RamBackend.RamBackend.Retrieve | app/src/modules/storage/backends/ram_ring_buffer_backend.c:286-325 | the oldest record, removed; error cases leave the queue alone |
| RamBackend.RamBackend.Count | app/src/modules/storage/backends/ram_ring_buffer_backend.c:336-367 | used bytes divided by record size is the number of records |
| RamBackend.RamBackend.Clear | app/src/modules/storage/backends/ram_ring_buffer_backend.c:378-394 | every queue becomes empty |
| Slots.CounterArithmetic | app/src/modules/storage/backends/littlefs_backend.c:480-480 | the comparison-based counter arithmetic of the model is unsigned 32-bit arithmetic |
| Slots.SlotsDisjoint | app/src/modules/storage/backends/littlefs_backend.c:477-481 | two slots never overlap: different files, or disjoint byte ranges |
| Slots.FileFitsBlock | app/src/modules/storage/backends/littlefs_backend.c:295-313 | no slot reaches past the end of its block, so no data file needs a second one |
| Slots.WindowDistinctIff | app/src/modules/storage/backends/littlefs_backend.c:477-481 | the live records sit on pairwise different slots if and only if the window does not cross 2^32, or RECORDS_PER_TYPE divides 2^32, or the window is at most the remainder |
| Slots.UnsafeWindowCollides | app/src/modules/storage/backends/littlefs_backend.c:477-481 | otherwise two live records share a slot, and which |
| Slots.FileIndexBound | app/src/modules/storage/backends/littlefs_backend.c:325-340 | every slot lies in a file below ceil(RECORDS_PER_TYPE / entries per block), and the last slot in the last of them |
| Slots.EveryFileUsed | app/src/modules/storage/backends/littlefs_backend.c:325-340 | each of those files holds some slot |
| Slots.ReservedVersusNeeded | app/src/modules/storage/backends/littlefs_backend.c:97-129 | the blocks reserved at start-up never exceed the files needed, and equal them if and only if the raw bytes overflow all but one file; so always when the record size divides the block size |
| Slots.CheckedVersusUsed | app/src/modules/storage/backends/littlefs_backend.c:97-129 | summed over all types with the three spare blocks, the start-up check never counts more blocks than the files can use |
| Slots.StartupCheckIff | app/src/modules/storage/backends/littlefs_backend.c:97-129 | whenever the start-up check passes there is room for all files, on partitions of every size, if and only if each type's raw bytes overflow all but one of its files |
| Slots.ReservationCanFallShort | app/src/modules/storage/backends/littlefs_backend.c:97-129 | a configuration with 4096-byte blocks and a partition on which the start-up check passes with one block too few |
| LfsPaths.DataPathInjective | app/src/modules/storage/backends/littlefs_backend.c:138-153 | data files of different types or indices have different paths |
| LfsPaths.HeaderPathInjective | app/src/modules/storage/backends/littlefs_backend.c:162-176 | header files of different types have different paths |
| LfsPaths.DataIsNotHeader | app/src/modules/storage/backends/littlefs_backend.c:138-176 | no data file is a header file |
| LfsLayout.HeaderRoundTrip | app/src/modules/storage/backends/littlefs_backend.c:187-277 | the two counters are read back from the header file as written |
| LfsLayout.WriteSlot | app/src/modules/storage/backends/littlefs_backend.c:477-515 | writing one slot changes the records on that slot and no other |
| LfsLayout.DistanceAfterStore | app/src/modules/storage/backends/littlefs_backend.c:525-529 | the 32-bit difference of the counters goes up by one, or stays when full, after a store |
| LfsLayout.DistanceAfterRetrieve | app/src/modules/storage/backends/littlefs_backend.c:644-652 | and down by one after a retrieve, whatever the counters |
| LfsQueue.StoreRecords | app/src/modules/storage/backends/littlefs_backend.c:445-539 | a complete store, for all counters: the count is right and each record is that of a bounded queue unless its slot is the one written |
| LfsQueue.StoreRefines | app/src/modules/storage/backends/littlefs_backend.c:445-539 | in a safe window a store is a push that drops the oldest record when full |
| LfsQueue.StoreRefinesIff | app/src/modules/storage/backends/littlefs_backend.c:445-539 | for distinguishable records it is so if and only if the window after it is safe |
| LfsQueue.UnsafeStoreMerges | app/src/modules/storage/backends/littlefs_backend.c:477-481 | in an unsafe window one live record reads back as another |
| LfsQueue.InterruptedStoreRecords | app/src/modules/storage/backends/littlefs_backend.c:500-536 | a store that stops before its header write keeps the queue's length and changes only records on the written slot |
| LfsQueue.InterruptedStore | app/src/modules/storage/backends/littlefs_backend.c:500-536 | so it changes nothing while there is room, and when full only puts the new record in the place of the oldest |
| LfsQueue.RetrieveRefines | app/src/modules/storage/backends/littlefs_backend.c:644-655 | advancing the read counter removes exactly the oldest record |
| LfsQueue.OtherTypesUntouched | app/src/modules/storage/backends/littlefs_backend.c:445-655 | the queues of all other types stay as they are, at every stage |
| LfsQueue.SafeBelowWrap | app/src/modules/storage/backends/littlefs_backend.c:525-529 | below 2^32 stores every window is safe, and stays so |
| LfsWrap.CountersStep | app/src/modules/storage/backends/littlefs_backend.c:477-529 | from an empty partition, after n stores the write counter is n and the read counter n less the capacity or zero, both modulo 2^32 |
| LfsWrap.FaithfulIff | app/src/modules/storage/backends/littlefs_backend.c:477-529 | a run of stores of distinguishable records from an empty partition holds the newest RECORDS_PER_TYPE at every point if and only if it has at most 2^32 stores or RECORDS_PER_TYPE divides 2^32 |
| LfsWrap.WrapLosesRecords | app/src/modules/storage/backends/littlefs_backend.c:477-529 | for any other capacity, the run of 2^32 + 1 numbered records, of four bytes or more, that fails |
| LfsFiles.StoreKeepsBounded | app/src/modules/storage/backends/littlefs_backend.c:445-539 | if every data file of every type is among the files that type needs and within one block, a store, complete or not, leaves it so |
| LfsFiles.RetrieveKeepsBounded | app/src/modules/storage/backends/littlefs_backend.c:644-655 | and so does a retrieve |
| LfsBackend.LfsBackend.GetEntriesPerBlock | app/src/modules/storage/backends/littlefs_backend.c:295-313 | whole records per block, or -EFBIG when a record is larger than a block |
| LfsBackend.LfsBackend.ReadHeader | app/src/modules/storage/backends/littlefs_backend.c:187-226 | the counters, or the error of a missing file or an overlong path |
| LfsBackend.LfsBackend.WriteRecord | app/src/modules/storage/backends/littlefs_backend.c:472-522 | the state a store leaves when it stops before its header write |
| LfsBackend.LfsBackend.Store | app/src/modules/storage/backends/littlefs_backend.c:445-539 | on the files: a push in every safe window, the error cases change nothing, other types untouched, files within their bounds |
| LfsBackend.LfsBackend.ReadRecord | app/src/modules/storage/backends/littlefs_backend.c:595-641 | the record at the read counter, with no file changed: a retrieve interrupted here loses nothing |
| LfsBackend.LfsBackend.ReadDataEntry | app/src/modules/storage/backends/littlefs_backend.c:553-656 | the oldest record; the queue loses it only if the offset is to be updated |
| LfsBackend.LfsBackend.Peek | app/src/modules/storage/backends/littlefs_backend.c:668-671 | the oldest record, no file changed |
| LfsBackend.LfsBackend.Retrieve | app/src/modules/storage/backends/littlefs_backend.c:683-686 | the oldest record, removed; other types untouched |
| LfsBackend.LfsBackend.Count | app/src/modules/storage/backends/littlefs_backend.c:696-720 | the 32-bit difference of the counters is the number of records |
| LfsBackend.LfsBackend.InitHeaderFiles | app/src/modules/storage/backends/littlefs_backend.c:350-389 | queues found on the partition are recovered as they were, missing ones start empty, no other file changes |
| LfsBackend.LfsBackend.Clear | app/src/modules/storage/backends/littlefs_backend.c:730-798 | all files go, all queues become empty; an overlong path stops it without damaging what is left |
| BackendEquivalence.ReplayRam | app/src/modules/storage/backends/ram_ring_buffer_backend.c:172-394 | any sequence of calls gets from the RAM backend the replies of bounded drop-oldest queues |
| LfsCalls.CallMeans | app/src/modules/storage/backends/littlefs_backend.c:445-798 | over all types at once, and for all counters: a call keeps the files ready for more, moves each type's counters as a function of the calls alone, and does to the queues what it does to bounded queues if its window is safe; of distinct records only then |
| LfsCalls.SafeRunIsFaithful | app/src/modules/storage/backends/littlefs_backend.c:445-798 | in a run of any calls whose stores leave safe windows the files hold what bounded drop-oldest queues would hold, at every point |
| LfsCalls.FaithfulIff | app/src/modules/storage/backends/littlefs_backend.c:445-798 | for runs of any calls on any types whose records can be told apart, this holds if and only if every store leaves a safe window |
| LfsCalls.ShortQueuesAreSafe | app/src/modules/storage/backends/littlefs_backend.c:477-529 | from an empty partition that is so, through any number of wraps, if no queue is ever left longer than 2^32 modulo RECORDS_PER_TYPE |
| LfsCalls.WrapHarmlessIsSafe | app/src/modules/storage/backends/littlefs_backend.c:477-529 | or if RECORDS_PER_TYPE divides 2^32, or no type has more than 2^32 records stored between two clears |
| BackendEquivalence.ReplayLfs | app/src/modules/storage/backends/littlefs_backend.c:350-798 | the LittleFS backend under any calls at all: the files follow them, each reply is the one that the queues found at that moment demand, and every data file stays within its bounds |
| BackendEquivalence.StartLfs | app/src/modules/storage/backends/littlefs_backend.c:350-389 | on an empty partition all counters start at zero, all queues empty, and every type has a fresh log |
| BackendEquivalence.FromEmptyLfs | app/src/modules/storage/backends/littlefs_backend.c:350-798 | from there its replies are those of bounded drop-oldest queues if every store leaves a safe window, and for records that can be told apart its queues are theirs at every point if and only if so |
| BackendEquivalence.BackendsAgree | app/src/modules/storage/storage_backend.h:20-83 | started empty, the two backends give the same replies and data to any calls over any types whose stores leave safe windows |
| Pipe.PipeWriteAll | app/src/modules/storage/storage.c:263-285 | however the pipe splits transfers, all bytes are written if they fit, and as many as fit otherwise |
| Pipe.PipeReadExact | app/src/modules/storage/storage.c:292-314 | exactly the next bytes, or -EAGAIN with what there was lost |
| Framing.EncodesAppend | app/src/modules/storage/storage.c:544-597 | a frame written behind others is read after them |
| Framing.EncodesUnique | app/src/modules/storage/storage.c:148-152 | bytes encode at most one list of frames |
| FramePipe.ReadFrame | app/src/modules/storage/storage.c:682-737 | the next frame, with the pipe at a frame boundary afterwards, or -EAGAIN at the end; -EINVAL without an item |
| FramePipe.RoundTrip | app/src/modules/storage/storage.c:544-737 | any list of frames that fits the pipe is read back as it was written, followed by -EAGAIN, however transfers are split |
| Storage.WireIdentifies | app/src/modules/storage/storage.c:540-546 | with enumerators below 256 a frame tells its type and its record: its data is found under the enumerator of its own type and under no other |
| Storage.WireSorts | app/src/modules/storage/storage.c:540-546 | so in a batch the data under the enumerator of a type is exactly the records of that type, in order and byte for byte |
| StorageSpec.FitUnique | app/src/modules/storage/storage.c:566-573 | taking frames until none is left or the next does not fit takes the closed-form share |
| Packing.PackConserves | app/src/modules/storage/storage.c:513-613 | per type, what a batch moves followed by what it leaves is the old queue |
| Packing.PackBudget | app/src/modules/storage/storage.c:566-573 | the bytes of all frames moved never exceed the batch buffer |
| Packing.PackCount | app/src/modules/storage/storage.c:595-598 | every record moved leaves the backend, none other does |
| Packing.PackMoreIff | app/src/modules/storage/storage.c:518-573 | more_data is set if and only if some type still has records |
| Packing.PackFailsIff | app/src/modules/storage/storage.c:533-564 | a batch fails if and only if some type has records too long for a frame |
| Packing.PackMaximal | app/src/modules/storage/storage.c:566-573 | no leftover type's next frame would still fit, although only the inner loop stops when the buffer is full |
| Packing.PackProgress | app/src/modules/storage/storage.c:513-613 | if the first non-empty type fits the buffer the batch moves something |
| Filling.ReachedNext | app/src/modules/storage/storage.c:521-600 | one turn of the outer loop is one step of the closed form |
| Filling.ReachedEnd | app/src/modules/storage/storage.c:521-613 | the loop ends with the closed-form batch, early or not |
| Storage.Storage.constructor | app/src/modules/storage/storage.c:778-795 | no session, an empty pipe, the records the backend recovered |
| Storage.Storage.HandleDataMessage | app/src/modules/storage/storage.c:316-335 | a relevant sample is pushed on its queue, others are ignored |
| Storage.Storage.FlushStoredData | app/src/modules/storage/storage.c:363-408 | all records of all types are published, oldest first, and leave the backend |
| Storage.Storage.DrainPipe | app/src/modules/storage/storage.c:425-432 | the pipe is emptied |
| Storage.Storage.PopulateType | app/src/modules/storage/storage.c:521-600 | the inner loop moves exactly the share that fits, frame by frame through the byte pipe |
| Storage.Storage.PopulatePipe | app/src/modules/storage/storage.c:513-613 | the two loops compute the closed-form batch, its counters and its flag |
| Storage.Storage.StartBatchSession | app/src/modules/storage/storage.c:620-679 | the reply, the new session, the batch, or the error, for every backend and id |
| Storage.Storage.PassthroughRun | app/src/modules/storage/storage.c:828-865 | a relevant sample is published at once and no other is, nothing is stored; mode requests are answered and the rest is left to the parent |
| Storage.Storage.BufferRun | app/src/modules/storage/storage.c:867-892 | what both buffer states share |
| Storage.Storage.BufferIdleRun | app/src/modules/storage/storage.c:894-922 | a request opens a session, a mode request changes the mode |
| Storage.Storage.PipeActiveEntry | app/src/modules/storage/storage.c:924-950 | the session starts and its timeout is armed, or the failure is reported twice |
| Storage.Storage.PipeActiveRun | app/src/modules/storage/storage.c:952-1035 | who may touch an active session, and how it ends |
| Storage.Storage.RunningRun | app/src/modules/storage/storage.c:797-826 | clear and flush |
| Storage.Storage.Process | app/src/modules/storage/storage.c:797-1051 | hierarchical dispatch of any message over the byte pipe and the backend does exactly what one flat table says |
| Storage.Storage.BatchRead | app/src/modules/storage/storage.c:682-737 | the consumer gets the next record of the batch, under the enumerator of its type and byte for byte, or -EAGAIN |
| StorageRuns.AlwaysIsolated | app/src/modules/storage/storage.c:894-1051 | in every reachable state outside a session the pipe is empty, the session record zero and the timeout not armed |
| StorageRuns.SessionHolds | app/src/modules/storage/storage.c:952-1035 | over any run without the owner's own messages or a timeout, a session with a non-zero id keeps its record and its mode, and its pipe only loses what is read, from the front |
| StorageRuns.SessionEndsIff | app/src/modules/storage/storage.c:964-1035 | a session ends if and only if its timeout or a close with its id is handled; passthrough is entered only from idle with an empty pipe |
| StorageRuns.ModeMovesIff | app/src/modules/storage/storage.c:828-1035 | the one message that takes the module from each mode to each other |
| StorageRuns.ArmedIff | app/src/modules/storage/storage.c:924-1051 | the timeout is armed by the request that opens a session with an offer, again by each request that may touch it, and by nothing else, until the session ends |
| StorageRuns.ClearEmptiesIff | app/src/modules/storage/storage.c:961-965 | a clear message empties the backend if and only if no session is active or it was empty, and touches neither session nor pipe |
| Requests.PackLeavesIff | app/src/modules/storage/storage.c:513-613 | a batch leaves records behind if and only if it fails or the frames of all stored records exceed the batch buffer |
| Requests.OfferCountsAllIff | app/src/modules/storage/storage.c:660-679 | an offer's count is that of its batch, and the number of records stored if and only if all fit the batch buffer and the 16-bit field |
| Requests.AnsweredOnceIff | app/src/modules/storage/storage.c:620-679 | a batch request has one answer if and only if it does not meet the idle module, or its id is not zero, records are stored and all can be framed; else the same answer comes twice |
| Requests.AnswerSays | app/src/modules/storage/storage.c:620-679 | every answer to a batch request says busy if and only if another session is active, an error if the mode, the id or an unframable record refuses it, empty if there is nothing, and otherwise offers a batch; always to the id that asked |
| Requests.RequestLeaves | app/src/modules/storage/storage.c:620-679 | what each of these answers leaves of mode, session, pipe, queues and timeout |
| Requests.ModeAnswered | app/src/modules/storage/storage.c:841-1003 | a request for a storage mode is answered once, with the mode in which the module then is, or for passthrough mode during a session only with a rejection that changes nothing |
| Requests.ClosesOnTimeout | app/src/modules/storage/storage.c:797-1051 | apart from answers and data the module publishes only the close of a session that times out |
| Requests.ClearKeepsRecordsIff | app/src/modules/storage/storage.c:894-1051 | from idle, a request and then a clear leave records stored if and only if there were some and the request was refused, failed or could not take them all |
| StorageRuns.TimerSafeIff | app/src/modules/storage/storage.c:232-246 | the timeout never fires without a session id over a run if and only if no request of the run arms it in a session opened with id zero |
| StorageRuns.NonzeroIdsKeepTimerSafe | app/src/modules/storage/storage.c:232-246 | so it is safe if no consumer uses id zero |
| StorageRuns.FromStart | app/src/modules/storage/storage.c:778-1051 | so all three hold of every run from start-up, whatever the backend recovered |
| StorageRuns.ZeroIdArmsTimer | app/src/modules/storage/storage.c:975-999 | two requests with id zero arm it without a session id, against the assertion |
| StorageRuns.RecordsAccounted | app/src/modules/storage/storage.c:316-1051 | over every run each record of a type is in exactly one place: backend, pipe, read, flushed, evicted, drained or cleared |
| StorageRuns.RecordsInOrder | app/src/modules/storage/storage.c:363-737 | over every run the batch reads, then the pipe, then the backend, are in arrival order; and so are the flushes, then the backend |
| StorageRuns.EventShifts | app/src/modules/storage/storage.c:316-1051 | what one message does to the records of a type: it takes a stretch out, or adds at the end |
| Publications.SampleGoes | app/src/modules/storage/storage.c:316-361 | a relevant sample is published under its type at once in passthrough mode and enters the ledger otherwise; one that is not relevant does neither |
| Publications.SamplesAndPublications | app/src/modules/storage/storage.c:316-408 | over every run, in whatever modes, the relevant samples of a type are those passed on and those buffered, and the data published for it is exactly those passed on and those flushed, each in its own order |
| Publications.EverySampleAccounted | app/src/modules/storage/storage.c:316-1051 | so each record held at first and each relevant sample is in exactly one place: published at once, still held, or in one of the ways out |
| Drain.EveryTurn | app/src/modules/storage/storage.c:620-1035 | each message that either module handles keeps the exchange's invariant and lowers its measure |
| Drain.BatchProgress | app/src/modules/storage/storage.c:513-613 | a batch of records that can travel takes at least one |
| Drain.DrainCompletes | app/src/modules/cloud/cloud.c:537-646 | one batch request empties the backend into the cloud within 4n + 10 handled messages for n records, in any interleaving of the two threads: per type the stored sequence, oldest first, the session closed, the module idle |
| Drain.DrainBoundedIff | app/src/modules/cloud/cloud.c:557-614 | the exchange is bounded if and only if every waiting record's frame fits the batch buffer |
| Drain.OversizeNeverEnds | app/src/modules/storage/storage.c:566-573 | with a record whose frame exceeds the buffer no schedule ends with both queues empty, and its type is never delivered |
| Drain.OversizeRunsOn | app/src/modules/storage/storage.c:566-573 | otherwise there is a schedule of every length |
| CloudBatch.HandleBatchAvailable | app/src/modules/cloud/cloud.c:557-614 | the consumer's loop sends the whole batch, for each type its records in order and byte for byte under its enumerator, and then asks for more or closes |
| CloudBatch.DrainDelivers | app/src/modules/cloud/cloud.c:464-614 | when the exchange is over, in any interleaving, the cloud has been sent the stock of each type under the enumerator of that type, oldest first and byte for byte |
| Handover.CloudReplies | app/src/modules/cloud/cloud.c:1096-1222 | what the cloud machine answers on the storage channel in each of its states, and when it reads |
| Handover.AlwaysInv | app/src/modules/cloud/cloud.c:537-1222 | over every interleaving without a timeout, with the network coming and going, one request or offer is on its way at most, a refresh never meets unread items, and what a close throws away had been refused |
| Handover.LostIffRefused | app/src/modules/cloud/cloud.c:1193-1203 | without a timeout every record is delivered, lost, unread or stored, in this order, and once the storage module has taken its messages exactly the items are lost whose offer the cloud machine took while paused |
| Handover.OutageLosesBatch | app/src/modules/storage/storage.c:1037-1050 | a run in which the network goes before a batch is offered, and the whole batch is lost |
| Handover.TimeoutLosesNextBatch | app/src/modules/storage/storage.c:1009-1030 | a run in which a timeout's own close drops the batch of the session opened after it, which nobody has refused |
| Smf.SharedIs | app/src/main.c:261-412 | how many ancestors two states of a chart share |
| MainTransitions.TransitionOf | app/src/main.c:261-412 | a transition leaves and enters exactly the states below the common ancestor |
| MainTransitions.BufferReconnects | app/src/main.c:991-1062 | a connectivity change in buffer mode, as exits, entries and initial transitions add up |
| MainTransitions.BufferToPassthrough | app/src/main.c:1012-1109 | leaving buffer mode stops both timers and restarts sampling at once |
| MainTransitions.PassthroughReconnects | app/src/main.c:1340-1437 | connectivity changes in passthrough mode, whichever state asks |
| MainTransitions.PassthroughToBuffer | app/src/main.c:1425-1498 | entering buffer mode with the connectivity at hand |
| MainTransitions.BufferWaits | app/src/main.c:467-487 | an entry action that is too early goes on to the waiting state |
| MainTransitions.UpdateBegins | app/src/main.c:904-917 | an update leaves every mode and stops both timers |
| MainTransitions.UpdateResumes | app/src/main.c:1679-1697 | an update that stops re-enters the state its history names, from the root |
| Application.Application.constructor | app/src/main.c:1959-1980 | start-up enters the initial mode, its ancestors first |
| Application.Application.SamplingBeginCommon | app/src/main.c:467-519 | a search begins, or the machine waits out the interval |
| Application.Application.WaitingEntryCommon | app/src/main.c:521-559 | the sample timer runs to the end of the interval since the last sampling, or expires at once if that is over |
| Application.Application.SetState | app/src/main.c:261-412 | the framework's exits, leaf first, and entries, root first, with transitions from entry actions |
| Application.Application.ConfigApply | app/src/main.c:759-816 | each interval is the last one named, every effective shadow asks for a mode, buffer if it validly says so and else passthrough, and the timers hear only of a change |
| Application.Application.HandleCloudShadowResponse | app/src/main.c:838-892 | only effective values are reported, commands only for delta responses |
| Application.Application.BufferDisconnectedRun | app/src/main.c:991-1026 | what the disconnected buffer state handles |
| Application.Application.BufferConnectedRun | app/src/main.c:1045-1113 | what the connected buffer state handles; shadow responses are acted on and passed on |
| Application.Application.BufferConnectedWaitingRun | app/src/main.c:1264-1314 | what the waiting state handles before its parents |
| Application.Application.PassthroughConnectedRun | app/src/main.c:1456-1502 | every storage message ends in the connected passthrough state |
| Application.Application.FotaRun | app/src/main.c:1679-1749 | connectivity is remembered during updates, stopped downloads resume |
| Application.Application.Process | app/src/main.c:904-1957 | the whole dispatch over nineteen states does exactly what one flat table says, for every message |
| MainRuns.AlwaysInv | app/src/main.c:921-1749 | every run keeps this: the history mirrors the leaf and is one of exactly four states during an update, and the timers run only where they belong |
| MainRuns.StartsInv | app/src/main.c:1959-1980 | start-up establishes this invariant in the configured mode, whatever the intervals |
| MainRuns.RunSummarizes | app/src/main.c:904-1957 | over every run mode, connectivity and update stage, read from leaf or history, equal a simple fold over the messages |
| MainRuns.FromStart | app/src/main.c:904-1980 | so both hold of every state reachable from start-up |
| MainRuns.CancelledUpdateResumes | app/src/main.c:1679-1749 | a cancelled update resumes in the mode in which it began, with the connectivity last heard of |
| MainDevice.StepShows | app/src/main.c:415-1957 | one message moves nine observable fields as a small machine says and publishes exactly what it says, in order: searches, sensor requests, polls, batch requests, replies to shadows and update orders, each with the condition under which it comes |
| MainDevice.RunShows | app/src/main.c:415-1957 | so over every run: fields, timers and the whole sequence of publications are a fold over the messages |
| MainDevice.ShowsFromStart | app/src/main.c:415-1980 | so from start-up in either mode |
| MainDevice.LooksDetermine | app/src/main.c:261-412 | two states that keep the invariant and look alike to a user are the same but for what was published: the nineteen-state chart and its history hide nothing |
| MainSettings.RunSettles | app/src/main.c:759-892 | over every run each interval is the last that is not zero in a shadow acted on, and the storage modes asked for are those of its effective shadows, in order |
| MainSettings.LastRequestIff | app/src/main.c:759-892 | from start-up a mode has been asked for if and only if an effective shadow was acted on, and the last one is buffer mode if and only if the last such shadow validly says so |
| MainSettings.ReportsWishIff | app/src/main.c:838-892 | the mode reported is the mode asked for if and only if the shadow is valid about the mode or was not handled in buffer mode |
| MainTimers.AlwaysLive | app/src/main.c:645-721 | every run, with timers racing the thread, keeps this: in a waiting state the sample timer runs or its message is queued, in buffer mode the same of the send timer, neither elsewhere |
| MainTimers.LiveFromStart | app/src/main.c:645-721 | so in every state reachable from start-up |
| MainTimers.StepSetsTimerOnTime | app/src/main.c:521-537 | whatever the message, a sample timer that is set is set to the end of the interval since the last sampling, or to now if that is over |
| MainTimers.BufferKeepsDistance | app/src/main.c:467-511 | a search in buffer mode comes after the interval or from a button, and is remembered |
| MainTimers.SamplingRate | app/src/main.c:467-511 | within one stay in buffer mode a search no button asked for comes at least the current interval after the one before |
| MainTimers.NoDrift | app/src/main.c:467-537 | prompt sampling does not drift: the k-th search after begins exactly k intervals later, however long each takes and whatever else is handled that changes neither state nor interval nor start of sampling |
| UpdateSafety.QuietInUpdate | app/src/main.c:1668-1957 | during an update the application publishes only what the update needs: no search, sensor request, poll or batch request |
| UpdateSafety.StaysOk | app/src/main.c:1782-1957 | how far the log of a stay must have come in each update state; a reboot comes after the need for it, the network asked to go and gone, and the order to clear the storage |
| UpdateSafety.StaysOkFromStart | app/src/main.c:1782-1957 | so in every update reached from start-up |
| UpdateSafety.OrdersComeOffline | app/src/main.c:1874-1957 | a reboot or an order to apply an image is published only in an update in which the network has gone; a reboot only if one was needed |
| UpdateSafety.OnlyInUpdates | app/src/main.c:1811-1957 | outside updates none of these is ever published |
| Fota.UpdateModule.Process | app/src/modules/fota/fota.c:262-507 | the update module does what its table says, leaf handler first |
| UpdateSafety.ApplyTakesOrder | app/src/modules/fota/fota.c:419-449 | the library is told to apply an image only on FOTA_IMAGE_APPLY, while waiting for it |
| UpdateSafety.AppliedOnlyOffline | app/src/modules/fota/fota.c:375-466 | across both modules and every interleaving, an image has been applied at most as often as steps of the application ordered it, and each of these steps came in a stay in which the network had gone |
| UpdateRuns.ReactIs | app/src/modules/fota/fota.c:262-507 | the stage moves as a fold over FOTA_CHAN says, and the library is asked to poll, to apply and to cancel, and a missing job is published, each under exactly one condition and at most once |
| UpdateRuns.RunAdvances | app/src/modules/fota/fota.c:262-507 | so over every run the module is where its messages have taken it |
| UpdateRuns.OrdersAreApplied | app/src/modules/fota/fota.c:375-466 | across both modules and every interleaving of a run in which the library reports what fits: an order finds the module waiting for it, and when the module has taken its messages the image has been applied exactly as often as ordered |
| AppStorage.RebootSendsClear | app/src/main.c:1930-1957 | the step into the reboot puts a clear, and nothing else, last in the storage module's queue |
| AppStorage.RebootEmptiesIff | app/src/main.c:1930-1957 | whatever happens in between, when the storage module takes that clear the backend is empty afterwards if and only if no session is active then or it was empty already |
| AppStorage.RebootKeepsRecordsIff | app/src/main.c:1930-1957 | a batch request, an update and its reboot, with the batch left unread, leave records in the backend if and only if the batch could not take them all |
| AppStorage.RebootKeepsFromStart | app/src/main.c:1930-1957 | the same run from start-up, with records the backend has recovered |
| AppStorage.AlwaysInformed | app/src/modules/storage/storage.c:828-922 | over every interleaving the last confirmation on its way to the application, or else the last it took, names the storage module's mode |
| AppStorage.ModesAgreeIff | app/src/main.c:991-1749 | from start-up on, with no confirmation on its way, the application is in the storage module's mode if and only if it missed no confirmation during its last update or the last it missed names its own mode |
| ModeAgreement.BufferModeFollows | app/src/main.c:759-816 | at any time after start-up, in any interleaving: a shadow that validly says buffer mode leaves both modules in buffer mode, once no request and no confirmation is queued, until somebody asks for passthrough mode or an update begins |
| AppStorage.ModesCanDiffer | app/src/main.c:1668-1749 | a run in which a cancelled update resumes in buffer mode while the storage module is in passthrough mode |
| AppStorage.ModesDifferFromStart | app/src/main.c:1668-1749 | such a run from start-up |
| Cloud.CloudModule.SetState | app/src/modules/cloud/cloud.c:187-241 | exits and entries of the cloud machine along its chart |
| Cloud.GivesUp | app/src/modules/cloud/cloud.c:710-733 | a failed request or a provisioning request leaves the connection and begins a first attempt |
| Cloud.TriesAgain | app/src/modules/cloud/cloud.c:1008-1031 | the next attempt connects or provisions, whichever was going on |
| Cloud.CloudModule.ProvisioningRun | app/src/modules/cloud/cloud.c:952-987 | network changes end in the provisioning state |
| Cloud.CloudModule.ConnectedReadyRun | app/src/modules/cloud/cloud.c:1096-1155 | what the connected state takes |
| Cloud.CloudModule.ConnectedPausedRun | app/src/modules/cloud/cloud.c:1179-1222 | a paused module closes every batch offered to it |
| Cloud.CloudModule.Process | app/src/modules/cloud/cloud.c:773-1222 | the whole dispatch does exactly what one flat table says, for every message |
| CloudRuns.AlwaysInv | app/src/modules/cloud/cloud.c:813-1222 | every run keeps this: the last published status is connected if and only if the state is CONNECTED_READY, and the module idles only when the last network status it processed is disconnected |
| CloudRuns.ReachableInv | app/src/modules/cloud/cloud.c:773-1222 | so in every state reachable from start-up |
| CloudLink.StepFollows | app/src/modules/cloud/cloud.c:773-1222 | network status and connection, whether down, trying, waiting, up or held, move as a small machine over the messages says: up exactly on success in an attempt or when the network returns, and left exactly by losing the network, a failed request or a provisioning request |
| CloudLink.RunFollows | app/src/modules/cloud/cloud.c:773-1222 | so in every state reachable from start-up |
| CloudLink.StepAnnounces | app/src/modules/cloud/cloud.c:788-1222 | each change publishes and asks for exactly what it demands: an attempt connects or provisions, a connection and its loss are published, too long a backoff fails its assertion |
| CloudLink.RunSays | app/src/modules/cloud/cloud.c:788-1222 | so over every run from start-up all that is said of the connection, in order, is read off the messages |
| CloudRuns.BackoffsCounted | app/src/modules/cloud/cloud.c:847-1006 | on the k-th backoff since it began to connect the attempt counter is k and the time the formula for k, in 32 bits and for every k |
| CloudRuns.NondecreasingIff | app/src/modules/cloud/cloud.c:292-310 | while the formula fits in 32 bits the time equals it, and the next is at least as long if and only if the formula still fits |
| CloudRuns.FormulaWithinMaxIff | app/src/modules/cloud/cloud.c:292-310 | the formula stays within the configured maximum if and only if its first value does and it never grows |
| CloudRuns.MaximumKeptIff | app/src/modules/cloud/cloud.c:292-310 | over all runs from start-up the assertion on the maximum holds if and only if that is so, for options that fit a C int |
| CloudRuns.DefaultExceedsMax | app/src/modules/cloud/cloud.c:292-310 | the default configuration reaches its maximum on the 60th backoff and fails the assertion on the 61st |

## Left out

- Modem, GNSS, Wi-Fi, CoAP and MQTT, provisioning, power, LEDs and sensors: libraries and hardware; where their results matter they are parameters of a message.
- The CBOR codecs: a shadow response arrives decoded, or as one that fails to decode.
- `network.c`, `location.c`, `environmental.c`, `power.c` and `button.c`: small machines whose claims are mostly one branch.
- Shell commands, STORAGE_STATS, logging, watchdogs and the fatal-error macros.
- Zephyr itself is not part of this model: zbus is a lossless queue per subscriber whose publications never fail, the pipe moves any positive part of what is asked, the ring buffer moves all it can, and the state machine framework is its documented behaviour on the chart.
- Flash faults: file operations succeed, except that a store or a retrieve may stop before its header write.
- Interleavings inside one message: modules alternate message by message, and the consumer reads a batch without the storage thread running in between.
- The uptime is read once per message, and in seconds it does not wrap.
- The length field of a published single record, truncated to 16 bits; that of an offer is modelled, capped at 65535 items.
- Several searches at once: a location search is a trigger and a later completion message.
- The cloud service's own requests: a message to it either succeeds or fails.
- LfsBackend.LfsBackend.Peek: as the source's assertions demand, callers pass a buffer of at least the record size.
- BackendEquivalence.ReplayLfs: every record at most one block and every path within its buffer; the errors of the other cases are in the contracts of LfsBackend.
- Drain.DrainCompletes: no samples, flushes, clears, timeouts or other consumers during the exchange, a cloud that stays connected, and records short enough for a frame header; Handover has the cloud's connection, StorageRuns the rest.
- Handover.LostIffRefused: no samples, flushes, clears or other consumers, records short enough for a frame header, and no timeout; what a timeout loses itself is in StorageRuns.EventShifts.
- MainTimers.SamplingRate: uptime of at least one second, since a start time of zero means that nothing has been sampled.
- CloudRuns.BackoffsCounted: a shift by 32 or more, undefined in C, is taken modulo 2^32; and after a backoff time that fails its assertion the model goes on, where a build with assertions stops.
- CloudRuns.MaximumKeptIff: options of 2^31 and more, which are no C integers, could wrap past the maximum unseen.
- UpdateRuns.OrdersAreApplied: runs in which the library reports a download or a success only while one is under way, nothing is cancelled and no download fails; UpdateRuns.RunAdvances covers the rest for the module alone.
- Storage.WireSorts: enumerators of 256 and more, which the header's byte truncates and two of which could then share a byte.
- AppStorage.RebootEmptiesIff: whether the storage thread gets to the clear within the five seconds before the reset.
