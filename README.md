# Heap observer time-series file: the bounded event buffer

This project models the recorder at the heart of the heap tracker's
time-series observer (`HeapObserverTimeseriesFile`). The instrumentation layer
reports every allocation and every free. The observer wraps each report in an
`OfflineEntry` and stores it in the next free slot of a fixed array of
`kMaxBufferCount` slots. It writes the buffered records (slots `0..size-1`, in
index order) to the output file and empties the buffer when the array fills
up, when the periodic background thread wakes, when `OnComplete` is called, and
one last time in the destructor.

The model has three modules:

- `Events` (events.dfy): the record type `OfflineEntry` (`Alloc` or `Free`)
  and opaque types for the callback payloads and the options.
- `BufferSpec` (buffer_spec.dfy): the buffer as a value `View(written,
  pending)`. `Store`, `Drain`, `Step` and `Run` say what each call does. The
  lemmas prove the promises: the occupancy stays below capacity, and the
  output never loses, duplicates or reorders a record.
- `TimeseriesFile` (timeseries_file.dfy): the class
  `HeapObserverTimeseriesFile`. It has the array `offlineEntries`, the counter
  `size`, the output stream `out` (a sequence of the records written so far)
  and a ghost `history` of every record ingested. Its invariant `Valid()`
  states `out + offlineEntries[..size] == history` and `size < capacity`.
  Every state-changing method except `Reset` is proved against the
  `BufferSpec` functions.

The header constant `kMaxBufferCount` is not part of this model. It is the
constructor parameter `capacity`, which must be positive. The header's initial
value of `size_` is taken to be 0.

## Model

| member | source | states |
|---|---|---|
| TimeseriesFile.HeapObserverTimeseriesFile.constructor | src/heap_tracker_observer_timeseries_file.cc:9-18 | the output starts empty (opened with truncation), the buffer is empty, the invariant holds, and `GetHeapTrackOptions()` returns exactly the options passed in |
| TimeseriesFile.HeapObserverTimeseriesFile.OnAlloc | src/heap_tracker_observer_timeseries_file.cc:37-41 | the allocation record is appended to the history; the new state is `Store` of the old one (flush exactly when the post-increment count reaches capacity); only the slot at the old `size` is written; the invariant is kept |
| TimeseriesFile.HeapObserverTimeseriesFile.OnFree | src/heap_tracker_observer_timeseries_file.cc:44-48 | the same as `OnAlloc` for a free record |
| TimeseriesFile.HeapObserverTimeseriesFile.OnComplete | src/heap_tracker_observer_timeseries_file.cc:51-54 | after the final flush the buffer is empty and the output equals the whole ingestion history |
| TimeseriesFile.HeapObserverTimeseriesFile.Flush | src/heap_tracker_observer_timeseries_file.cc:65-72 | appends slots `0..size-1` to the output in index order and sets `size` to 0; accepts a full buffer and leaves a valid one |
| TimeseriesFile.HeapObserverTimeseriesFile.FlushIfFull | src/heap_tracker_observer_timeseries_file.cc:75-79 | flushes if `size` equals capacity and otherwise changes nothing; afterwards `size < capacity` |
| TimeseriesFile.HeapObserverTimeseriesFile.Destroy | src/heap_tracker_observer_timeseries_file.cc:20-24 | the destructor's final flush: the stream is closed, the buffer is empty and the output equals the whole ingestion history |
| TimeseriesFile.ThresholdFlushScenario | src/heap_tracker_observer_timeseries_file.cc:39-40 | with capacity 3, calls alloc, free, alloc: the third call flushes and the output is exactly those three records in order, with nothing left buffered |
| TimeseriesFile.FinalFlushScenario | src/heap_tracker_observer_timeseries_file.cc:20-23 | with capacity 3, one alloc writes nothing, and destruction then writes exactly that record |
| BufferSpec.StoreFlushesExactlyAtCapacity | src/heap_tracker_observer_timeseries_file.cc:39-40 | storing into a buffer below capacity flushes if and only if the count reaches capacity; the buffer stays below capacity; the record is recorded last; without a flush the output is unchanged |
| BufferSpec.DrainWritesBufferInOrder | src/heap_tracker_observer_timeseries_file.cc:67-70 | a flush writes the buffered records after the old output, in buffer order, and empties the buffer without losing or duplicating a record |
| BufferSpec.DrainEmptyIsNoOp | src/heap_tracker_observer_timeseries_file.cc:67-70 | flushing an empty buffer leaves the output and the buffer unchanged |
| BufferSpec.DrainIdempotent | src/heap_tracker_observer_timeseries_file.cc:65-72 | a second flush right after a first changes nothing |
| BufferSpec.StepKeepsInvariant | src/heap_tracker_observer_timeseries_file.cc:37-72 | any single public call keeps the buffer below capacity and adds exactly the call's record to the end of what was recorded |
| BufferSpec.RunKeepsInvariant | src/heap_tracker_observer_timeseries_file.cc:37-72 | over any sequence of calls, including periodic flushes, the buffer stays below capacity and output followed by buffer equals every ingested record in call order |
| BufferSpec.RunSnoc | src/heap_tracker_observer_timeseries_file.cc:37-72 | running a sequence of calls and then one more call is running them all in order |
| BufferSpec.WrittenIsPrefixOfIngested | src/heap_tracker_observer_timeseries_file.cc:67-70 | at every moment the output file holds a prefix of the ingested records |
| BufferSpec.CompleteWritesEverything | src/heap_tracker_observer_timeseries_file.cc:51-54 | after any calls followed by `OnComplete`, the buffer is empty and the output is exactly every ingested record in call order |

## Left out

- The periodic flush thread (`StartFlushThread`, `StopFlushThread`, the `stop_thread_` flag, the 10-second sleep and the join): it is about concurrency and timing. Its only effect on the buffer is a call to `Flush`, which the model allows between any two calls (`BufferSpec.Call.Flush`). The race between that thread and the callers is not modelled: every call runs to completion before the next one starts.
- File I/O: opening, flushing and closing the `ofstream`, and the byte encoding of `OfflineEntry` by `operator<<`. The output is the sequence of records written, and `out_.flush()` has no effect in the model. Write errors are never checked by the code and are not modelled.
- The destructor's status line written to standard output: it is a process-wide side effect.
- The `TRACE` logging and the `assert(filename_)` null check: the filename is a Dafny string and cannot be null.
- `Dump`: its body is empty.
- `Reset` is modelled as `TimeseriesFile.HeapObserverTimeseriesFile.Reset` with `requires false`, because its body is `assert(0)`. It has no row in the table because it has nothing to ensure.
- `GetHeapTrackOptions` is modelled as a function; the constructor's contract states what it returns.
- The disabled `OpenIfNot` block: it is never compiled.
- `kMaxBufferCount` and the initial value of `size_` come from a header that is not part of this model. The capacity is a positive constructor parameter, and `size` starts at 0.
