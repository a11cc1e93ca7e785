/** The heap observer that records allocation and free events to a
    time-series file through a fixed-size in-memory buffer. */
module TimeseriesFile {
  import opened Events
  import opened BufferSpec

  class HeapObserverTimeseriesFile {
    const heapTrackOptions: HeapTrackOptions
    const filename: string
    /** Number of slots in the buffer (the header constant kMaxBufferCount). */
    const capacity: nat
    /** The buffer; slots `0..size` hold the records not yet written. */
    const offlineEntries: array<OfflineEntry>
    var size: nat
    /** Every record written to the output stream so far, in write order. */
    var out: seq<OfflineEntry>
    /** Whether the output stream is open; only the destructor closes it. */
    var isOpen: bool
    /** Every record handed to the observer, in call order. */
    ghost var history: seq<OfflineEntry>

    /** The observer's state as a value of the buffer specification. */
    ghost function Abstract(): View
      reads this, offlineEntries
      requires size <= offlineEntries.Length
    {
      View(out, offlineEntries[..size])
    }

    /** Holds inside `OnAlloc`/`OnFree`, where the buffer may be full until
        `FlushIfFull` runs: no record has been lost so far. */
    ghost predicate Consistent()
      reads this, offlineEntries
    {
      && capacity > 0
      && offlineEntries.Length == capacity
      && size <= capacity
      && Recorded(Abstract()) == history
    }

    /** Holds between public calls: the buffer also has a free slot. */
    ghost predicate Valid()
      reads this, offlineEntries
    {
      Consistent() && Bounded(Abstract(), capacity)
    }

    /** Opens the output file truncated, with an empty buffer. `capacity`
        stands for kMaxBufferCount. */
    constructor (options: HeapTrackOptions, name: string, capacity: nat)
      requires capacity > 0
      ensures Valid() && isOpen
      ensures Abstract() == Initial && history == []
      ensures GetHeapTrackOptions() == options && filename == name
      ensures this.capacity == capacity && fresh(offlineEntries)
    {
      heapTrackOptions := options;
      filename := name;
      this.capacity := capacity;
      offlineEntries := new OfflineEntry[capacity];
      size := 0;
      out := [];
      isOpen := true;
      history := [];
    }

    function GetHeapTrackOptions(): HeapTrackOptions
    {
      heapTrackOptions
    }

    /** Buffers an allocation record; flushes if that filled the buffer. Only
        the slot at the old `size` is written. */
    method OnAlloc(info: AllocCallbackInfo)
      requires Valid() && isOpen
      modifies this`size, this`out, this`history, offlineEntries
      ensures Valid() && isOpen
      ensures history == old(history) + [Alloc(info)]
      ensures Abstract() == Store(old(Abstract()), Alloc(info), capacity)
      ensures offlineEntries[..] == old(offlineEntries[..])[old(size) := Alloc(info)]
    {
      offlineEntries[size] := Alloc(info);
      size := size + 1;
      history := history + [Alloc(info)];
      FlushIfFull();
    }

    /** Buffers a free record; flushes if that filled the buffer. Only the slot
        at the old `size` is written. */
    method OnFree(info: FreeCallbackInfo)
      requires Valid() && isOpen
      modifies this`size, this`out, this`history, offlineEntries
      ensures Valid() && isOpen
      ensures history == old(history) + [Free(info)]
      ensures Abstract() == Store(old(Abstract()), Free(info), capacity)
      ensures offlineEntries[..] == old(offlineEntries[..])[old(size) := Free(info)]
    {
      offlineEntries[size] := Free(info);
      size := size + 1;
      history := history + [Free(info)];
      FlushIfFull();
    }

    /** End of the event stream: a final flush, after which the output holds
        every record taken in. */
    method OnComplete()
      requires Valid() && isOpen
      modifies this`size, this`out
      ensures Valid() && isOpen
      ensures Abstract() == Drain(old(Abstract()))
      ensures out == history && size == 0
    {
      Flush();
    }

    /** Never a valid call: the observer cannot forget recorded history. */
    method Reset()
      requires false
    {
    }

    /** Writes slots `0..size` to the output stream in index order, then empties
        the buffer. Also what the periodic background flush calls. */
    method Flush()
      requires Consistent() && isOpen
      modifies this`size, this`out
      ensures Valid() && isOpen
      ensures Abstract() == Drain(old(Abstract()))
      ensures out == old(out) + old(offlineEntries[..size]) && size == 0
    {
      var i := 0;
      while i != size
        invariant size == old(size) && history == old(history)
        invariant 0 <= i <= size
        invariant out == old(out) + offlineEntries[..i]
      {
        out := out + [offlineEntries[i]];
        i := i + 1;
      }
      size := 0;
    }

    /** Flushes when the buffer has reached `capacity`, and otherwise does
        nothing. */
    method FlushIfFull()
      requires Consistent() && isOpen
      modifies this`size, this`out
      ensures Valid() && isOpen
      ensures old(size) == capacity ==> Abstract() == Drain(old(Abstract()))
      ensures old(size) != capacity ==> out == old(out) && size == old(size)
    {
      if size == capacity {
        Flush();
      }
    }

    /** The destructor: after the background flush has stopped, a final flush,
        then the output stream is closed with every record in it. The
        background loop may still flush once after its stop flag is set; that
        is one more `Flush` before this one, and `DrainIdempotent` shows the
        final state is the same. */
    method Destroy()
      requires Valid() && isOpen
      modifies this`size, this`out, this`isOpen
      ensures !isOpen && size == 0
      ensures Abstract() == Drain(old(Abstract()))
      ensures out == history
    {
      Flush();
      isOpen := false;
    }
  }

  /** Capacity 3; an allocation, a free and an allocation: the third call
      fills the buffer, which is flushed at once. */
  method ThresholdFlushScenario(options: HeapTrackOptions, a1: AllocCallbackInfo, f1: FreeCallbackInfo, a2: AllocCallbackInfo)
    returns (written: seq<OfflineEntry>, buffered: nat)
    ensures written == [Alloc(a1), Free(f1), Alloc(a2)] && buffered == 0
  {
    var observer := new HeapObserverTimeseriesFile(options, "heap.timeseries", 3);
    observer.OnAlloc(a1);
    observer.OnFree(f1);
    observer.OnAlloc(a2);
    written, buffered := observer.out, observer.size;
  }

  /** Capacity 3; one allocation, then destruction: the final flush writes the
      one record although the buffer never filled. */
  method FinalFlushScenario(options: HeapTrackOptions, a1: AllocCallbackInfo)
    returns (writtenBefore: seq<OfflineEntry>, writtenAfter: seq<OfflineEntry>)
    ensures writtenBefore == [] && writtenAfter == [Alloc(a1)]
  {
    var observer := new HeapObserverTimeseriesFile(options, "heap.timeseries", 3);
    observer.OnAlloc(a1);
    writtenBefore := observer.out;
    observer.Destroy();
    writtenAfter := observer.out;
  }
}
