/** The records the heap observer writes to its time-series file.

    The instrumentation layer hands the observer an allocation or a free
    description; the observer wraps either one in an `OfflineEntry`, whose
    byte encoding is defined elsewhere and is not part of this model. The
    payloads are therefore opaque types here. */
module Events {

  /** What the instrumentation layer reports about one allocation. */
  type AllocCallbackInfo(0)

  /** What the instrumentation layer reports about one free. */
  type FreeCallbackInfo(0)

  /** The observer's configuration, kept verbatim. */
  type HeapTrackOptions

  /** One buffered record: built from either callback description and never
      changed afterwards. */
  datatype OfflineEntry =
    | Alloc(alloc: AllocCallbackInfo)
    | Free(free: FreeCallbackInfo)
}
