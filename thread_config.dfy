/**
 * The thread configuration both platforms accept (`CXPLAT_THREAD_CONFIG`):
 * option flags and the flat index of the ideal processor. The optional
 * name is passed to each platform's creation separately (Windows truncates
 * it); the callback and its context are handed to the operating system
 * unchanged and are not part of this model.
 */
module ThreadConfig {
  import opened Ints

  /**
   * The three option bits tested with `Flags & CXPLAT_THREAD_FLAG_...`:
   * pin the thread to its ideal processor, give the scheduler an
   * ideal-processor hint, and raise the thread's priority.
   */
  datatype ThreadFlags = ThreadFlags(setAffinitize: bool, setIdealProc: bool, highPriority: bool)

  datatype Config = Config(flags: ThreadFlags, idealProcessor: uint16)
}
