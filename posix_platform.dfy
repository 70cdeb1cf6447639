/**
 * The POSIX library state (`CxPlatform`, `RandomFd`, `CxPlatProcessorCount`)
 * and the operations on it: initialisation, the debug allocation-failure
 * setter and getter, the fault-injecting allocator, the current-processor
 * lookup, and the Linux thread creation with its retry.
 */
module PosixPlatform {
  import opened Ints
  import opened Status
  import opened FaultInjection
  import opened ThreadConfig

  class Platform {
    /** The build targets Darwin rather than Linux. */
    const darwin: bool
    /** `CxPlatform.AllocFailDenominator`. */
    var allocFailDenominator: int32
    /** `CxPlatform.AllocCounter`, a `long`: 64 bits here. */
    var allocCounter: int64
    /** `RandomFd`: -1 until `/dev/urandom` is open. */
    var randomFd: int
    /** `CxPlatProcessorCount`. */
    var processorCount: uint32

    /** The library before `CxPlatInitialize`: zero-initialised globals, no random source. */
    constructor (darwin: bool)
      ensures this.darwin == darwin
      ensures allocFailDenominator == 0 && allocCounter == 0
      ensures randomFd == -1 && processorCount == 0
    {
      this.darwin := darwin;
      allocFailDenominator := 0;
      allocCounter := 0;
      randomFd := -1;
      processorCount := 0;
    }

    /**
     * `CxPlatInitialize`. The fault-injection state is reset; the processor
     * count is 1 on Darwin and otherwise the `sysconf` answer `online`
     * truncated to 32 bits; then `/dev/urandom` is opened (`openResult` is
     * what `open` returns). When the open fails the status is `errno`.
     */
    method Initialize(online: int64, openResult: int, errno: PosixStatus) returns (status: PosixStatus)
      modifies this
      ensures allocFailDenominator == 0 && allocCounter == 0
      ensures processorCount == if darwin then 1 else Wrap32(online)
      ensures randomFd == openResult
      ensures status == if openResult == -1 then errno else POSIX_SUCCESS
    {
      allocFailDenominator := 0;
      allocCounter := 0;
      if darwin {
        processorCount := 1;
      } else {
        processorCount := Wrap32(online);
      }
      randomFd := openResult;
      if randomFd == -1 {
        return errno;
      }
      status := POSIX_SUCCESS;
    }

    /** `CxPlatSetAllocFailDenominator`: stores the value and restarts the count. */
    method SetAllocFailDenominator(value: int32)
      modifies this
      ensures GetAllocFailDenominator() == value && allocCounter == 0
      ensures randomFd == old(randomFd) && processorCount == old(processorCount)
    {
      allocFailDenominator := value;
      allocCounter := 0;
    }

    /** `CxPlatGetAllocFailDenominator`. */
    function GetAllocFailDenominator(): (value: int32)
      reads this
    {
      allocFailDenominator
    }

    /**
     * The debug `CxPlatAlloc`: the caller must not ask for zero bytes. The
     * injection decision is taken first (the draw `rand` stands for the
     * `CxPlatRandom` read), then `malloc` (whose success is `mallocOk`).
     */
    method Alloc(byteCount: size_t, rand: uint32, mallocOk: bool) returns (ok: bool)
      requires byteCount != 0
      modifies this
      ensures var dec := Decide(Long64, old(allocFailDenominator), old(allocCounter), rand);
        allocCounter == dec.counter && (ok <==> !dec.fail && mallocOk)
      ensures allocFailDenominator == old(allocFailDenominator)
      ensures randomFd == old(randomFd) && processorCount == old(processorCount)
    {
      var dec := Decide(Long64, allocFailDenominator, allocCounter, rand);
      allocCounter := dec.counter;
      if dec.fail {
        return false;
      }
      ok := mallocOk;
    }

    /**
     * `CxPlatProcCurrentNumber`: on Linux the `sched_getcpu` answer `cpu`,
     * as a 32-bit value, modulo the processor count; on Darwin 0. Either
     * way the result is a valid processor index.
     */
    function ProcCurrentNumber(cpu: int32): (n: uint32)
      reads this
      requires processorCount > 0
      ensures n < processorCount
      ensures darwin ==> n == 0
      ensures !darwin && 0 <= cpu < processorCount ==> n == cpu
    {
      if darwin then 0 else ToUint32(cpu) % processorCount
    }
  }

  /** What a call to `CxPlatThreadCreate` asks of the pthread library, in order. */
  datatype ThreadAction =
    | AttrInit
    | AttrSetAffinity(cpu: uint16)
    | AttrSetSchedParam
    | Create(withAttr: bool)
    | SetAffinity(cpu: uint16)
    | AttrDestroy

  /**
   * The answers of the pthread library: the return codes of
   * `pthread_attr_init` and of the two `pthread_create` attempts (0 is
   * success), and the value `errno` holds whenever it is read.
   */
  datatype PthreadAnswers = PthreadAnswers(attrInit: int32, firstCreate: int32, secondCreate: int32, errno: PosixStatus)

  /**
   * The status the retry leaves, as written: success when the first attempt
   * works; otherwise success when the second works; otherwise `errno`.
   */
  function CreateStatusAsWritten(p: PthreadAnswers): (s: PosixStatus)
  {
    if p.firstCreate == 0 || p.secondCreate == 0 then POSIX_SUCCESS else p.errno
  }

  /**
   * `pthread_create` reports its error by return value and need not set
   * `errno`: when both attempts fail with `EAGAIN` and `errno` still holds 0,
   * the code as written reports success although no thread exists.
   */
  lemma CreateStatusAsWrittenHidesFailure()
    ensures var p := PthreadAnswers(0, 11, 11, 0);
      PosixSucceeded(CreateStatusAsWritten(p)) && p.firstCreate != 0 && p.secondCreate != 0
  {
  }

  /**
   * As written, the pinning step then believes the thread exists: with
   * `SET_AFFINITIZE`, two failed attempts and `errno` at 0,
   * `pthread_setaffinity_np` is called on a thread that was never created.
   */
  lemma CreateStatusAsWrittenPinsMissingThread(config: Config)
    requires config.flags.setAffinitize
    ensures var p := PthreadAnswers(0, 11, 11, 0);
      Pinning(config, CreateStatusAsWritten(p)) == [SetAffinity(config.idealProcessor)]
      && CreateAttempts(p) == [Create(true), Create(false)]
  {
  }

  /**
   * The evidently intended status: the second attempt's own return code
   * when both attempts fail.
   */
  function CreateStatus(p: PthreadAnswers): (s: PosixStatus)
  {
    if p.firstCreate == 0 then POSIX_SUCCESS else Wrap32(p.secondCreate)
  }

  /**
   * With the return code as the status, and pthread error numbers being
   * positive, the status is success exactly when one of the two attempts
   * created the thread.
   */
  lemma CreateStatusReportsFailure(p: PthreadAnswers)
    requires p.secondCreate >= 0
    ensures PosixSucceeded(CreateStatus(p)) <==> p.firstCreate == 0 || p.secondCreate == 0
    ensures CreateStatus(p) == POSIX_SUCCESS <==> p.firstCreate == 0 || p.secondCreate == 0
  {
  }

  /**
   * The Linux (glibc, not Android) `CxPlatThreadCreate` without a custom
   * thread context, with the status after two failed attempts corrected to
   * `CreateStatus` (the code as written returns `errno` there; see
   * `CreateStatusAsWritten`). A failing `pthread_attr_init` returns `errno` at once.
   * Otherwise the attribute gets the affinity and the priority the flags ask
   * for; the thread is created with the attribute and, if that fails, once
   * more without it; only a successful creation with `SET_AFFINITIZE` pins
   * the new thread; the attribute is destroyed on the way out.
   */
  method ThreadCreate(config: Config, p: PthreadAnswers) returns (status: PosixStatus, actions: seq<ThreadAction>)
    ensures p.attrInit != 0 ==> status == p.errno && actions == [AttrInit]
    ensures p.attrInit == 0 ==> status == CreateStatus(p)
    ensures p.attrInit == 0 ==> actions == [AttrInit] + AttrSetup(config) + CreateAttempts(p) + Pinning(config, status) + [AttrDestroy]
    ensures p.attrInit == 0 && p.secondCreate >= 0 ==> (PosixSucceeded(status) <==> p.firstCreate == 0 || p.secondCreate == 0)
    ensures SetAffinity(config.idealProcessor) in actions <==>
      p.attrInit == 0 && status == POSIX_SUCCESS && config.flags.setAffinitize
  {
    actions := [AttrInit];
    if p.attrInit != 0 {
      return p.errno, actions;
    }
    status := POSIX_SUCCESS;
    if config.flags.setAffinitize {
      actions := actions + [AttrSetAffinity(config.idealProcessor)];
    }
    if config.flags.highPriority {
      actions := actions + [AttrSetSchedParam];
    }
    assert actions == [AttrInit] + AttrSetup(config);
    actions := actions + [Create(true)];
    if p.firstCreate != 0 {
      actions := actions + [Create(false)];
      if p.secondCreate != 0 {
        status := Wrap32(p.secondCreate);
      }
    }
    ghost var created := actions;
    assert created == [AttrInit] + AttrSetup(config) + CreateAttempts(p);
    if status == POSIX_SUCCESS && config.flags.setAffinitize {
      actions := actions + [SetAffinity(config.idealProcessor)];
    }
    assert SetAffinity(config.idealProcessor) !in created;
    actions := actions + [AttrDestroy];
    if p.secondCreate >= 0 {
      CreateStatusReportsFailure(p);
    }
  }

  /** The attribute settings the flags ask for before creation. */
  function AttrSetup(config: Config): (a: seq<ThreadAction>)
    ensures AttrSetAffinity(config.idealProcessor) in a <==> config.flags.setAffinitize
    ensures AttrSetSchedParam in a <==> config.flags.highPriority
    ensures forall x :: x in a ==> !x.Create? && !x.SetAffinity?
  {
    (if config.flags.setAffinitize then [AttrSetAffinity(config.idealProcessor)] else [])
    + (if config.flags.highPriority then [AttrSetSchedParam] else [])
  }

  /** The creation attempts: one with the attribute, and a retry without it when that fails. */
  function CreateAttempts(p: PthreadAnswers): (a: seq<ThreadAction>)
    ensures 1 <= |a| <= 2 && a[0] == Create(true)
    ensures |a| == 2 <==> p.firstCreate != 0
    ensures |a| == 2 ==> a[1] == Create(false)
  {
    if p.firstCreate == 0 then [Create(true)] else [Create(true), Create(false)]
  }

  /** The pinning of a created thread to its ideal processor. */
  function Pinning(config: Config, status: PosixStatus): (a: seq<ThreadAction>)
    ensures a != [] <==> status == POSIX_SUCCESS && config.flags.setAffinitize
    ensures a != [] ==> a == [SetAffinity(config.idealProcessor)]
  {
    if status == POSIX_SUCCESS && config.flags.setAffinitize then [SetAffinity(config.idealProcessor)] else []
  }
}
