/**
 * Status codes. On POSIX a status is an `unsigned int` holding an errno
 * value, and it is a failure when, read as a signed `int`, it is positive.
 * On Windows user mode a status is an `HRESULT`, and it is a failure when,
 * read as a signed 32-bit value, it is negative (the platform's `FAILED`).
 */
module Status {
  import opened Ints

  type PosixStatus = uint32
  type HResult = uint32

  const POSIX_SUCCESS: PosixStatus := 0
  /** `ENOMEM`. */
  const POSIX_OUT_OF_MEMORY: PosixStatus := 12
  /** `EOPNOTSUPP` on Linux. */
  const POSIX_NOT_SUPPORTED: PosixStatus := 95

  const S_OK: HResult := 0
  const E_OUTOFMEMORY: HResult := 0x8007_000E
  const E_NOINTERFACE: HResult := 0x8000_4002

  /** `CXPLAT_FAILED` on POSIX: `(int)(X) > 0`. */
  predicate PosixFailed(x: PosixStatus) {
    ToInt32(x) > 0
  }

  /** `CXPLAT_SUCCEEDED` on POSIX: `(int)(X) <= 0`. */
  predicate PosixSucceeded(x: PosixStatus) {
    ToInt32(x) <= 0
  }

  /** `CXPLAT_FAILED` on Windows user mode: `FAILED(hr)`, that is `(HRESULT)hr < 0`. */
  predicate WinFailed(x: HResult) {
    ToInt32(x) < 0
  }

  /**
   * The POSIX pair is an exact complement, and a status fails exactly when it
   * is a positive value below 2^31 (an errno); the values whose top bit is
   * set read as negative and so count as success.
   */
  lemma PosixFailedCharacterised(x: PosixStatus)
    ensures PosixSucceeded(x) <==> !PosixFailed(x)
    ensures PosixFailed(x) <==> 0 < x < 0x8000_0000
  {
  }

  /** The named POSIX codes: success succeeds, the error codes fail. */
  lemma PosixNamedCodes()
    ensures PosixSucceeded(POSIX_SUCCESS)
    ensures PosixFailed(POSIX_OUT_OF_MEMORY) && PosixFailed(POSIX_NOT_SUPPORTED)
  {
  }

  /** A Windows status fails exactly when its top bit is set; `S_OK` succeeds and the error codes fail. */
  lemma WinFailedCharacterised(x: HResult)
    ensures WinFailed(x) <==> x >= 0x8000_0000
    ensures !WinFailed(S_OK) && WinFailed(E_OUTOFMEMORY) && WinFailed(E_NOINTERFACE)
  {
  }

  /** `CXPLAT_STATUS_NOT_SUPPORTED` on Windows user mode. */
  const WIN_NOT_SUPPORTED: HResult := E_NOINTERFACE

  /**
   * `HRESULT_FROM_WIN32`: a Win32 error code that is zero, or negative as an
   * `HRESULT`, passes unchanged; any other keeps its low 16 bits under the
   * failure bit and `FACILITY_WIN32` (7). Every nonzero code becomes a
   * failure, and 0 stays success.
   */
  function HResultFromWin32(x: uint32): (r: HResult)
    ensures WinFailed(r) <==> x != 0
    ensures x != 0 && x < 0x1_0000 ==> r == 0x8007_0000 + x
  {
    if ToInt32(x) <= 0 then x else x % 0x1_0000 + 0x8007_0000
  }
}
