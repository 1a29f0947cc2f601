/** The error taxonomy of the wrapper (src/error.rs): a total mapping between
    backend status codes and `HypervisorError`. */
module Errors {
  import opened Prims
  import opened Sys

  /** `HypervisorError`. `LayoutError` exists only in the build that uses the
      generic host allocator; it is kept so that both conversions are total
      over every variant the source declares. */
  datatype HypervisorError =
    | BadArgument
    | Busy
    | Denied
    | Error
    | Fault
    | IllegalState
    | NoDevice
    | NoResources
    | Unknown(code: i32)
    | Unsupported
    | LayoutError

  /** The crate's `Result<T>`: an error is always a `HypervisorError`. */
  datatype Result<+T> = Ok(value: T) | Err(error: HypervisorError)

  /** The nine failure codes that have a named variant. */
  predicate IsKnownCode(code: i32) {
    code in {HV_BAD_ARGUMENT, HV_BUSY, HV_DENIED, HV_ERROR, HV_FAULT,
             HV_ILLEGAL_GUEST_STATE, HV_NO_DEVICE, HV_NO_RESOURCES, HV_UNSUPPORTED}
  }

  /** `From<hv_return_t> for HypervisorError`. */
  function FromCode(code: i32): (e: HypervisorError)
    ensures e.Unknown? <==> !IsKnownCode(code)
    ensures e.Unknown? ==> e.code == code
    ensures e != LayoutError
  {
    if code == HV_BAD_ARGUMENT then BadArgument
    else if code == HV_BUSY then Busy
    else if code == HV_DENIED then Denied
    else if code == HV_ERROR then Error
    else if code == HV_FAULT then Fault
    else if code == HV_ILLEGAL_GUEST_STATE then IllegalState
    else if code == HV_NO_DEVICE then NoDevice
    else if code == HV_NO_RESOURCES then NoResources
    else if code == HV_UNSUPPORTED then Unsupported
    else Unknown(code)
  }

  /** `From<HypervisorError> for hv_return_t`. */
  function ToCode(e: HypervisorError): (code: i32)
    ensures !e.Unknown? ==> IsKnownCode(code)
  {
    match e
    case BadArgument => HV_BAD_ARGUMENT
    case Busy => HV_BUSY
    case Denied => HV_DENIED
    case Error => HV_ERROR
    case Fault => HV_FAULT
    case IllegalState => HV_ILLEGAL_GUEST_STATE
    case NoDevice => HV_NO_DEVICE
    case NoResources => HV_NO_RESOURCES
    case Unknown(c) => c
    case Unsupported => HV_UNSUPPORTED
    case LayoutError => HV_ERROR
  }

  /** `HypervisorError::as_str`. */
  function AsStr(e: HypervisorError): (s: string)
    ensures |s| > 0
  {
    match e
    case BadArgument => "function call has an invalid argument"
    case Busy => "owning resource is busy"
    case Denied => "operation not allowed by the system"
    case Error => "operation unsuccessful"
    case Fault => "hypervisor fault"
    case IllegalState => "guest in an illegal state"
    case NoDevice => "no VM or vCPU available"
    case NoResources => "no host resources available to complete the request"
    case Unknown(_) => "unknown error"
    case Unsupported => "unsupported operation"
    case LayoutError => "layout error"
  }

  /** Two errors are of the same kind when they are the same variant,
      whatever code an `Unknown` carries. */
  predicate SameKind(a: HypervisorError, b: HypervisorError) {
    a == b || (a.Unknown? && b.Unknown?)
  }

  /** Each of the nine known codes names its own variant; every other code,
      the success code included, is carried verbatim by `Unknown`. */
  lemma KnownCodesDecode(code: i32)
    ensures code == HV_BAD_ARGUMENT ==> FromCode(code) == BadArgument
    ensures code == HV_BUSY ==> FromCode(code) == Busy
    ensures code == HV_DENIED ==> FromCode(code) == Denied
    ensures code == HV_ERROR ==> FromCode(code) == Error
    ensures code == HV_FAULT ==> FromCode(code) == Fault
    ensures code == HV_ILLEGAL_GUEST_STATE ==> FromCode(code) == IllegalState
    ensures code == HV_NO_DEVICE ==> FromCode(code) == NoDevice
    ensures code == HV_NO_RESOURCES ==> FromCode(code) == NoResources
    ensures code == HV_UNSUPPORTED ==> FromCode(code) == Unsupported
    ensures !IsKnownCode(code) ==> FromCode(code) == Unknown(code)
    ensures FromCode(HV_SUCCESS) == Unknown(0)
  {
  }

  /** Any status converted to an error and back is the original status. */
  lemma CodeRoundTrip(code: i32)
    ensures ToCode(FromCode(code)) == code
  {
  }

  /** An error converted to a status and back is the original error, except
      `LayoutError` and an `Unknown` that carries one of the known codes. */
  lemma ErrorRoundTrip(e: HypervisorError)
    ensures FromCode(ToCode(e)) == e <==> !(e.LayoutError? || (e.Unknown? && IsKnownCode(e.code)))
    ensures e.LayoutError? ==> FromCode(ToCode(e)) == Error
    ensures e.Unknown? && IsKnownCode(e.code) ==> FromCode(ToCode(e)) != e && ToCode(FromCode(ToCode(e))) == e.code
  {
  }

  /** The length of each description: all differ except those of `Busy`
      and `NoDevice`. */
  function DescriptionLength(e: HypervisorError): nat {
    match e
    case BadArgument => 37
    case Busy => 23
    case Denied => 35
    case Error => 22
    case Fault => 16
    case IllegalState => 25
    case NoDevice => 23
    case NoResources => 51
    case Unknown(_) => 13
    case Unsupported => 21
    case LayoutError => 12
  }

  lemma AsStrLength(e: HypervisorError)
    ensures |AsStr(e)| == DescriptionLength(e)
  {
  }

  /** Every `Unknown` has the same description, whatever code it carries. */
  lemma AsStrIgnoresCode(a: HypervisorError, b: HypervisorError)
    ensures SameKind(a, b) ==> AsStr(a) == AsStr(b)
  {
  }

  /** Errors of different kinds have different descriptions. */
  lemma AsStrDistinguishesKinds(a: HypervisorError, b: HypervisorError)
    ensures AsStr(a) == AsStr(b) ==> SameKind(a, b)
  {
    AsStrLength(a);
    AsStrLength(b);
    assert AsStr(Busy)[0] != AsStr(NoDevice)[0];
  }
}
