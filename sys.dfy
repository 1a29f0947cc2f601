/** The constants the wrapper takes from the backend's bindings
    (applevisor-sys/src/lib.rs). A status is a 32-bit signed `hv_return_t`;
    the backend declares its codes as unsigned 32-bit values, so each code
    below is that value reinterpreted as a signed integer. */
module Sys {
  import opened Prims

  /** The size of a memory page on the host (16 KiB). */
  const PAGE_SIZE: usize := 0x4000

  /** `hv_error_t`: the success code and the failure codes. */
  const HV_SUCCESS: i32 := 0
  const HV_ERROR: i32 := 0xfae9_4001 - U32_LIMIT
  const HV_BUSY: i32 := 0xfae9_4002 - U32_LIMIT
  const HV_BAD_ARGUMENT: i32 := 0xfae9_4003 - U32_LIMIT
  const HV_ILLEGAL_GUEST_STATE: i32 := 0xfae9_4004 - U32_LIMIT
  const HV_NO_RESOURCES: i32 := 0xfae9_4005 - U32_LIMIT
  const HV_NO_DEVICE: i32 := 0xfae9_4006 - U32_LIMIT
  const HV_DENIED: i32 := 0xfae9_4007 - U32_LIMIT
  const HV_FAULT: i32 := 0xfae9_4008 - U32_LIMIT
  const HV_UNSUPPORTED: i32 := 0xfae9_400f - U32_LIMIT

  /** Guest memory permission bits, `hv_memory_flags_t`. */
  const HV_MEMORY_NONE: bv64 := 0
  const HV_MEMORY_READ: bv64 := 1
  const HV_MEMORY_WRITE: bv64 := 2
  const HV_MEMORY_EXEC: bv64 := 4
}
