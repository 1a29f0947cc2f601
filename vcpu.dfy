/** vCPU liveness (src/vcpu.rs): a `Vcpu` owns a token of its own, and the
    `VcpuHandle`s it hands out hold only a weak reference to it, so they can
    observe the vCPU's destruction without preventing it. Also the local
    length checks of the SME register accessors. */
module Vcpu {
  import opened Prims
  import opened Sys
  import opened Errors
  import opened Hv
  import opened Lifetime

  /** `VcpuHandle`: the vCPU id and a weak reference to the vCPU's token. */
  datatype VcpuHandle = VcpuHandle(vcpu: u64, guard: Token) {

    /** `id`: the id of the vCPU the handle was taken from. */
    function Id(): (id: u64)
      ensures id == vcpu
    {
      vcpu
    }

    /** `is_valid`: the vCPU's token still has a strong holder, the `Vcpu`
        itself or a reference taken with `take_ref`. */
    function IsValid(): (v: bool)
      reads guard
      ensures v <==> guard.strong > 0
    {
      guard.strong > 0
    }
  }

  /** `take_ref`: a strong reference to the vCPU, if it is still alive. */
  method TakeRef(h: VcpuHandle) returns (r: Option<Token>)
    modifies h.guard
    ensures r.Some? <==> old(h.IsValid())
    ensures r.Some? ==> r.value == h.guard && h.IsValid() && h.guard.strong == old(h.guard.strong) + 1
    ensures r.None? ==> h.guard.strong == old(h.guard.strong)
  {
    r := Upgrade(h.guard);
  }

  /** What dropping a `Vcpu` came to: the backend destroyed it, or the
      destroy failed and the drop panicked with that error. */
  datatype DropOutcome = Destroyed | Panicked(error: HypervisorError)

  /** `Vcpu`: the backend's vCPU id, a strong reference to the VM token and
      the vCPU's own token, shared with its handles. */
  class Vcpu {
    const vcpu: u64
    const vmGuard: Token
    const selfGuard: Token

    /** The vCPU holds the live VM, and is itself alive. */
    ghost predicate Valid(hv: Hypervisor)
      reads hv, vmGuard, selfGuard
    {
      HoldsVm(hv, vmGuard) && selfGuard.strong > 0 && vmGuard != selfGuard
    }

    /** The object `vcpu_with_config` builds for a vCPU the backend created. */
    constructor (vcpu: u64, vmGuard: Token)
      ensures this.vcpu == vcpu && this.vmGuard == vmGuard
      ensures fresh(selfGuard) && selfGuard.strong == 1
    {
      this.vcpu := vcpu;
      this.vmGuard := vmGuard;
      this.selfGuard := new Token();
    }

    /** `id`: the backend's id of this vCPU. */
    function Id(): (id: u64)
      ensures id == vcpu
    {
      vcpu
    }

    /** `get_handle`: a weak reference to this vCPU's token, under the same id. */
    function GetHandle(): (h: VcpuHandle)
      ensures h.Id() == Id()
      ensures h.guard == selfGuard
    {
      VcpuHandle(vcpu, selfGuard)
    }

    /** `Drop for Vcpu`: the backend destroys the vCPU (`destroyStatus`), and
        a failure panics. Unwinding still drops the fields: the VM reference
        is released, destroying the VM if this was its last holder, and the
        vCPU's own token loses this strong reference, so its handles stay
        valid only while a `take_ref` reference is outstanding. */
    method Drop(hv: Hypervisor, destroyStatus: i32) returns (outcome: DropOutcome)
      requires hv.Valid() && Valid(hv)
      modifies hv`vmLive, hv`vmDestroyCalls, vmGuard, selfGuard
      ensures outcome == if destroyStatus == HV_SUCCESS then Destroyed else Panicked(FromCode(destroyStatus))
      ensures selfGuard.strong == old(selfGuard.strong) - 1
      ensures GetHandle().IsValid() <==> old(selfGuard.strong) > 1
      ensures hv.Valid() && vmGuard.strong == old(vmGuard.strong) - 1
      ensures hv.vmLive <==> vmGuard.strong > 0
      ensures hv.vmDestroyCalls == old(hv.vmDestroyCalls) + (if old(vmGuard.strong) == 1 then 1 else 0)
    {
      var destroyed := HvCall(destroyStatus);
      outcome := if destroyed.Ok? then Destroyed else Panicked(destroyed.error);
      ReleaseVmRef(hv, vmGuard);
      DropStrong(selfGuard);
    }

    /** `Drop for Vcpu` as the source releases the VM reference. */
    method DropAsWritten(hv: Hypervisor, destroyStatus: i32) returns (outcome: DropOutcome)
      requires Valid(hv)
      modifies vmGuard, selfGuard
      ensures outcome == if destroyStatus == HV_SUCCESS then Destroyed else Panicked(FromCode(destroyStatus))
      ensures selfGuard.strong == old(selfGuard.strong) - 1
      ensures GetHandle().IsValid() <==> old(selfGuard.strong) > 1
      ensures vmGuard.strong == old(vmGuard.strong) - 1 && unchanged(hv)
    {
      var destroyed := HvCall(destroyStatus);
      outcome := if destroyed.Ok? then Destroyed else Panicked(destroyed.error);
      ReleaseVmRefAsWritten(hv, vmGuard);
      DropStrong(selfGuard);
    }
  }

  // ---------------------------------------------------------------------------
  // SME register accessors
  // ---------------------------------------------------------------------------

  /** The SME register files with a length check on their getters. */
  datatype SmeRegister = ZReg | PReg | ZaReg

  /** The buffer length a getter demands, from the maximum streaming vector
      length `svl` in bytes: `svl` for a Z vector, `svl / 8` for a P
      predicate, `svl * svl` for the ZA matrix. */
  function ExpectedLen(reg: SmeRegister, svl: usize): (n: nat)
    ensures reg == ZReg ==> n == svl
    ensures reg == PReg ==> 8 * n <= svl < 8 * n + 8
    ensures reg == ZaReg ==> n == svl * svl
  {
    match reg
    case ZReg => svl
    case PReg => svl / 8
    case ZaReg => svl * svl
  }

  /** The backend's register transfer: the status it answers to a call
      carrying a buffer of the given length. */
  type SmeBackend = usize -> i32

  /** `get_sme_z_reg`, `get_sme_p_reg`, `get_sme_za_reg`: query the maximum
      SVL (`maxSvl`), and call the backend only with a buffer of exactly the
      expected length. */
  function GetSmeReg(reg: SmeRegister, maxSvl: Result<usize>, bufLen: usize, backend: SmeBackend): (r: Result<()>)
    ensures maxSvl.Err? ==> r == Err(maxSvl.error)
    ensures maxSvl.Ok? && bufLen != ExpectedLen(reg, maxSvl.value) ==> r == Err(BadArgument)
    ensures maxSvl.Ok? && bufLen == ExpectedLen(reg, maxSvl.value) ==> r == HvCall(backend(bufLen))
  {
    match maxSvl
    case Err(e) => Err(e)
    case Ok(svl) =>
      var size := ExpectedLen(reg, svl);
      if bufLen != size then Err(BadArgument) else HvCall(backend(size))
  }

  /** `set_sme_z_reg`, `set_sme_p_reg`, `set_sme_za_reg`: no local check,
      the buffer's own length goes to the backend. */
  function SetSmeReg(reg: SmeRegister, bufLen: usize, backend: SmeBackend): (r: Result<()>)
    ensures r.Ok? <==> backend(bufLen) == HV_SUCCESS
    ensures r.Err? ==> r.error == FromCode(backend(bufLen))
  {
    HvCall(backend(bufLen))
  }

  /** A getter rejects a wrong-sized buffer whatever the backend would say,
      while the setter leaves every length to the backend: with a backend
      that accepts everything, a wrong-sized buffer fails on the getter and
      succeeds on the setter. */
  lemma SmeGetterChecksSetterDoesNot(reg: SmeRegister, svl: usize, bufLen: usize, backend: SmeBackend)
    requires bufLen != ExpectedLen(reg, svl)
    ensures forall other: SmeBackend :: GetSmeReg(reg, Ok(svl), bufLen, other) == GetSmeReg(reg, Ok(svl), bufLen, backend)
    ensures GetSmeReg(reg, Ok(svl), bufLen, backend) == Err(BadArgument)
    ensures SetSmeReg(reg, bufLen, backend).Ok? <==> backend(bufLen) == HV_SUCCESS
  {
  }
}
