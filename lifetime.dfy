/** Reference counting behind every handle to the process's virtual machine
    (src/vm.rs), run sequentially.

    A `Token` is one `Arc<()>` allocation: `strong` is its strong count. Every
    `VirtualMachineInstance` clone and every `Vcpu` and `Memory` derived from
    one holds a strong reference to the same token; a `VcpuHandle` holds a
    weak one to its vCPU's own token. `Hypervisor` is the backend's
    process-global state: whether a VM is live and how often it was destroyed. */
module Lifetime {
  import opened Prims
  import opened Sys
  import opened Errors
  import opened Hv

  /** One `Arc<()>` allocation. */
  class Token {
    var strong: nat

    /** `Arc::new(())`. */
    constructor ()
      ensures strong == 1
    {
      strong := 1;
    }
  }

  /** `Weak::upgrade` on a weak reference to `t` (`VcpuHandle::take_ref`):
      a new strong reference exactly when one still exists. */
  method Upgrade(t: Token) returns (r: Option<Token>)
    modifies t
    ensures r.Some? <==> old(t.strong) > 0
    ensures r.Some? ==> r.value == t
    ensures t.strong == if old(t.strong) > 0 then old(t.strong) + 1 else old(t.strong)
  {
    if t.strong > 0 {
      t.strong := t.strong + 1;
      r := Some(t);
    } else {
      r := None;
    }
  }

  /** Dropping a plain strong reference (`drop::<Arc<()>>`). */
  method DropStrong(t: Token)
    requires t.strong > 0
    modifies t
    ensures t.strong == old(t.strong) - 1
  {
    t.strong := t.strong - 1;
  }

  /** The backend's process-global VM state. `vmToken` is the token handed
      out when the live VM was created. */
  class Hypervisor {
    var vmLive: bool
    var vmDestroyCalls: nat
    ghost var vmToken: Token?

    /** At most one VM exists, and it is live exactly while its token has a
        strong holder. */
    ghost predicate Valid()
      reads this, vmToken
    {
      vmLive <==> (vmToken != null && vmToken.strong > 0)
    }

    /** A process in which no VM has been created yet. */
    constructor ()
      ensures Valid() && !vmLive && vmDestroyCalls == 0 && vmToken == null
    {
      vmLive := false;
      vmDestroyCalls := 0;
      vmToken := null;
    }

    /** `hv_vm_create`: busy while a VM is live; otherwise the backend
        answers `outcome` (success or any failure). */
    method CreateVm(outcome: i32) returns (status: i32)
      modifies this`vmLive
      ensures status == if old(vmLive) then HV_BUSY else outcome
      ensures vmLive == (old(vmLive) || outcome == HV_SUCCESS)
    {
      if vmLive {
        status := HV_BUSY;
      } else {
        status := outcome;
        if outcome == HV_SUCCESS {
          vmLive := true;
        }
      }
    }

    /** `hv_vm_destroy`: destroys the VM. Its only caller discards the
        status, so none is modelled. */
    method DestroyVm()
      modifies this`vmLive, this`vmDestroyCalls
      ensures !vmLive && vmDestroyCalls == old(vmDestroyCalls) + 1
    {
      vmLive := false;
      vmDestroyCalls := vmDestroyCalls + 1;
    }
  }

  /** A strong reference to the live VM's token. */
  ghost predicate HoldsVm(hv: Hypervisor, t: Token)
    reads hv, t
  {
    t == hv.vmToken && t.strong > 0
  }

  /** Releasing a strong reference to the VM token the way
      `VirtualMachineInstance`'s drop does: `Arc::into_inner` succeeds only
      for the last holder, which then destroys the VM, ignoring the status. */
  method ReleaseVmRef(hv: Hypervisor, t: Token)
    requires hv.Valid() && HoldsVm(hv, t)
    modifies hv`vmLive, hv`vmDestroyCalls, t
    ensures hv.Valid()
    ensures t.strong == old(t.strong) - 1
    ensures hv.vmLive <==> t.strong > 0
    ensures hv.vmDestroyCalls == old(hv.vmDestroyCalls) + (if old(t.strong) == 1 then 1 else 0)
  {
    t.strong := t.strong - 1;
    if t.strong == 0 {
      hv.DestroyVm();
    }
  }

  /** Releasing a strong reference to the VM token the way the `_guard_vm`
      field of a `Vcpu` or a `Memory` is dropped: a plain decrement that never
      destroys the VM, even when it was the last reference. */
  method ReleaseVmRefAsWritten(hv: Hypervisor, t: Token)
    requires HoldsVm(hv, t)
    modifies t
    ensures t.strong == old(t.strong) - 1
    ensures unchanged(hv)
  {
    DropStrong(t);
  }
}
