/** Client sequences over the model. `SingleThreadVms`, `MappingLifecycle`,
    `WriteThenRead`, `OutOfBounds` and `HandleOutlivesVcpu` follow the
    crate's own unit tests, with successful backend answers, and their
    postconditions state what those tests expect. The others are not crate
    tests: `MemoryOutlivesVmAsWritten`, `MemoryOutlivesVm`,
    `VcpuOutlivesVmAsWritten` and `ExecMappedAsWritten` exhibit the source's
    behaviour behind the two findings and its correction, and
    `TakeRefOutlivesVcpu` the effect of a held `take_ref` reference. Each
    starts either with no VM live or from a given live instance;
    `ExecMappedAsWritten` starts from a given unmapped `Memory` and an
    arbitrary backend. */
module Scenarios {
  import opened Prims
  import opened Sys
  import opened Errors
  import opened Hv
  import opened Lifetime
  import opened Memory
  import opened Vcpu
  import opened Vm

  /** A result with its value dropped, as the tests' `is_ok` and
      `matches!` see it. */
  function Discard<T>(r: Result<T>): Result<()> {
    match r
    case Ok(_) => Ok(())
    case Err(e) => Err(e)
  }

  /** A backend that accepts every memory call. */
  function AcceptAll(c: MemCall): i32 { HV_SUCCESS }

  /** Creating VMs from one thread (src/vm.rs:904-927): a second creation
      is busy while any handle lives, a clone keeps the VM alive after the
      original is dropped, and once every handle is gone a new VM can be
      created. */
  method SingleThreadVms(hv: Hypervisor) returns (vm2: Result<()>, vm4: Result<()>, vm5: Result<()>)
    requires hv.Valid() && !hv.vmLive
    modifies hv, hv.vmToken
    ensures vm2 == Err(Busy) && vm4 == Err(Busy) && vm5 == Ok(())
    ensures hv.vmLive && hv.vmDestroyCalls == old(hv.vmDestroyCalls) + 1
  {
    var vm1 := New(hv, HV_SUCCESS);
    var second := New(hv, HV_SUCCESS);
    vm2 := Discard(second);
    var vm3 := vm1.value.Clone(hv);
    vm1.value.Drop(hv);
    var fourth := New(hv, HV_SUCCESS);
    vm4 := Discard(fourth);
    vm3.Drop(hv);
    var fifth := New(hv, HV_SUCCESS);
    vm5 := Discard(fifth);
  }

  /** Mapping a one-page object (src/memory.rs:418-457): every operation on
      the unmapped object fails with `Error`, mapping records the address,
      remapping is busy, and unmapping twice fails the second time. */
  method MappingLifecycle(hv: Hypervisor, vm: VmInstance, addr: u64)
    returns (size: usize, protect0: Result<()>, read0: Result<()>, write0: Result<()>,
             map1: Result<()>, mapped: Option<u64>, map2: Result<()>,
             protect1: Result<()>, unmap1: Result<()>, unmap2: Result<()>)
    requires vm.Valid(hv)
    modifies vm.guard
    ensures size == PAGE_SIZE
    ensures protect0 == Err(Error) && read0 == Err(Error) && write0 == Err(Error)
    ensures map1 == Ok(()) && mapped == Some(addr) && map2 == Err(Busy)
    ensures protect1 == Ok(()) && unmap1 == Ok(()) && unmap2 == Err(Error)
  {
    AllocSizeExact();
    var created := vm.MemoryCreate(hv, PAGE_SIZE, HV_SUCCESS);
    var mem := created.value;
    size := mem.Size();
    protect0 := mem.Protect(MemPerms.None, AcceptAll);
    var buf := new u8[1](_ => 1);
    read0 := mem.ReadInto(addr, buf);
    write0 := mem.WriteFrom(addr, [1]);
    map1 := mem.Map(addr, ReadWriteExec, AcceptAll);
    mapped := mem.GuestAddr();
    map2 := mem.Map(addr, ReadWriteExec, AcceptAll);
    protect1 := mem.Protect(Read, AcceptAll);
    unmap1 := mem.Unmap(AcceptAll);
    unmap2 := mem.Unmap(AcceptAll);
  }

  /** A page-sized request allocates exactly one page. */
  lemma AllocSizeExact()
    ensures AllocSize(PAGE_SIZE) == Ok(PAGE_SIZE)
  {
  }

  /** A value written through the mapping reads back unchanged
      (src/memory.rs:461-488, both directions going through guest
      accessors here). */
  method WriteThenRead(hv: Hypervisor, vm: VmInstance, addr: u64, value: u64) returns (read: Result<u64>)
    requires vm.Valid(hv) && addr % PAGE_SIZE == 0 && addr + PAGE_SIZE < U64_LIMIT
    modifies vm.guard
    ensures read == Ok(value)
  {
    AllocSizeExact();
    var created := vm.MemoryCreate(hv, PAGE_SIZE, HV_SUCCESS);
    var mem := created.value;
    var _ := mem.Map(addr, ReadWriteExec, AcceptAll);
    ghost var before := mem.host[..];
    var _ := mem.WriteU64(addr + 0x1238, value);
    WriteThenReadLe(before, 0x1238, value, 8);
    read := mem.ReadU64(addr + 0x1238);
  }

  /** Out-of-bounds accesses (src/memory.rs:492-539): one byte before the
      mapping, one byte past its end and at an address whose end overflows
      a `u64` all fail with `BadArgument`, for reads and writes alike. */
  method OutOfBounds(hv: Hypervisor, vm: VmInstance, addr: u64)
    returns (before: Result<()>, after: Result<()>, overflow: Result<()>,
             beforeW: Result<()>, afterW: Result<()>, overflowW: Result<()>)
    requires vm.Valid(hv) && 0 < addr && addr % PAGE_SIZE == 0 && addr + PAGE_SIZE < U64_LIMIT
    modifies vm.guard
    ensures before == Err(BadArgument) && after == Err(BadArgument) && overflow == Err(BadArgument)
    ensures beforeW == Err(BadArgument) && afterW == Err(BadArgument) && overflowW == Err(BadArgument)
  {
    AllocSizeExact();
    var created := vm.MemoryCreate(hv, PAGE_SIZE, HV_SUCCESS);
    var mem := created.value;
    var _ := mem.Map(addr, ReadWriteExec, AcceptAll);
    var data := new u8[0x10](_ => 0);
    before := mem.ReadInto(addr - 1, data);
    after := mem.ReadInto(addr + PAGE_SIZE - 0x10 + 1, data);
    overflow := mem.ReadInto(U64_LIMIT - 1 - 0x10 + 1, data);
    var bytes := data[..];
    beforeW := mem.WriteFrom(addr - 1, bytes);
    afterW := mem.WriteFrom(addr + PAGE_SIZE - 0x10 + 1, bytes);
    overflowW := mem.WriteFrom(U64_LIMIT - 1 - 0x10 + 1, bytes);
  }

  /** The leak of the VM through a memory object, as written: when the
      `Memory` outlives every VM handle, dropping it only decrements the
      count, the VM is never destroyed: it stays live with no holder left, and
      the backend refuses the next creation as busy. */
  method MemoryOutlivesVmAsWritten(hv: Hypervisor) returns (again: Result<()>)
    requires hv.Valid() && !hv.vmLive
    modifies hv, hv.vmToken
    ensures again == Err(Busy) && hv.vmDestroyCalls == old(hv.vmDestroyCalls)
    ensures hv.vmLive && hv.vmToken != null && hv.vmToken.strong == 0 && !hv.Valid()
  {
    var vm := New(hv, HV_SUCCESS);
    var mem := vm.value.MemoryCreate(hv, PAGE_SIZE, HV_SUCCESS);
    vm.value.Drop(hv);
    mem.value.DropAsWritten(hv, AcceptAll);
    var status := hv.CreateVm(HV_SUCCESS);
    again := HvCall(status);
  }

  /** The same sequence with the corrected release: the memory object's
      drop destroys the VM, and the next creation succeeds. */
  method MemoryOutlivesVm(hv: Hypervisor) returns (again: Result<()>)
    requires hv.Valid() && !hv.vmLive
    modifies hv, hv.vmToken
    ensures again == Ok(()) && hv.vmLive && hv.vmDestroyCalls == old(hv.vmDestroyCalls) + 1
  {
    var vm := New(hv, HV_SUCCESS);
    var mem := vm.value.MemoryCreate(hv, PAGE_SIZE, HV_SUCCESS);
    vm.value.Drop(hv);
    mem.value.Drop(hv, AcceptAll);
    var next := New(hv, HV_SUCCESS);
    again := Discard(next);
  }

  /** The leak through a vCPU, as written: the vCPU holds the last reference
      and its drop does not destroy the VM. */
  method VcpuOutlivesVmAsWritten(hv: Hypervisor) returns (again: Result<()>)
    requires hv.Valid() && !hv.vmLive
    modifies hv, hv.vmToken
    ensures again == Err(Busy) && hv.vmDestroyCalls == old(hv.vmDestroyCalls)
    ensures hv.vmLive && hv.vmToken != null && hv.vmToken.strong == 0 && !hv.Valid()
  {
    var vm := New(hv, HV_SUCCESS);
    var vcpu := vm.value.VcpuCreate(hv, HV_SUCCESS, 0);
    vm.value.Drop(hv);
    var _ := vcpu.value.DropAsWritten(hv, HV_SUCCESS);
    var status := hv.CreateVm(HV_SUCCESS);
    again := HvCall(status);
  }

  /** Mapping execute-only memory as the source encodes the flags: the
      backend is asked for a read-write mapping, and protecting it
      read-write afterwards asks for execute-only. */
  method ExecMappedAsWritten(mem: Memory, addr: u64, backend: MemBackend) returns (mapped: Result<()>, protected: Result<()>)
    requires mem.Valid() && mem.guestAddr.None?
    modifies mem
    ensures mapped == HvCall(backend(VmMap(addr, mem.Size(), ToFlags(ReadWrite))))
    ensures mapped.Ok? ==> protected == HvCall(backend(VmProtect(addr, mem.Size(), ToFlags(Exec))))
    ensures mapped.Err? ==> protected == Err(Error)
  {
    DiscriminantMisencodes(Exec);
    mapped := mem.MapAsWritten(addr, Exec, backend);
    protected := mem.ProtectAsWritten(ReadWrite, backend);
  }

  /** A `take_ref` reference keeps a handle valid across its vCPU's drop,
      and the handle turns invalid once that reference is released. */
  method TakeRefOutlivesVcpu(hv: Hypervisor, vm: VmInstance) returns (taken: bool, during: bool, after: bool)
    requires hv.Valid() && vm.Valid(hv)
    modifies hv`vmLive, hv`vmDestroyCalls, vm.guard
    ensures taken && during && !after
  {
    var vcpu := vm.VcpuCreate(hv, HV_SUCCESS, 7);
    var h := vcpu.value.GetHandle();
    var r := TakeRef(h);
    taken := r.Some?;
    var _ := vcpu.value.Drop(hv, HV_SUCCESS);
    during := h.IsValid();
    DropStrong(r.value);
    after := h.IsValid();
  }

  /** A handle taken from a vCPU is valid while the vCPU lives and invalid
      once it is dropped (src/vcpu.rs, `VcpuHandle`). */
  method HandleOutlivesVcpu(hv: Hypervisor, vm: VmInstance) returns (before: bool, after: bool)
    requires hv.Valid() && vm.Valid(hv)
    modifies hv`vmLive, hv`vmDestroyCalls, vm.guard
    ensures before && !after
  {
    var vcpu := vm.VcpuCreate(hv, HV_SUCCESS, 7);
    var h := vcpu.value.GetHandle();
    before := h.IsValid();
    var _ := vcpu.value.Drop(hv, HV_SUCCESS);
    after := h.IsValid();
  }
}
