# applevisor: resource lifetime and guest memory, in Dafny

applevisor is a safe Rust wrapper around Apple's Hypervisor framework. This
project models its resource-lifetime layer and its guest-memory layer:

- the mapping between backend status codes and `HypervisorError`, and the
  `hv_unsafe_call!` macro that turns a status into a `Result` (`Errors`, `Hv`);
- the reference counting that keeps the process's single virtual machine
  alive while any `VirtualMachineInstance`, `Vcpu` or `Memory` holds it, and
  destroys it when the last instance is dropped (`Lifetime`, `Vm`);
- the `VcpuHandle` weak references and the `vcpus_exit` filter (`Vcpu`, `Vm`);
- the optional process-wide static VM instance (`Vm.StaticSlot`);
- `MemPerms`, host allocation sizing, and the `Memory` object: mapping,
  unmapping, protection, bounds-checked reads and writes, and the
  little-endian fixed-width helpers (`Memory`);
- the length checks of the SME register getters (`Vcpu`).

The Hypervisor framework itself cannot be modelled. Each backend call is an
oracle instead: a status parameter, or a function from the call's arguments
to a status (`MemBackend`, `SmeBackend`, the `vcpus_exit` backend). The
framework's process-global rule is the one exception: at most one VM exists,
and `hv_vm_create` is busy while one is live. That rule is
`Lifetime.Hypervisor`. Each `Arc<()>` is a `Lifetime.Token` object holding its
strong count. Everything is modelled sequentially.

Files:

- `prims.dfy`: machine integer ranges and `Option`.
- `sys.dfy`: the backend's constants (applevisor-sys).
- `error.dfy`, `hv.dfy`, `lifetime.dfy`, `memory.dfy`, `vcpu.dfy`, `vm.dfy`:
  the model.
- `scenarios.dfy`: client call sequences. `SingleThreadVms`,
  `MappingLifecycle`, `WriteThenRead`, `OutOfBounds` and
  `HandleOutlivesVcpu` follow the crate's unit tests at their cited lines,
  with what those tests expect stated as postconditions. The other five are
  not crate tests: `MemoryOutlivesVmAsWritten`, `MemoryOutlivesVm`,
  `VcpuOutlivesVmAsWritten` and `ExecMappedAsWritten` show the behaviour
  behind the two findings below and its correction, and
  `TakeRefOutlivesVcpu` shows a held `take_ref` reference across a vCPU's
  drop.

The holder counts are exact along each scenario's sequence of calls, and
rules such as "an instance's drop does not destroy the VM while a `Memory`
or `Vcpu` still holds it" follow from those counts per sequence. The model
keeps no set of holders, so it does not state that rule for arbitrary
objects.

When a `Memory` or `Vcpu` holds the last VM reference, the model uses the
corrected release (see Findings). The as-written release is kept beside it.

## Model

| member | source | states |
|---|---|---|
| Errors.FromCode | src/error.rs:66-81 | a code is carried by `Unknown` exactly when it is none of the nine known codes, and then verbatim; never `LayoutError` |
| Errors.ToCode | src/error.rs:90-107 | every variant other than `Unknown` converts to one of the nine known codes |
| Errors.AsStr | src/error.rs:48-63 | every variant has a non-empty description |
| Errors.KnownCodesDecode | src/error.rs:66-81 | each known code decodes to its own variant; every other code, success (0) included, decodes to `Unknown` of itself |
| Errors.CodeRoundTrip | src/error.rs:66-107 | any status converted to an error and back is the original status |
| Errors.ErrorRoundTrip | src/error.rs:90-107 | an error survives the trip through its code iff it is neither `LayoutError` nor an `Unknown` carrying a known code; `LayoutError` comes back as `Error` |
| Errors.AsStrDistinguishesKinds | src/error.rs:48-63 | errors of different kinds have different descriptions |
| Errors.AsStrIgnoresCode | src/error.rs:58 | every `Unknown` has the same description, whatever code it carries |
| Hv.HvCall | src/lib.rs:20-27 | `Ok` iff the status is success; an error is never `Unknown(0)` or `LayoutError`, and its code is the original status |
| Hv.HvCallDecodes | src/lib.rs:25 | every failing status yields `Err` of its decoded error |
| Hv.MemAddrOf | src/lib.rs:54-56 | the address for a counter value (`counter * PAGE_SIZE`) is page-aligned, and at least a page for any counter from 1 |
| Hv.MemAddrOfIncreasing | src/lib.rs:54-56 | counter values from 1 up give non-zero, page-aligned, strictly increasing addresses at least a page apart |
| Hv.AllocCounter.NextMemAddr | src/lib.rs:51-56 | the counter advances by one, wrapping; the result is counter × page size, absent (the overflow panic) iff that exceeds a `u64`; issued addresses stay distinct, ordered, non-zero and aligned |
| Lifetime.Upgrade | src/vcpu.rs:136-138 | a new strong reference exactly when the count is positive, which then grows by one |
| Lifetime.DropStrong | src/vcpu.rs:143-155 | dropping a plain `Arc` lowers its count by one |
| Lifetime.Hypervisor.CreateVm | src/vm.rs:175-181 | creation is busy while a VM is live; otherwise it answers the backend's status, and success makes the VM live |
| Lifetime.Hypervisor.DestroyVm | src/vm.rs:298-301 | destruction leaves no VM live and is counted once; the status the source discards is not modelled |
| Lifetime.ReleaseVmRef | src/vm.rs:292-303 | the count drops by one; the VM is destroyed, exactly once, iff this was the last holder; the VM is live iff holders remain |
| Lifetime.ReleaseVmRefAsWritten | src/memory.rs:174-190 | the count drops by one and the backend is untouched, even when this was the last holder |
| Memory.ToFlags | src/memory.rs:80-93 | a permission's flag value uses only the three permission bits |
| Memory.FromFlags | src/memory.rs:65-78 | any permission other than `None` decoded from a value encodes back to exactly that value |
| Memory.Union | src/memory.rs:57-63 | the flags of a union are the bitwise or of the operands' flags |
| Memory.Display | src/memory.rs:41-55 | three characters: `r`, `w` and `x` in fixed positions, each present iff its flag bit is set, `-` otherwise |
| Memory.Discriminant | src/memory.rs:20-39 | `perms as u64` is the declaration index, below 8 |
| Memory.FlagsRoundTrip | src/memory.rs:65-93 | every permission survives the trip through its flag value |
| Memory.FromFlagsNone | src/memory.rs:65-78 | a value decodes to `None` iff it is not one of the seven non-empty flag combinations |
| Memory.UnionLaws | src/memory.rs:57-63 | union is commutative, associative and idempotent with identity `None`, and gives the combinations the tests expect (src/memory.rs:379-385) |
| Memory.DiscriminantMisencodes | src/memory.rs:192-229 | the discriminant agrees with the flags except for `Exec` and `ReadWrite`, which decode as each other: the discriminant of each is the other's flag value |
| Memory.AllocSize | src/memory.rs:131-144 | success iff the rounded size fits a `usize`; the result is a page multiple in [size, size + page); overflow gives `BadArgument` |
| Memory.AllocSizeExamples | src/memory.rs:397-407 | the oversized request of the tests is `BadArgument`; the largest aligned size, 0, 1 and one page round as expected |
| Memory.NewMemAlloc | src/memory.rs:131-144 | size overflow gives `BadArgument` without a backend call; otherwise success iff the allocator succeeds, with a fresh zeroed buffer of the rounded size, and its error otherwise |
| Memory.AccessOffset | src/memory.rs:232-248 | unmapped gives `Error`; otherwise success iff the access lies in the mapping with neither end overflowing a `u64`, with offset `addr - start`; every other failure is `BadArgument` |
| Memory.Splice | src/memory.rs:292-321 | a write keeps the buffer's length |
| Memory.SpliceFrame | src/memory.rs:310-319 | after a write the span holds the data and every byte outside it is unchanged |
| Memory.LeBytes | src/memory.rs:328-341 | `to_le_bytes`: exactly `n` bytes, whose little-endian value is the input (`Memory.FromLeBytes`) |
| Memory.FromLe | src/memory.rs:271-289 | `from_le_bytes`: a value below 256^n for `n` bytes, whose encoding gives the bytes back (`Memory.LeBytesFromLe`) |
| Memory.FromLeBytes | src/memory.rs:264-341 | decoding the little-endian bytes of a value gives the value back |
| Memory.LeBytesFromLe | src/memory.rs:264-341 | encoding the value of a byte sequence gives the bytes back |
| Memory.WriteThenReadLe | src/memory.rs:264-341 | a value written in place and read back from the same span is the value |
| Memory.Memory.constructor | src/vm.rs:437-445 | a new memory object is unmapped and wraps the given allocation and VM reference |
| Memory.Memory.Size | src/memory.rs:354-356 | the size is the allocation's length, a page multiple |
| Memory.Memory.GuestAddr | src/memory.rs:349-351 | the current mapping address |
| Memory.Memory.Map | src/memory.rs:192-207 | an already-mapped object gives `Busy` and is unchanged; otherwise the backend maps the whole allocation with the permission's flags, and only success records the address (flags corrected, see Findings) |
| Memory.Memory.Unmap | src/memory.rs:210-217 | unmapped gives `Error`; otherwise the backend unmaps the recorded range, and the object is unmapped afterwards whatever the backend answers |
| Memory.Memory.Protect | src/memory.rs:219-229 | unmapped gives `Error`; otherwise the backend reprotects the mapped range with the permission's flags (corrected, see Findings); the mapping is never changed |
| Memory.Memory.MapAsWritten | src/memory.rs:192-207 | as written: the same busy check and address bookkeeping, but the backend is asked to map with the permission's enum discriminant as flags |
| Memory.Memory.ProtectAsWritten | src/memory.rs:219-229 | as written: unmapped gives `Error`; otherwise the backend reprotects with the permission's enum discriminant as flags |
| Memory.Memory.ReadInto | src/memory.rs:232-261 | a failed bounds check returns its error and leaves the buffer alone; otherwise the buffer holds the host bytes at the access offset |
| Memory.Memory.WriteFrom | src/memory.rs:292-321 | a failed bounds check returns its error and leaves the host alone; otherwise the host is the old host with the data spliced in at the access offset |
| Memory.Memory.ReadLe | src/memory.rs:232-290 | the little-endian value of the bytes at the access offset, below 256^width, or the bounds error |
| Memory.Memory.ReadU8 | src/memory.rs:264-268 | the byte at the access offset, or the bounds error |
| Memory.Memory.ReadU16 | src/memory.rs:271-275 | the little-endian value of the two bytes at the access offset, or the bounds error |
| Memory.Memory.ReadU32 | src/memory.rs:278-282 | the little-endian value of the four bytes at the access offset, or the bounds error |
| Memory.Memory.ReadU64 | src/memory.rs:285-289 | the little-endian value of the eight bytes at the access offset, or the bounds error |
| Memory.Memory.WriteLe | src/memory.rs:292-341 | the value's little-endian bytes spliced in at the access offset, or the bounds error with the host unchanged |
| Memory.Memory.WriteU8 | src/memory.rs:324-326 | the byte spliced in at the access offset, or the bounds error with the host unchanged |
| Memory.Memory.WriteU16 | src/memory.rs:329-331 | two little-endian bytes spliced in at the access offset, or the bounds error with the host unchanged |
| Memory.Memory.WriteU32 | src/memory.rs:334-336 | four little-endian bytes spliced in at the access offset, or the bounds error with the host unchanged |
| Memory.Memory.WriteU64 | src/memory.rs:339-341 | eight little-endian bytes spliced in at the access offset, or the bounds error with the host unchanged |
| Memory.Memory.Drop | src/memory.rs:183-190 | the object ends unmapped; its VM reference is released, destroying the VM iff it was the last holder |
| Memory.Memory.DropAsWritten | src/memory.rs:183-190 | the object ends unmapped; the VM reference is decremented and the backend untouched |
| Vcpu.TakeRef | src/vcpu.rs:136-138 | a strong reference iff the handle is valid, and the handle then stays valid |
| Vcpu.Vcpu.constructor | src/vm.rs:337-349 | a new vCPU has its id, the given VM reference and a fresh own token with one holder |
| Vcpu.Vcpu.GetHandle | src/vcpu.rs:175-180 | the handle has the vCPU's id and refers to the vCPU's own token |
| Vcpu.Vcpu.Drop | src/vcpu.rs:157-162 | the outcome is destruction on success, otherwise a panic with the decoded error; both references are released, and the VM is destroyed iff this was its last holder; the `DropOutcome` value stands for the `expect` at src/vcpu.rs:159-160; afterwards the vCPU's handle is valid iff a `take_ref` reference was outstanding (src/vcpu.rs:127-129) |
| Vcpu.Vcpu.DropAsWritten | src/vcpu.rs:143-162 | same outcome and the same handle validity afterwards, but the VM reference is only decremented and the backend is untouched |
| Vcpu.VcpuHandle.Id | src/vcpu.rs:122-124 | the id of the vCPU the handle was taken from |
| Vcpu.VcpuHandle.IsValid | src/vcpu.rs:127-129 | true iff the vCPU's token still has a strong holder |
| Vcpu.Vcpu.Id | src/vcpu.rs:166-168 | the backend's id of the vCPU |
| Vcpu.ExpectedLen | src/vcpu.rs:320-400 | the getter's expected length: the maximum SVL for a Z vector, its eighth rounded down for a P predicate, its square for ZA |
| Vcpu.GetSmeReg | src/vcpu.rs:319-405 | an SVL query error is returned; a buffer whose length is not the expected one gives `BadArgument`; otherwise the backend's answer |
| Vcpu.SetSmeReg | src/vcpu.rs:338-345 | no local check: success iff the backend accepts the buffer's length, otherwise the error its status decodes to (also the P and ZA setters at src/vcpu.rs:378-385 and 416-422) |
| Vcpu.SmeGetterChecksSetterDoesNot | src/vcpu.rs:319-420 | a wrong-sized buffer gives `BadArgument` on a getter whatever the backend does, while the setter succeeds iff the backend accepts its length |
| Vm.VmInstance.Clone | src/vm.rs:285-289 | the clone shares the token, whose count grows by one |
| Vm.VmInstance.Drop | src/vm.rs:292-303 | the guard is taken; the count drops by one, and the VM is destroyed, once, iff this was the last holder |
| Vm.VmInstance.IntoNoGic | src/vm.rs:451-459 | a GIC-less instance on the same token; the consumed one is dropped, so the count and the backend are unchanged |
| Vm.VmInstance.VcpuWithConfig | src/vm.rs:337-349 | success iff the backend creates the vCPU, with a live vCPU holding one more VM reference and a fresh own token; the decoded error otherwise, with the count unchanged |
| Vm.VmInstance.VcpuCreate | src/vm.rs:319-321 | as `VcpuWithConfig`, with the default configuration |
| Vm.VmInstance.MemoryCreate | src/vm.rs:437-445 | allocation errors are passed through unchanged; success gives an unmapped, zeroed object of the rounded size holding one more VM reference |
| Vm.VmInstance.VcpusExit | src/vm.rs:403-418 | the backend is asked to stop exactly `LiveIds` of the handles, and its answer is returned; every handle's count is restored |
| Vm.TakeRefs | src/vm.rs:404-413 | the ids kept are `LiveIds` of the handles at entry, in order; each token gains exactly one holder per reference kept |
| Vm.DropRefs | src/vm.rs:403-418 | dropping the kept references takes each token's count back down by the number kept |
| Vm.LiveIds | src/vm.rs:406-413 | the ids of the handles whose `take_ref` succeeds, in order; never more than the handles (one per live handle by `Vm.LiveIdsExact`) |
| Vm.LiveIdsAppend | src/vm.rs:406-413 | the live ids of two runs of handles are those of the first followed by those of the second, so input order is kept |
| Vm.LiveIdsExact | src/vm.rs:403-418 | the ids passed are one per live handle, each of a live handle, every live handle's id included, and none when all handles are dead |
| Vm.WithConfig | src/vm.rs:205-213 | busy while a VM is live; otherwise success iff the backend creates it, giving the sole holder of a fresh token; the decoded error otherwise |
| Vm.New | src/vm.rs:175-181 | as `WithConfig`, without a configuration |
| Vm.WithGic | src/vm.rs:251-264 | a GIC failure drops the temporary instance, which destroys the VM exactly once; success gives a GIC instance that is the sole holder of a fresh token |
| Vm.Selected | src/vm.rs:648-688 | `get` finds a handle for either variant; `get_gic` only for the `Gic` variant |
| Vm.StaticSlot.constructor | src/vm.rs:462-469 | the static slot starts empty |
| Vm.StaticSlot.InitWithConfig | src/vm.rs:566-585 | a set slot gives `Ok` and nothing changes; otherwise the VM is created and stored as `NoGic` on success, and the slot stays empty on failure |
| Vm.StaticSlot.Init | src/vm.rs:527-546 | as `InitWithConfig`, with the default configuration |
| Vm.StaticSlot.InitWithGic | src/vm.rs:610-629 | as `InitWithConfig` through `with_gic`, stored as `Gic` |
| Vm.StaticSlot.Get | src/vm.rs:648-657 | a GIC-less clone iff a VM is stored, one more holder |
| Vm.StaticSlot.GetGic | src/vm.rs:683-688 | a GIC clone iff a `Gic` VM is stored, one more holder |
| Scenarios.SingleThreadVms | src/vm.rs:904-927 | the second and fourth creations are busy; after every instance is dropped, creation succeeds again |
| Scenarios.MappingLifecycle | src/memory.rs:418-457 | operations on the unmapped object fail with `Error`; remapping is busy; a second unmap fails |
| Scenarios.WriteThenRead | src/memory.rs:461-488 | a `u64` written at an offset reads back unchanged |
| Scenarios.OutOfBounds | src/memory.rs:492-539 | accesses one byte before the mapping, one byte past its end, and whose end overflows, all give `BadArgument` |
| Scenarios.MemoryOutlivesVmAsWritten | src/memory.rs:183-190 | as written, a `Memory` that outlives every VM instance leaves the VM live with no holder, and creation is busy |
| Scenarios.MemoryOutlivesVm | src/vm.rs:292-303 | with the corrected release, the same sequence destroys the VM and creation succeeds |
| Scenarios.VcpuOutlivesVmAsWritten | src/vcpu.rs:157-162 | as written, a `Vcpu` that outlives every VM instance leaves the VM live with no holder, and creation is busy |
| Scenarios.HandleOutlivesVcpu | src/vcpu.rs:747-791 | a handle is valid before its vCPU's drop and invalid after it |
| Scenarios.TakeRefOutlivesVcpu | src/vcpu.rs:131-138 | a `take_ref` reference keeps the handle valid across the vCPU's drop, and the handle is invalid once that reference is released |
| Scenarios.ExecMappedAsWritten | src/memory.rs:192-229 | as written, mapping execute-only memory asks the backend for a read-write mapping, and protecting it read-write asks for execute-only |

## Left out

- Only the `macos-12-1` allocator path of `MemAlloc::new` (`hv_vm_allocate` with checked rounding) is modelled. The `std::alloc` path is left out, since it is an alternative build configuration. The `LayoutError` variant is still kept, so that the error conversions are total over it.
- `MemAlloc`'s drop (`hv_vm_deallocate`, whose status is ignored) and `host_addr` are left out: raw host pointers have no counterpart in the model. The test that writes through the host pointer becomes a write and a read through the guest accessors (`Scenarios.WriteThenRead`).
- The double-checked locking of `init`, `init_with_config` and `init_with_gic` is left out. The model runs sequentially, so the check made under the lock always sees what the first check saw, and it is modelled as a single check. Threads, `Barrier`s and the multi-threaded tests are left out for the same reason.
- `vm_static_instance_reset` exists only for tests and is left out. Each scenario starts either with no VM live or from a given live instance.
- Vm.VmInstance.VcpusExit: the `ids.len() as u32` truncation is not modelled. A slice of 2^32 handles or more cannot exist in practice.
- Vcpu.ExpectedLen: the ZA size `svl * svl` is computed without `usize` overflow. Maximum SVL values are small.
- Only strong counts are modelled. Weak counts, which only decide when an `Arc` allocation is freed, have no observable effect here.
- Vcpu.GetSmeReg and Vcpu.SetSmeReg: the Z, P and ZA accessors share one function, with the register file as a parameter. The register index and the buffer contents are left out; only the lengths matter to the checks.
- `VirtualMachineConfig`, `VcpuConfig` and `GicConfig` are opaque values. Their accessors, the register accessors (`get_reg`, `set_reg`, system, SIMD and SME state registers), `run`, `get_exit_info`, interrupts and `src/gic.rs` are plain forwarding calls into the backend and are left out.
- The `Display` and `Debug` formatting of `HypervisorError` is left out. It formats `Errors.AsStr` and `Errors.ToCode`, and both of those are modelled.
- Lifetime.Hypervisor.DestroyVm: a failed `hv_vm_destroy` is not modelled. Its only caller discards the status (src/vm.rs:298-301), so the model takes destruction to succeed.
- Hv.AllocCounter.NextMemAddr: the counter is a relaxed atomic in the source, but it is modelled as a plain field, because the model runs sequentially.

## Findings

| source | as written | input that shows it | evidently intended | confidence | as-written member | corrected member |
|---|---|---|---|---|---|---|
| src/memory.rs:202, src/memory.rs:226 | `map` and `protect` pass `perms as u64`, the enum's declaration index, instead of the flag value defined at src/memory.rs:80-93 | `map(addr, MemPerms::Exec)` passes 3 (read + write); `MemPerms::ReadWrite` passes 4 (execute) | pass `u64::from(perms)`, the flag encoding | high, not executed | Memory.Memory.MapAsWritten | Memory.Memory.Map |
| src/memory.rs:174-190, src/vcpu.rs:143-162 | the VM reference of a `Memory` or `Vcpu` is a plain `Arc` whose drop never destroys the VM; only `VirtualMachineInstance`'s drop does, and only when it is the last holder | `let vm = VirtualMachine::new()?; let mem = vm.memory_create(PAGE_SIZE)?; drop(vm); drop(mem); VirtualMachine::new()` gives `Busy`, because the VM was never destroyed | the last holder of the VM reference, whatever object holds it, destroys the VM | medium, not executed | Scenarios.MemoryOutlivesVmAsWritten | Scenarios.MemoryOutlivesVm |

For the first finding, `Memory.Memory.MapAsWritten` and
`Memory.Memory.ProtectAsWritten` issue the backend call as the source does,
with `Memory.Discriminant` as flags. The lemma
`Memory.DiscriminantMisencodes` exhibits the two permissions whose
discriminant is the other's flag value, and `Scenarios.ExecMappedAsWritten`
shows the resulting calls: an execute-only mapping is requested read-write,
and a read-write protection execute-only. `Memory.Memory.Map` and
`Memory.Memory.Protect` use `Memory.ToFlags`, and `Memory.FlagsRoundTrip`
proves that encoding is faithful.

For the second finding, `Lifetime.ReleaseVmRefAsWritten`,
`Memory.Memory.DropAsWritten` and `Vcpu.Vcpu.DropAsWritten` model the
source's release. `Lifetime.ReleaseVmRef` is the release that
`VirtualMachineInstance`'s drop performs in the source (src/vm.rs:292-303),
and `Vm.VmInstance.Drop` uses it as written; `Memory.Memory.Drop` and
`Vcpu.Vcpu.Drop` use it as the corrected release. It
keeps `Lifetime.Hypervisor.Valid`, which says the VM is live exactly while
its token has a holder.
