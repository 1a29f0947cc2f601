/** The process's virtual machine (src/vm.rs): creation, the reference-counted
    `VirtualMachineInstance` handles, the resources derived from them, and the
    optional process-wide static instance. All of it is modelled sequentially;
    the backend is `Lifetime.Hypervisor`, and each backend answer that the
    model cannot compute is a parameter. */
module Vm {
  import opened Prims
  import opened Sys
  import opened Errors
  import opened Hv
  import opened Lifetime
  import opened Memory
  import opened Vcpu

  /** An opaque backend configuration object. */
  datatype VmConfig = VmConfig(handle: nat)

  /** `VirtualMachineInstance<Gic>`: `gic` stands for the `GicEnabled`
      marker. `guard` is the `Option<Arc<()>>` that only the drop empties. */
  class VmInstance {
    var guard: Token?
    const gic: bool

    /** The handle is not dropped and holds the live VM. */
    ghost predicate Valid(hv: Hypervisor)
      reads this, hv, guard
    {
      guard != null && HoldsVm(hv, guard)
    }

    constructor (guard: Token, gic: bool)
      ensures this.guard == guard && this.gic == gic
    {
      this.guard := guard;
      this.gic := gic;
    }

    /** `Clone`: a new handle on the same token, one more strong holder. */
    method Clone(hv: Hypervisor) returns (c: VmInstance)
      requires Valid(hv)
      modifies guard
      ensures fresh(c) && c.guard == guard && c.gic == gic
      ensures guard.strong == old(guard.strong) + 1 && Valid(hv) && c.Valid(hv)
    {
      guard.strong := guard.strong + 1;
      c := new VmInstance(guard, gic);
    }

    /** `Drop`: take the token; the last strong holder destroys the VM and
        ignores the status, any other holder only gives up its reference. */
    method Drop(hv: Hypervisor)
      requires hv.Valid() && Valid(hv)
      modifies this, hv`vmLive, hv`vmDestroyCalls, guard
      ensures guard == null && hv.Valid()
      ensures old(guard).strong == old(guard.strong) - 1
      ensures hv.vmLive <==> old(guard).strong > 0
      ensures hv.vmDestroyCalls == old(hv.vmDestroyCalls) + (if old(guard.strong) == 1 then 1 else 0)
    {
      var t := guard;
      guard := null;
      ReleaseVmRef(hv, t);
    }

    /** `From<VirtualMachineInstance<GicEnabled>>`: a GIC-less handle on the
        same token; the consumed handle is dropped, so the count is unchanged. */
    method IntoNoGic(hv: Hypervisor) returns (c: VmInstance)
      requires hv.Valid() && Valid(hv)
      modifies this, hv`vmLive, hv`vmDestroyCalls, guard
      ensures fresh(c) && c.guard == old(guard) && !c.gic && guard == null
      ensures c.guard.strong == old(guard.strong) && c.Valid(hv) && hv.Valid()
      ensures unchanged(hv)
    {
      var t := guard;
      t.strong := t.strong + 1;
      c := new VmInstance(t, false);
      Drop(hv);
    }

    /** `vcpu_with_config`: the backend creates a vCPU (`createStatus`, with
        id `newId` on success); the `Vcpu` holds a strong reference to this
        handle's token and a fresh token of its own. */
    method VcpuWithConfig(hv: Hypervisor, config: Option<nat>, createStatus: i32, newId: u64) returns (r: Result<Vcpu>)
      requires Valid(hv)
      modifies guard
      ensures r.Ok? <==> createStatus == HV_SUCCESS
      ensures r.Err? ==> r.error == FromCode(createStatus) && guard.strong == old(guard.strong)
      ensures r.Ok? ==> fresh(r.value) && fresh(r.value.selfGuard) && r.value.Id() == newId
      ensures r.Ok? ==> r.value.vmGuard == guard && guard.strong == old(guard.strong) + 1
      ensures r.Ok? ==> r.value.Valid(hv) && r.value.selfGuard.strong == 1
      ensures Valid(hv)
    {
      var created := HvCall(createStatus);
      if created.Err? {
        return Err(created.error);
      }
      guard.strong := guard.strong + 1;
      var v := new Vcpu(newId, guard);
      r := Ok(v);
    }

    /** `vcpu_create`: `vcpu_with_config` with the default configuration. */
    method VcpuCreate(hv: Hypervisor, createStatus: i32, newId: u64) returns (r: Result<Vcpu>)
      requires Valid(hv)
      modifies guard
      ensures r.Ok? <==> createStatus == HV_SUCCESS
      ensures r.Err? ==> r.error == FromCode(createStatus) && guard.strong == old(guard.strong)
      ensures r.Ok? ==> fresh(r.value) && fresh(r.value.selfGuard) && r.value.Id() == newId
      ensures r.Ok? ==> r.value.vmGuard == guard && guard.strong == old(guard.strong) + 1
      ensures r.Ok? ==> r.value.Valid(hv) && r.value.selfGuard.strong == 1
      ensures Valid(hv)
    {
      r := VcpuWithConfig(hv, Option.None, createStatus, newId);
    }

    /** `memory_create`: a host allocation of the rounded size, unmapped,
        holding a strong reference to this handle's token. Allocation errors
        are returned unchanged. */
    method MemoryCreate(hv: Hypervisor, size: usize, allocStatus: i32) returns (r: Result<Memory>)
      requires Valid(hv)
      modifies guard
      ensures AllocSize(size).Err? ==> r == Err(BadArgument)
      ensures AllocSize(size).Ok? ==> (r.Ok? <==> allocStatus == HV_SUCCESS)
      ensures AllocSize(size).Ok? && r.Err? ==> r.error == FromCode(allocStatus)
      ensures r.Err? ==> guard.strong == old(guard.strong)
      ensures r.Ok? ==> fresh(r.value) && fresh(r.value.host) && r.value.Valid()
      ensures r.Ok? ==> r.value.guestAddr == Option.None && r.value.Size() == AllocSize(size).value
      ensures r.Ok? ==> forall i :: 0 <= i < r.value.host.Length ==> r.value.host[i] == 0
      ensures r.Ok? ==> r.value.vmGuard == guard && guard.strong == old(guard.strong) + 1
      ensures Valid(hv)
    {
      var alloc := NewMemAlloc(size, allocStatus);
      if alloc.Err? {
        return Err(alloc.error);
      }
      guard.strong := guard.strong + 1;
      var mem := new Memory(alloc.value, guard);
      r := Ok(mem);
    }

    /** `vcpus_exit`: take a strong reference through every handle, keep the
        ids of the vCPUs still alive, in order, ask the backend to make those
        exit, then drop the references again. */
    method VcpusExit(handles: seq<VcpuHandle>, backend: seq<u64> -> i32) returns (r: Result<()>)
      modifies Tokens(handles)
      ensures r == HvCall(backend(old(LiveIds(handles))))
      ensures forall t :: t in Tokens(handles) ==> t.strong == old(t.strong)
    {
      var ids, guards := TakeRefs(handles);
      r := HvCall(backend(ids));
      DropRefs(guards);
    }
  }

  /** The loop of `vcpus_exit`: `take_ref` on each handle in turn, keeping
      the id and the strong reference of each one that succeeds. Each token
      gains one holder per reference kept. */
  method TakeRefs(handles: seq<VcpuHandle>) returns (ids: seq<u64>, guards: seq<Token>)
    modifies Tokens(handles)
    ensures ids == old(LiveIds(handles))
    ensures forall t :: t in guards ==> t in Tokens(handles)
    ensures forall t :: t in Tokens(handles) ==> t.strong == old(t.strong) + multiset(guards)[t]
  {
    ids, guards := [], [];
    var i := 0;
    while i < |handles|
      invariant 0 <= i <= |handles|
      invariant ids == old(LiveIds(handles[..i]))
      invariant forall t :: t in guards ==> t in Tokens(handles) && old(t.strong) > 0
      invariant forall t :: t in Tokens(handles) ==> t.strong == old(t.strong) + multiset(guards)[t]
    {
      var h := handles[i];
      assert old(LiveIds(handles[..i + 1])) == old(LiveIds(handles[..i])) + (if old(h.IsValid()) then [h.Id()] else []) by {
        assert handles[..i + 1][..i] == handles[..i];
      }
      var strong := TakeRef(h);
      if strong.Some? {
        ids := ids + [h.Id()];
        guards := guards + [strong.value];
      }
      i := i + 1;
    }
    assert handles[..i] == handles;
  }

  /** Dropping the strong references `vcpus_exit` kept, when it returns. */
  method DropRefs(guards: seq<Token>)
    requires forall t :: t in guards ==> t.strong >= multiset(guards)[t]
    modifies set t | t in guards
    ensures forall t :: t in guards ==> t.strong == old(t.strong) - multiset(guards)[t]
  {
    var j := 0;
    while j < |guards|
      invariant 0 <= j <= |guards|
      invariant forall t :: t in guards ==> t.strong == old(t.strong) - multiset(guards[..j])[t]
    {
      assert guards[..j + 1] == guards[..j] + [guards[j]];
      assert multiset(guards)[guards[j]] >= multiset(guards[..j + 1])[guards[j]] by {
        assert guards == guards[..j + 1] + guards[j + 1..];
      }
      DropStrong(guards[j]);
      j := j + 1;
    }
    assert guards[..j] == guards;
  }

  /** The tokens a sequence of handles refers to. */
  function Tokens(handles: seq<VcpuHandle>): set<Token> {
    set h | h in handles :: h.guard
  }

  /** The ids of the handles whose vCPU is still alive, in order. */
  function LiveIds(handles: seq<VcpuHandle>): (ids: seq<u64>)
    reads Tokens(handles)
    ensures |ids| <= |handles|
  {
    if handles == [] then []
    else
      var last := handles[|handles| - 1];
      LiveIds(handles[..|handles| - 1]) + (if last.IsValid() then [last.Id()] else [])
  }

  /** The live ids of two runs of handles are those of the first followed by
      those of the second: the filter keeps the input order. */
  lemma {:induction false} LiveIdsAppend(a: seq<VcpuHandle>, b: seq<VcpuHandle>)
    ensures LiveIds(a + b) == LiveIds(a) + LiveIds(b)
    decreases |b|
  {
    if b == [] {
      assert a + b == a;
    } else {
      var b' := b[..|b| - 1];
      assert (a + b)[..|a + b| - 1] == a + b';
      LiveIdsAppend(a, b');
    }
  }

  /** The number of handles whose vCPU is alive. */
  function CountLive(handles: seq<VcpuHandle>): nat
    reads Tokens(handles)
  {
    if handles == [] then 0
    else CountLive(handles[..|handles| - 1]) + (if handles[|handles| - 1].IsValid() then 1 else 0)
  }

  /** The ids passed to the backend are exactly the ids of the live handles:
      one per live handle, each the id of a live handle, none from a dead one. */
  lemma {:induction false} LiveIdsExact(handles: seq<VcpuHandle>)
    ensures |LiveIds(handles)| == CountLive(handles) <= |handles|
    ensures forall id :: id in LiveIds(handles) ==> exists h :: h in handles && h.IsValid() && h.Id() == id
    ensures forall h :: h in handles && h.IsValid() ==> h.Id() in LiveIds(handles)
    ensures (forall h :: h in handles ==> !h.IsValid()) ==> LiveIds(handles) == []
  {
    if handles != [] {
      var init := handles[..|handles| - 1];
      LiveIdsExact(init);
      assert forall h :: h in init ==> h in handles;
      assert forall h :: h in handles ==> h in init || h == handles[|handles| - 1];
    }
  }

  // ---------------------------------------------------------------------------
  // Creation
  // ---------------------------------------------------------------------------

  /** `VirtualMachine::with_config`: the backend creates the VM (busy while
      one is live, otherwise answering `outcome`); success yields the sole
      handle on a fresh token. */
  method WithConfig(hv: Hypervisor, config: Option<VmConfig>, outcome: i32) returns (r: Result<VmInstance>)
    requires hv.Valid()
    modifies hv`vmLive, hv`vmToken
    ensures hv.Valid() && hv.vmDestroyCalls == old(hv.vmDestroyCalls)
    ensures old(hv.vmLive) ==> r == Err(Busy) && hv.vmLive && hv.vmToken == old(hv.vmToken)
    ensures !old(hv.vmLive) ==> (r.Ok? <==> outcome == HV_SUCCESS)
    ensures !old(hv.vmLive) && r.Err? ==> r.error == FromCode(outcome) && !hv.vmLive
    ensures r.Ok? ==> fresh(r.value) && fresh(r.value.guard) && !r.value.gic
    ensures r.Ok? ==> r.value.guard == hv.vmToken && r.value.guard.strong == 1 && r.value.Valid(hv)
  {
    var status := hv.CreateVm(outcome);
    var created := HvCall(status);
    if created.Err? {
      return Err(created.error);
    }
    var t := new Token();
    hv.vmToken := t;
    var vm := new VmInstance(t, false);
    r := Ok(vm);
  }

  /** `VirtualMachine::new`: `with_config` without a configuration. */
  method New(hv: Hypervisor, outcome: i32) returns (r: Result<VmInstance>)
    requires hv.Valid()
    modifies hv`vmLive, hv`vmToken
    ensures hv.Valid() && hv.vmDestroyCalls == old(hv.vmDestroyCalls)
    ensures old(hv.vmLive) ==> r == Err(Busy) && hv.vmLive && hv.vmToken == old(hv.vmToken)
    ensures !old(hv.vmLive) ==> (r.Ok? <==> outcome == HV_SUCCESS)
    ensures !old(hv.vmLive) && r.Err? ==> r.error == FromCode(outcome) && !hv.vmLive
    ensures r.Ok? ==> fresh(r.value) && fresh(r.value.guard) && !r.value.gic
    ensures r.Ok? ==> r.value.guard == hv.vmToken && r.value.guard.strong == 1 && r.value.Valid(hv)
  {
    r := WithConfig(hv, Option.None, outcome);
  }

  /** `VirtualMachine::with_gic`: create the VM through `with_config`, then
      the GIC (`gicStatus`). When the GIC fails, the temporary handle is
      dropped and, being the only one, destroys the VM; on success the
      returned handle is the only holder of the token. */
  method WithGic(hv: Hypervisor, config: VmConfig, outcome: i32, gicStatus: i32) returns (r: Result<VmInstance>)
    requires hv.Valid()
    modifies hv`vmLive, hv`vmToken, hv`vmDestroyCalls
    ensures hv.Valid()
    ensures old(hv.vmLive) ==> r == Err(Busy) && hv.vmLive && hv.vmToken == old(hv.vmToken)
    ensures old(hv.vmLive) ==> hv.vmDestroyCalls == old(hv.vmDestroyCalls)
    ensures !old(hv.vmLive) ==> (r.Ok? <==> outcome == HV_SUCCESS && gicStatus == HV_SUCCESS)
    ensures !old(hv.vmLive) && outcome != HV_SUCCESS ==>
      r == Err(FromCode(outcome)) && !hv.vmLive && hv.vmDestroyCalls == old(hv.vmDestroyCalls)
    ensures !old(hv.vmLive) && outcome == HV_SUCCESS && gicStatus != HV_SUCCESS ==>
      r == Err(FromCode(gicStatus)) && !hv.vmLive && hv.vmDestroyCalls == old(hv.vmDestroyCalls) + 1
    ensures r.Ok? ==> fresh(r.value) && fresh(r.value.guard) && r.value.gic
    ensures r.Ok? ==> r.value.guard == hv.vmToken && r.value.guard.strong == 1 && r.value.Valid(hv)
    ensures r.Ok? ==> hv.vmDestroyCalls == old(hv.vmDestroyCalls)
  {
    var created := WithConfig(hv, Some(config), outcome);
    if created.Err? {
      return Err(created.error);
    }
    var vm := created.value;
    var gic := HvCall(gicStatus);
    if gic.Err? {
      vm.Drop(hv);
      return Err(gic.error);
    }
    var t := vm.guard;
    t.strong := t.strong + 1;
    var withGic := new VmInstance(t, true);
    vm.Drop(hv);
    r := Ok(withGic);
  }

  // ---------------------------------------------------------------------------
  // Static instance
  // ---------------------------------------------------------------------------

  /** `VirtualMachineStaticInstance`. */
  datatype StaticVm = NoGic(vm: VmInstance) | Gic(vm: VmInstance)

  /** The handle `get` (`wantGic` false) or `get_gic` (`wantGic` true) hands
      out a clone of: `get` accepts either variant, `get_gic` only `Gic`. */
  function Selected(slot: Option<StaticVm>, wantGic: bool): (r: Option<VmInstance>)
    ensures r.Some? <==> slot.Some? && (wantGic ==> slot.value.Gic?)
    ensures r.Some? ==> r.value == slot.value.vm
  {
    match slot
    case None => Option.None
    case Some(NoGic(vm)) => if wantGic then Option.None else Some(vm)
    case Some(Gic(vm)) => Some(vm)
  }

  /** The process-wide `OnceLock` holding the static instance. Once set it
      never changes. Initialisation takes a lock and checks the slot again;
      run sequentially, that second check sees what the first saw, so the
      model checks once. */
  class StaticSlot {
    var slot: Option<StaticVm>

    /** The stored handle is live and its variant matches its marker. */
    ghost predicate Valid(hv: Hypervisor)
      reads this, hv, if slot.Some? then {slot.value.vm} else {}, if slot.Some? then {slot.value.vm.guard} else {}
    {
      slot.Some? ==> slot.value.vm.Valid(hv) && slot.value.vm.gic == slot.value.Gic?
    }

    constructor ()
      ensures slot == Option.None
    {
      slot := Option.None;
    }

    /** `init` and `init_with_config`: a set slot is left alone and the call
        succeeds; otherwise a VM is created and stored as `NoGic`. */
    method InitWithConfig(hv: Hypervisor, config: Option<VmConfig>, outcome: i32) returns (r: Result<()>)
      requires hv.Valid() && Valid(hv)
      modifies this, hv`vmLive, hv`vmToken
      ensures hv.Valid() && Valid(hv)
      ensures old(slot).Some? ==> r == Ok(()) && slot == old(slot) && unchanged(hv)
      ensures old(slot).None? && old(hv.vmLive) ==> r == Err(Busy) && slot.None?
      ensures old(slot).None? && !old(hv.vmLive) ==> (r.Ok? <==> outcome == HV_SUCCESS)
      ensures old(slot).None? && r.Err? ==> slot.None?
      ensures old(slot).None? && r.Ok? ==> slot.Some? && slot.value.NoGic? && fresh(slot.value.vm)
    {
      if slot.Some? {
        return Ok(());
      }
      var created := WithConfig(hv, config, outcome);
      if created.Err? {
        return Err(created.error);
      }
      slot := Some(NoGic(created.value));
      r := Ok(());
    }

    /** `init`. */
    method Init(hv: Hypervisor, outcome: i32) returns (r: Result<()>)
      requires hv.Valid() && Valid(hv)
      modifies this, hv`vmLive, hv`vmToken
      ensures hv.Valid() && Valid(hv)
      ensures old(slot).Some? ==> r == Ok(()) && slot == old(slot) && unchanged(hv)
      ensures old(slot).None? && old(hv.vmLive) ==> r == Err(Busy) && slot.None?
      ensures old(slot).None? && !old(hv.vmLive) ==> (r.Ok? <==> outcome == HV_SUCCESS)
      ensures old(slot).None? && r.Err? ==> slot.None?
      ensures old(slot).None? && r.Ok? ==> slot.Some? && slot.value.NoGic? && fresh(slot.value.vm)
    {
      r := InitWithConfig(hv, Option.None, outcome);
    }

    /** `init_with_gic`: like `init`, through `with_gic`, stored as `Gic`. */
    method InitWithGic(hv: Hypervisor, config: VmConfig, outcome: i32, gicStatus: i32) returns (r: Result<()>)
      requires hv.Valid() && Valid(hv)
      modifies this, hv`vmLive, hv`vmToken, hv`vmDestroyCalls
      ensures hv.Valid() && Valid(hv)
      ensures old(slot).Some? ==> r == Ok(()) && slot == old(slot) && unchanged(hv)
      ensures old(slot).None? && old(hv.vmLive) ==> r == Err(Busy) && slot.None?
      ensures old(slot).None? && !old(hv.vmLive) ==> (r.Ok? <==> outcome == HV_SUCCESS && gicStatus == HV_SUCCESS)
      ensures old(slot).None? && r.Err? ==> slot.None?
      ensures old(slot).None? && r.Ok? ==> slot.Some? && slot.value.Gic? && fresh(slot.value.vm)
    {
      if slot.Some? {
        return Ok(());
      }
      var created := WithGic(hv, config, outcome, gicStatus);
      if created.Err? {
        return Err(created.error);
      }
      slot := Some(Gic(created.value));
      r := Ok(());
    }

    /** `get`: a GIC-less clone of the stored handle, whichever variant is
        stored. */
    method Get(hv: Hypervisor) returns (r: Option<VmInstance>)
      requires hv.Valid() && Valid(hv)
      modifies hv.vmToken, hv`vmLive, hv`vmDestroyCalls
      ensures hv.Valid() && Valid(hv) && hv.vmLive == old(hv.vmLive)
      ensures hv.vmDestroyCalls == old(hv.vmDestroyCalls)
      ensures r.Some? <==> Selected(slot, false).Some?
      ensures r.Some? ==> fresh(r.value) && !r.value.gic && r.value.guard == hv.vmToken && r.value.Valid(hv)
      ensures r.Some? ==> hv.vmToken.strong == old(hv.vmToken.strong) + 1
      ensures hv.vmToken == old(hv.vmToken)
      ensures r.None? && hv.vmToken != null ==> hv.vmToken.strong == old(hv.vmToken.strong)
    {
      match slot
      case None =>
        r := Option.None;
      case Some(NoGic(vm)) =>
        var c := vm.Clone(hv);
        r := Some(c);
      case Some(Gic(vm)) =>
        var c := vm.Clone(hv);
        var plain := c.IntoNoGic(hv);
        r := Some(plain);
    }

    /** `get_gic`: a clone of the stored handle, only if it has a GIC. */
    method GetGic(hv: Hypervisor) returns (r: Option<VmInstance>)
      requires hv.Valid() && Valid(hv)
      modifies hv.vmToken
      ensures hv.Valid() && Valid(hv)
      ensures r.Some? <==> Selected(slot, true).Some?
      ensures r.Some? ==> fresh(r.value) && r.value.gic && r.value.guard == hv.vmToken && r.value.Valid(hv)
      ensures r.Some? ==> hv.vmToken.strong == old(hv.vmToken.strong) + 1
      ensures hv.vmToken == old(hv.vmToken)
      ensures r.None? && hv.vmToken != null ==> hv.vmToken.strong == old(hv.vmToken.strong)
    {
      match slot
      case Some(Gic(vm)) =>
        var c := vm.Clone(hv);
        r := Some(c);
      case _ =>
        r := Option.None;
    }
  }
}
