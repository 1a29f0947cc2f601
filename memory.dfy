/** Guest memory objects (src/memory.rs): the permission algebra, host
    allocation sizing, and `Memory`, a host buffer that can be mapped into the
    guest at one address at a time and read and written through bounds-checked
    guest addresses. */
module Memory {
  import opened Prims
  import opened Sys
  import opened Errors
  import opened Hv
  import opened Lifetime

  // ---------------------------------------------------------------------------
  // Permissions
  // ---------------------------------------------------------------------------

  /** `MemPerms`, in declaration order. */
  datatype MemPerms = None | Read | Write | Exec | ReadWrite | ReadExec | WriteExec | ReadWriteExec

  /** `From<MemPerms> for u64`: the backend's flag encoding. */
  function ToFlags(p: MemPerms): (f: bv64)
    ensures f & !7 == 0
  {
    match p
    case None => HV_MEMORY_NONE
    case Read => HV_MEMORY_READ
    case Write => HV_MEMORY_WRITE
    case Exec => HV_MEMORY_EXEC
    case ReadWrite => HV_MEMORY_READ | HV_MEMORY_WRITE
    case ReadExec => HV_MEMORY_READ | HV_MEMORY_EXEC
    case WriteExec => HV_MEMORY_WRITE | HV_MEMORY_EXEC
    case ReadWriteExec => HV_MEMORY_READ | HV_MEMORY_WRITE | HV_MEMORY_EXEC
  }

  /** `From<u64> for MemPerms`: the seven non-empty flag combinations name
      their permission; every other value, extra bits included, is `None`. */
  function FromFlags(f: bv64): (p: MemPerms)
    ensures p != MemPerms.None ==> ToFlags(p) == f
  {
    if f == HV_MEMORY_READ then Read
    else if f == HV_MEMORY_WRITE then Write
    else if f == HV_MEMORY_EXEC then Exec
    else if f == HV_MEMORY_READ | HV_MEMORY_WRITE then ReadWrite
    else if f == HV_MEMORY_READ | HV_MEMORY_EXEC then ReadExec
    else if f == HV_MEMORY_WRITE | HV_MEMORY_EXEC then WriteExec
    else if f == HV_MEMORY_READ | HV_MEMORY_WRITE | HV_MEMORY_EXEC then ReadWriteExec
    else MemPerms.None
  }

  /** `BitOr for MemPerms`: the union of the two permission sets. */
  function Union(a: MemPerms, b: MemPerms): (c: MemPerms)
    ensures ToFlags(c) == ToFlags(a) | ToFlags(b)
  {
    FromFlags(ToFlags(a) | ToFlags(b))
  }

  /** `Display for MemPerms`: `r`, `w` and `x` in fixed positions, `-` for a
      permission that is absent. */
  function Display(p: MemPerms): (s: string)
    ensures |s| == 3
    ensures s[0] == (if ToFlags(p) & HV_MEMORY_READ != 0 then 'r' else '-')
    ensures s[1] == (if ToFlags(p) & HV_MEMORY_WRITE != 0 then 'w' else '-')
    ensures s[2] == (if ToFlags(p) & HV_MEMORY_EXEC != 0 then 'x' else '-')
  {
    match p
    case None => "---"
    case Read => "r--"
    case Write => "-w-"
    case Exec => "--x"
    case ReadWrite => "rw-"
    case ReadExec => "r-x"
    case WriteExec => "-wx"
    case ReadWriteExec => "rwx"
  }

  /** `perms as u64`: the discriminant of the permission, which is what
      `map` and `protect` hand to the backend in the source. */
  function Discriminant(p: MemPerms): (d: bv64)
    ensures d < 8
  {
    match p
    case None => 0
    case Read => 1
    case Write => 2
    case Exec => 3
    case ReadWrite => 4
    case ReadExec => 5
    case WriteExec => 6
    case ReadWriteExec => 7
  }

  /** Every permission survives the trip through its flag value. */
  lemma FlagsRoundTrip(p: MemPerms)
    ensures FromFlags(ToFlags(p)) == p
  {
  }

  /** A flag value decodes to `None` exactly when it is not one of the seven
      non-empty combinations of the three permission bits. */
  lemma FromFlagsNone(f: bv64)
    ensures FromFlags(f) == MemPerms.None <==> !(1 <= f <= 7)
  {
  }

  /** Union is commutative, associative and idempotent, `None` is its
      identity, and it agrees with the cases the source's tests check. */
  lemma UnionLaws(a: MemPerms, b: MemPerms, c: MemPerms)
    ensures Union(a, b) == Union(b, a)
    ensures Union(Union(a, b), c) == Union(a, Union(b, c))
    ensures Union(a, a) == a
    ensures Union(a, MemPerms.None) == a
    ensures Union(Read, Write) == ReadWrite && Union(Read, Exec) == ReadExec
    ensures Union(Read, WriteExec) == ReadWriteExec && Union(Write, Exec) == WriteExec
    ensures Union(Write, ReadExec) == ReadWriteExec && Union(Exec, ReadWrite) == ReadWriteExec
    ensures Union(ReadWriteExec, MemPerms.None) == ReadWriteExec
  {
    FlagsRoundTrip(a);
    FlagsRoundTrip(b);
    FlagsRoundTrip(c);
    FlagsRoundTrip(Union(a, b));
    FlagsRoundTrip(Union(b, c));
  }

  /** The discriminant agrees with the flag encoding for every permission
      except `Exec` and `ReadWrite`, which it swaps: the source maps an
      execute-only request as read-write and a read-write request as
      execute-only. */
  lemma DiscriminantMisencodes(p: MemPerms)
    ensures Discriminant(p) == ToFlags(p) <==> p != Exec && p != ReadWrite
    ensures FromFlags(Discriminant(Exec)) == ReadWrite
    ensures FromFlags(Discriminant(ReadWrite)) == Exec
    ensures Discriminant(Exec) == ToFlags(ReadWrite) && Discriminant(ReadWrite) == ToFlags(Exec)
  {
  }

  // ---------------------------------------------------------------------------
  // Host allocations
  // ---------------------------------------------------------------------------

  /** The largest page-aligned size a `usize` can hold. */
  const MAX_ALLOC_SIZE: int := U64_LIMIT - PAGE_SIZE

  /** The size `MemAlloc::new` allocates for a request of `size` bytes: the
      next multiple of the page size, or `BadArgument` when rounding up
      overflows a `usize`. */
  function AllocSize(size: usize): (r: Result<usize>)
    ensures r.Ok? <==> size <= MAX_ALLOC_SIZE
    ensures r.Ok? ==> r.value % PAGE_SIZE == 0 && size <= r.value < size + PAGE_SIZE
    ensures r.Err? ==> r.error == BadArgument
  {
    var padded := size + (PAGE_SIZE - size % PAGE_SIZE) % PAGE_SIZE;
    if padded < U64_LIMIT then Ok(padded) else Err(BadArgument)
  }

  /** The request the source's test makes is rejected, while the largest
      page-aligned size is accepted as it is. */
  lemma AllocSizeExamples()
    ensures AllocSize(0xffff_ffff_ffff_fabc) == Err(BadArgument)
    ensures AllocSize(MAX_ALLOC_SIZE) == Ok(MAX_ALLOC_SIZE)
    ensures AllocSize(0) == Ok(0) && AllocSize(1) == Ok(PAGE_SIZE) && AllocSize(PAGE_SIZE) == Ok(PAGE_SIZE)
  {
  }

  /** `MemAlloc::new`: round the size up, then ask the backend's page
      allocator (`hv_vm_allocate`, answering `allocStatus`) for zeroed memory. */
  method NewMemAlloc(size: usize, allocStatus: i32) returns (r: Result<array<u8>>)
    ensures AllocSize(size).Err? ==> r == Err(BadArgument)
    ensures AllocSize(size).Ok? ==> (r.Ok? <==> allocStatus == HV_SUCCESS)
    ensures AllocSize(size).Ok? && r.Err? ==> r.error == FromCode(allocStatus)
    ensures r.Ok? ==> fresh(r.value) && r.value.Length == AllocSize(size).value
    ensures r.Ok? ==> forall i :: 0 <= i < r.value.Length ==> r.value[i] == 0
  {
    var rounded := AllocSize(size);
    if rounded.Err? {
      return Err(rounded.error);
    }
    var call := HvCall(allocStatus);
    if call.Err? {
      return Err(call.error);
    }
    var host := new u8[rounded.value](_ => 0);
    r := Ok(host);
  }

  // ---------------------------------------------------------------------------
  // Guest accesses
  // ---------------------------------------------------------------------------

  /** The bounds check shared by `read` and `write`: the offset into the host
      buffer of an access of `len` bytes at guest address `addr`, for a
      mapping of `size` bytes at `mapped`. An unmapped object gives `Error`;
      an access that starts below the mapping, ends past it, or whose end
      address or the mapping's end address overflows a `u64` gives
      `BadArgument`. */
  function AccessOffset(mapped: Option<u64>, size: usize, addr: u64, len: usize): (r: Result<usize>)
    ensures mapped.None? ==> r == Err(Error)
    ensures mapped.Some? ==> (r.Ok? <==>
      mapped.value <= addr && addr + len <= mapped.value + size && mapped.value + size < U64_LIMIT)
    ensures mapped.Some? && r.Err? ==> r.error == BadArgument
    ensures r.Ok? ==> mapped.Some? && r.value == addr - mapped.value && r.value + len <= size
  {
    match mapped
    case None => Err(Error)
    case Some(start) =>
      if addr < start then Err(BadArgument)
      else if addr + len >= U64_LIMIT then Err(BadArgument)
      else if start + size >= U64_LIMIT then Err(BadArgument)
      else if addr + len > start + size then Err(BadArgument)
      else Ok(addr - start)
  }

  /** `buf` with `data` copied over it at offset `off`. */
  function Splice(buf: seq<u8>, off: nat, data: seq<u8>): (r: seq<u8>)
    requires off + |data| <= |buf|
    ensures |r| == |buf|
  {
    buf[..off] + data + buf[off + |data|..]
  }

  /** After a splice the span holds the data and every other byte is
      unchanged. */
  lemma SpliceFrame(buf: seq<u8>, off: nat, data: seq<u8>)
    requires off + |data| <= |buf|
    ensures Splice(buf, off, data)[off..off + |data|] == data
    ensures forall i :: 0 <= i < |buf| && !(off <= i < off + |data|) ==> Splice(buf, off, data)[i] == buf[i]
  {
  }

  /** `256^n`, the number of values `n` little-endian bytes can hold. */
  function Pow256(n: nat): (p: nat)
    ensures p >= 1
  {
    if n == 0 then 1 else 256 * Pow256(n - 1)
  }

  /** `to_le_bytes`: the `n` little-endian bytes of `v`. */
  function LeBytes(v: nat, n: nat): (bs: seq<u8>)
    requires v < Pow256(n)
    ensures |bs| == n
  {
    if n == 0 then [] else [v % 256] + LeBytes(v / 256, n - 1)
  }

  /** `from_le_bytes`: the value of little-endian bytes. */
  function FromLe(bs: seq<u8>): (v: nat)
    ensures v < Pow256(|bs|)
  {
    if bs == [] then 0 else bs[0] + 256 * FromLe(bs[1..])
  }

  /** Decoding the encoding of a value gives the value back. */
  lemma {:induction false} FromLeBytes(v: nat, n: nat)
    requires v < Pow256(n)
    ensures FromLe(LeBytes(v, n)) == v
  {
    if n > 0 {
      FromLeBytes(v / 256, n - 1);
      assert LeBytes(v, n)[1..] == LeBytes(v / 256, n - 1);
    }
  }

  /** Encoding the value of some bytes gives the bytes back. */
  lemma {:induction false} LeBytesFromLe(bs: seq<u8>)
    ensures LeBytes(FromLe(bs), |bs|) == bs
  {
    if bs != [] {
      LeBytesFromLe(bs[1..]);
      var v := FromLe(bs);
      assert v % 256 == bs[0] && v / 256 == FromLe(bs[1..]);
    }
  }

  /** A fixed-width value written into a buffer reads back unchanged. */
  lemma WriteThenReadLe(buf: seq<u8>, off: nat, v: nat, n: nat)
    requires v < Pow256(n) && off + n <= |buf|
    ensures FromLe(Splice(buf, off, LeBytes(v, n))[off..off + n]) == v
  {
    SpliceFrame(buf, off, LeBytes(v, n));
    FromLeBytes(v, n);
  }

  // ---------------------------------------------------------------------------
  // Memory objects
  // ---------------------------------------------------------------------------

  /** A backend call that `Memory` issues. */
  datatype MemCall =
    | VmMap(guest: u64, size: usize, flags: bv64)
    | VmUnmap(guest: u64, size: usize)
    | VmProtect(guest: u64, size: usize, flags: bv64)

  /** The backend's memory calls: the status it answers to each call. */
  type MemBackend = MemCall -> i32

  /** `Memory`: a host allocation (`host`, its length the allocation size),
      the guest address it is mapped at if any, and a strong reference to the
      VM token. No permission is recorded. */
  class Memory {
    const host: array<u8>
    var guestAddr: Option<u64>
    const vmGuard: Token

    /** The allocation size is page-aligned and fits a `usize`. */
    ghost predicate Valid() {
      host.Length < U64_LIMIT && host.Length % PAGE_SIZE == 0
    }

    /** The object `memory_create` builds around a fresh allocation. */
    constructor (host: array<u8>, vmGuard: Token)
      requires host.Length < U64_LIMIT && host.Length % PAGE_SIZE == 0
      ensures Valid() && this.host == host && this.vmGuard == vmGuard && guestAddr == Option.None
    {
      this.host := host;
      this.vmGuard := vmGuard;
      this.guestAddr := Option.None;
    }

    /** `size`: the allocation size. */
    function Size(): (n: usize)
      requires Valid()
      ensures n == host.Length && n % PAGE_SIZE == 0
    {
      host.Length
    }

    /** The bounds check of an access of `len` bytes at `addr` against the
        current mapping. */
    function Access(addr: u64, len: usize): (r: Result<usize>)
      requires Valid()
      reads this
    {
      AccessOffset(guestAddr, Size(), addr, len)
    }

    /** `guest_addr`. */
    function GuestAddr(): (a: Option<u64>)
      reads this
      ensures a == guestAddr
    {
      guestAddr
    }

    /** `map`: busy when already mapped; otherwise the backend maps the whole
        allocation with the flag encoding of `perms`, and only its success
        records the guest address. */
    method Map(addr: u64, perms: MemPerms, backend: MemBackend) returns (r: Result<()>)
      requires Valid()
      modifies this
      ensures Valid()
      ensures old(guestAddr).Some? ==> r == Err(Busy) && guestAddr == old(guestAddr)
      ensures old(guestAddr).None? ==> r == HvCall(backend(VmMap(addr, Size(), ToFlags(perms))))
      ensures old(guestAddr).None? ==> guestAddr == if r.Ok? then Some(addr) else Option.None
    {
      if guestAddr.Some? {
        return Err(Busy);
      }
      r := HvCall(backend(VmMap(addr, Size(), ToFlags(perms))));
      if r.Ok? {
        guestAddr := Some(addr);
      }
    }

    /** `unmap`: `Error` when unmapped; otherwise the guest address is taken
        before the backend is called, so the object is unmapped afterwards
        whatever the backend answers. */
    method Unmap(backend: MemBackend) returns (r: Result<()>)
      requires Valid()
      modifies this
      ensures Valid() && guestAddr == Option.None
      ensures old(guestAddr).None? ==> r == Err(Error)
      ensures old(guestAddr).Some? ==> r == HvCall(backend(VmUnmap(old(guestAddr).value, Size())))
    {
      var taken := guestAddr;
      guestAddr := Option.None;
      if taken.None? {
        return Err(Error);
      }
      r := HvCall(backend(VmUnmap(taken.value, Size())));
    }

    /** `protect`: `Error` when unmapped; otherwise the backend changes the
        permissions of the whole mapping. The guest address never changes. */
    method Protect(perms: MemPerms, backend: MemBackend) returns (r: Result<()>)
      requires Valid()
      ensures old(guestAddr).None? ==> r == Err(Error)
      ensures old(guestAddr).Some? ==> r == HvCall(backend(VmProtect(guestAddr.value, Size(), ToFlags(perms))))
    {
      if guestAddr.None? {
        return Err(Error);
      }
      r := HvCall(backend(VmProtect(guestAddr.value, Size(), ToFlags(perms))));
    }

    /** `map` as the source issues the backend call: the flags are the
        permission's enum discriminant, which swaps execute-only and
        read-write. */
    method MapAsWritten(addr: u64, perms: MemPerms, backend: MemBackend) returns (r: Result<()>)
      requires Valid()
      modifies this
      ensures Valid()
      ensures old(guestAddr).Some? ==> r == Err(Busy) && guestAddr == old(guestAddr)
      ensures old(guestAddr).None? ==> r == HvCall(backend(VmMap(addr, Size(), Discriminant(perms))))
      ensures old(guestAddr).None? ==> guestAddr == if r.Ok? then Some(addr) else Option.None
    {
      if guestAddr.Some? {
        return Err(Busy);
      }
      r := HvCall(backend(VmMap(addr, Size(), Discriminant(perms))));
      if r.Ok? {
        guestAddr := Some(addr);
      }
    }

    /** `protect` as the source issues the backend call, with the
        permission's enum discriminant as its flags. */
    method ProtectAsWritten(perms: MemPerms, backend: MemBackend) returns (r: Result<()>)
      requires Valid()
      ensures old(guestAddr).None? ==> r == Err(Error)
      ensures old(guestAddr).Some? ==> r == HvCall(backend(VmProtect(guestAddr.value, Size(), Discriminant(perms))))
    {
      if guestAddr.None? {
        return Err(Error);
      }
      r := HvCall(backend(VmProtect(guestAddr.value, Size(), Discriminant(perms))));
    }

    /** `read`: copy `data.Length` bytes of the mapping at guest address
        `addr` into `data`, after the bounds check. */
    method ReadInto(addr: u64, data: array<u8>) returns (r: Result<()>)
      requires Valid() && data != host && data.Length < U64_LIMIT
      modifies data
      ensures Access(addr, data.Length).Err? ==>
        r == Err(Access(addr, data.Length).error) && data[..] == old(data[..])
      ensures Access(addr, data.Length).Ok? ==>
        r == Ok(()) && data[..] == host[Access(addr, data.Length).value..Access(addr, data.Length).value + data.Length]
    {
      var check := Access(addr, data.Length);
      if check.Err? {
        return Err(check.error);
      }
      var off := check.value;
      forall i | 0 <= i < data.Length {
        data[i] := host[off + i];
      }
      r := Ok(());
    }

    /** `write`: copy `data` into the mapping at guest address `addr`, after
        the same bounds check as `read`. */
    method WriteFrom(addr: u64, data: seq<u8>) returns (r: Result<()>)
      requires Valid() && |data| < U64_LIMIT
      modifies host
      ensures Access(addr, |data|).Err? ==>
        r == Err(Access(addr, |data|).error) && host[..] == old(host[..])
      ensures Access(addr, |data|).Ok? ==>
        r == Ok(()) && host[..] == Splice(old(host[..]), Access(addr, |data|).value, data)
    {
      var check := Access(addr, |data|);
      if check.Err? {
        return Err(check.error);
      }
      var off := check.value;
      forall i | off <= i < off + |data| {
        host[i] := data[i - off];
      }
      assert host[..] == Splice(old(host[..]), off, data);
      r := Ok(());
    }

    /** The fixed-width reads: `width` little-endian bytes at `addr`. */
    method ReadLe(addr: u64, width: nat) returns (r: Result<nat>)
      requires Valid() && width <= 8
      ensures Access(addr, width).Err? ==>
        r == Err(Access(addr, width).error)
      ensures Access(addr, width).Ok? ==>
        var off := Access(addr, width).value;
        r == Ok(FromLe(host[off..off + width]))
      ensures r.Ok? ==> r.value < Pow256(width)
    {
      var data := new u8[width](_ => 0);
      var read := ReadInto(addr, data);
      if read.Err? {
        return Err(read.error);
      }
      r := Ok(FromLe(data[..]));
    }

    /** `read_u8`. */
    method ReadU8(addr: u64) returns (r: Result<u8>)
      requires Valid()
      ensures Access(addr, 1).Err? ==> r == Err(Access(addr, 1).error)
      ensures Access(addr, 1).Ok? ==>
        r == Ok(host[Access(addr, 1).value])
    {
      var v := ReadLe(addr, 1);
      if v.Err? {
        return Err(v.error);
      }
      ghost var off := Access(addr, 1).value;
      assert host[off..off + 1] == [host[off]];
      r := Ok(v.value);
    }

    /** `read_u16`. */
    method ReadU16(addr: u64) returns (r: Result<u16>)
      requires Valid()
      ensures Access(addr, 2).Err? ==> r == Err(Access(addr, 2).error)
      ensures Access(addr, 2).Ok? ==>
        var off := Access(addr, 2).value;
        r == Ok(FromLe(host[off..off + 2]))
    {
      var v := ReadLe(addr, 2);
      if v.Err? {
        return Err(v.error);
      }
      r := Ok(v.value);
    }

    /** `read_u32`. */
    method ReadU32(addr: u64) returns (r: Result<u32>)
      requires Valid()
      ensures Access(addr, 4).Err? ==> r == Err(Access(addr, 4).error)
      ensures Access(addr, 4).Ok? ==>
        var off := Access(addr, 4).value;
        r == Ok(FromLe(host[off..off + 4]))
    {
      var v := ReadLe(addr, 4);
      if v.Err? {
        return Err(v.error);
      }
      r := Ok(v.value);
    }

    /** `read_u64`. */
    method ReadU64(addr: u64) returns (r: Result<u64>)
      requires Valid()
      ensures Access(addr, 8).Err? ==> r == Err(Access(addr, 8).error)
      ensures Access(addr, 8).Ok? ==>
        var off := Access(addr, 8).value;
        r == Ok(FromLe(host[off..off + 8]))
    {
      var v := ReadLe(addr, 8);
      if v.Err? {
        return Err(v.error);
      }
      r := Ok(v.value);
    }

    /** The fixed-width writes: `v` as `width` little-endian bytes at `addr`. */
    method WriteLe(addr: u64, v: nat, width: nat) returns (r: Result<()>)
      requires Valid() && width <= 8 && v < Pow256(width)
      modifies host
      ensures Access(addr, width).Err? ==>
        r == Err(Access(addr, width).error) && host[..] == old(host[..])
      ensures Access(addr, width).Ok? ==>
        r == Ok(()) && host[..] == Splice(old(host[..]), Access(addr, width).value, LeBytes(v, width))
    {
      r := WriteFrom(addr, LeBytes(v, width));
    }

    /** `write_u8`. */
    method WriteU8(addr: u64, v: u8) returns (r: Result<()>)
      requires Valid()
      modifies host
      ensures Access(addr, 1).Err? ==>
        r == Err(Access(addr, 1).error) && host[..] == old(host[..])
      ensures Access(addr, 1).Ok? ==>
        r == Ok(()) && host[..] == Splice(old(host[..]), Access(addr, 1).value, [v])
    {
      r := WriteLe(addr, v, 1);
    }

    /** `write_u16`. */
    method WriteU16(addr: u64, v: u16) returns (r: Result<()>)
      requires Valid()
      modifies host
      ensures Access(addr, 2).Err? ==>
        r == Err(Access(addr, 2).error) && host[..] == old(host[..])
      ensures Access(addr, 2).Ok? ==>
        r == Ok(()) && host[..] == Splice(old(host[..]), Access(addr, 2).value, LeBytes(v, 2))
    {
      r := WriteLe(addr, v, 2);
    }

    /** `write_u32`. */
    method WriteU32(addr: u64, v: u32) returns (r: Result<()>)
      requires Valid()
      modifies host
      ensures Access(addr, 4).Err? ==>
        r == Err(Access(addr, 4).error) && host[..] == old(host[..])
      ensures Access(addr, 4).Ok? ==>
        r == Ok(()) && host[..] == Splice(old(host[..]), Access(addr, 4).value, LeBytes(v, 4))
    {
      r := WriteLe(addr, v, 4);
    }

    /** `write_u64`. */
    method WriteU64(addr: u64, v: u64) returns (r: Result<()>)
      requires Valid()
      modifies host
      ensures Access(addr, 8).Err? ==>
        r == Err(Access(addr, 8).error) && host[..] == old(host[..])
      ensures Access(addr, 8).Ok? ==>
        r == Ok(()) && host[..] == Splice(old(host[..]), Access(addr, 8).value, LeBytes(v, 8))
    {
      r := WriteLe(addr, v, 8);
    }

    /** `Drop for Memory`: unmap, ignoring the result, then release the VM
        reference, destroying the VM when this was its last holder. */
    method Drop(hv: Hypervisor, backend: MemBackend)
      requires Valid() && hv.Valid() && HoldsVm(hv, vmGuard)
      modifies this, hv`vmLive, hv`vmDestroyCalls, vmGuard
      ensures guestAddr == Option.None && hv.Valid()
      ensures vmGuard.strong == old(vmGuard.strong) - 1
      ensures hv.vmLive <==> vmGuard.strong > 0
      ensures hv.vmDestroyCalls == old(hv.vmDestroyCalls) + (if old(vmGuard.strong) == 1 then 1 else 0)
    {
      var _ := Unmap(backend);
      ReleaseVmRef(hv, vmGuard);
    }

    /** `Drop for Memory` as the source releases the VM reference. */
    method DropAsWritten(hv: Hypervisor, backend: MemBackend)
      requires Valid() && HoldsVm(hv, vmGuard)
      modifies this, vmGuard
      ensures guestAddr == Option.None && unchanged(hv)
      ensures vmGuard.strong == old(vmGuard.strong) - 1
    {
      var _ := Unmap(backend);
      ReleaseVmRefAsWritten(hv, vmGuard);
    }
  }
}
