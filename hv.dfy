/** Crate-level plumbing (src/lib.rs): the macro that turns a backend status
    into a `Result`, and the counter the tests use to hand out distinct guest
    addresses. */
module Hv {
  import opened Prims
  import opened Sys
  import opened Errors

  /** `hv_unsafe_call!`: the status of one backend call as a `Result`. */
  function HvCall(status: i32): (r: Result<()>)
    ensures r.Ok? <==> status == HV_SUCCESS
    ensures r.Err? ==> r.error != Unknown(HV_SUCCESS) && r.error != LayoutError
    ensures r.Err? ==> ToCode(r.error) == status
  {
    if status == HV_SUCCESS then Ok(()) else Err(FromCode(status))
  }

  /** Every failure the macro reports is the error the status decodes to. */
  lemma HvCallDecodes(status: i32)
    ensures status != HV_SUCCESS ==> HvCall(status) == Err(FromCode(status))
  {
  }

  /** The guest address `next_mem_addr` derives from a counter value. */
  function MemAddrOf(counter: nat): (a: nat)
    ensures a % PAGE_SIZE == 0
    ensures counter > 0 ==> a >= PAGE_SIZE
  {
    counter * PAGE_SIZE
  }

  /** Distinct counter values give distinct, increasing, page-aligned and
      non-zero guest addresses. */
  lemma {:induction false} MemAddrOfIncreasing(a: nat, b: nat)
    requires 1 <= a < b
    ensures 0 < MemAddrOf(a) < MemAddrOf(b)
    ensures MemAddrOf(a) % PAGE_SIZE == 0 && MemAddrOf(b) % PAGE_SIZE == 0
    ensures MemAddrOf(b) - MemAddrOf(a) >= PAGE_SIZE
  {
    assert MemAddrOf(b) - MemAddrOf(a) == (b - a) * PAGE_SIZE;
  }

  /** The `ALLOC_ID` counter behind `next_mem_addr`. `issued` records the
      addresses returned so far. */
  class AllocCounter {
    var next: u64
    ghost var issued: seq<nat>

    /** Issued addresses are non-zero page multiples, strictly increasing, and
        below the address the counter will produce next. */
    ghost predicate Valid()
      reads this
    {
      1 <= next &&
      (forall k :: 0 <= k < |issued| ==> 0 < issued[k] && issued[k] % PAGE_SIZE == 0 && issued[k] < MemAddrOf(next)) &&
      (forall j, k :: 0 <= j < k < |issued| ==> issued[j] < issued[k])
    }

    constructor ()
      ensures Valid() && next == 1 && issued == []
    {
      next := 1;
      issued := [];
    }

    /** `next_mem_addr`: `fetch_add(1)` (wrapping) and a multiplication by the
        page size, which panics in a debug build when it overflows; `None`
        stands for that panic. */
    method NextMemAddr() returns (addr: Option<u64>)
      modifies this
      ensures next == (old(next) + 1) % U64_LIMIT
      ensures addr.Some? <==> MemAddrOf(old(next)) < U64_LIMIT
      ensures addr.Some? ==> addr.value == MemAddrOf(old(next))
      ensures addr.Some? && old(Valid()) ==> Valid() && issued == old(issued) + [addr.value]
    {
      var counter := next;
      next := (next + 1) % U64_LIMIT;
      if counter * PAGE_SIZE < U64_LIMIT {
        addr := Some(counter * PAGE_SIZE);
        issued := issued + [counter * PAGE_SIZE];
      } else {
        addr := None;
      }
    }
  }
}
