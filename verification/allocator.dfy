/**
 * The kernel's global bump allocator: a fixed 100 KiB arena starting at a
 * base address chosen once at boot. Allocation rounds the cursor up to the
 * requested alignment and advances it; deallocation reclaims nothing.
 *
 * Addresses are modelled as `nat`; a null pointer is `None`.
 */
module Allocator {

  /** Capacity of the arena in bytes (100 KiB). */
  const HeapSize: nat := 100 * 1024

  /** The allocator's two statics: the arena base and the cursor offset from it. */
  datatype Heap = Heap(start: nat, offset: nat)

  datatype Option<T> = None | Some(value: T)

  /** The heap after a call to `alloc`, and the pointer the call returned. */
  datatype AllocResult = AllocResult(heap: Heap, ptr: Option<nat>)

  /** One `Layout` handed to `alloc`: a byte count and an alignment. */
  datatype Request = Request(size: nat, align: nat)

  /** The cursor never runs past the end of the arena. */
  predicate Valid(h: Heap) {
    h.offset <= HeapSize
  }

  predicate IsPowerOfTwo(n: nat)
    decreases n
  {
    if n <= 1 then n == 1 else n % 2 == 0 && IsPowerOfTwo(n / 2)
  }

  lemma MulAtLeast(d: int, t: int)
    requires d >= 1 && t >= 1
    ensures d * t >= d
  {}

  lemma MulMonotone(d: nat, x: int, y: int)
    requires x <= y
    ensures d * x <= d * y
  {
    assert d * y - d * x == d * (y - x);
  }

  /** Division by `d` is unique: any `d * q + r` with `0 <= r < d` splits as `q` and `r`. */
  lemma DivModUnique(x: int, d: int, q: int, r: int)
    requires d >= 1 && 0 <= r < d && x == d * q + r
    ensures x / d == q && x % d == r
  {
    var t := q - x / d;
    assert d * t == x % d - r;
    if t >= 1 { MulAtLeast(d, t); assert false; }
    if t <= -1 { MulAtLeast(d, -t); assert false; }
  }

  /**
   * Rounds `addr` up to the next multiple of `align`. The source computes it
   * with the mask `(addr + align - 1) & !(align - 1)`, which equals this
   * ceiling division exactly when `align` is a power of two.
   */
  function AlignUp(addr: nat, align: nat): (r: nat)
    requires IsPowerOfTwo(align)
    ensures r % align == 0
    ensures addr <= r < addr + align
  {
    var q := (addr + align - 1) / align;
    DivModUnique(q * align, align, q, 0);
    q * align
  }

  /** `AlignUp` is the least multiple of `align` that is not below `addr`. */
  lemma AlignUpIsLeast(addr: nat, align: nat, m: nat)
    requires IsPowerOfTwo(align)
    requires m % align == 0 && addr <= m
    ensures AlignUp(addr, align) <= m
  {
    var r := AlignUp(addr, align);
    var a, b := m / align, r / align;
    DivModUnique(m, align, a, 0);
    DivModUnique(r, align, b, 0);
    if a < b {
      // then r - m == align * (b - a) >= align, yet r < addr + align <= m + align
      MulAtLeast(align, b - a);
      assert false;
    }
    MulMonotone(align, b, a);
  }

  /** `init_heap`: place the arena at `base` with an empty cursor. */
  function InitHeap(base: nat): (r: Heap)
    ensures Valid(r)
    ensures r.start == base && r.offset == 0
  {
    Heap(base, 0)
  }

  /**
   * `alloc`: round the cursor up to `align`, reserve `size` bytes, and fail
   * with a null pointer when the reservation would cross the end of the arena.
   */
  function Alloc(h: Heap, size: nat, align: nat): (r: AllocResult)
    requires IsPowerOfTwo(align)
    ensures r.heap.start == h.start
    ensures r.heap.offset >= h.offset
    ensures Valid(h) ==> Valid(r.heap)
    ensures r.ptr.None? <==> AlignUp(h.start + h.offset, align) + size - h.start > HeapSize
    ensures r.ptr.None? ==> r.heap == h
    ensures r.ptr.Some? ==>
      && r.ptr.value % align == 0
      && h.start + h.offset <= r.ptr.value < h.start + h.offset + align
      && r.ptr.value + size <= h.start + HeapSize
      && r.heap.start + r.heap.offset == r.ptr.value + size
      && Valid(r.heap)
  {
    var alignedOffset := AlignUp(h.start + h.offset, align);
    var newOffset := alignedOffset + size;
    if newOffset - h.start > HeapSize then
      AllocResult(h, None)
    else
      AllocResult(Heap(h.start, newOffset - h.start), Some(alignedOffset))
  }

  /** `dealloc` only logs: the arena is never reclaimed. */
  function Dealloc(h: Heap, ptr: nat, layout: Request): (r: Heap)
    ensures r == h
  {
    h
  }

  predicate ValidRequests(reqs: seq<Request>) {
    forall i :: 0 <= i < |reqs| ==> IsPowerOfTwo(reqs[i].align)
  }

  /** The heap after a sequence of `alloc` calls, and the pointer each call returned. */
  datatype Allocations = Allocations(heap: Heap, ptrs: seq<Option<nat>>)

  /**
   * A sequence of `alloc` calls, each seeing the heap the previous one left:
   * the base is kept and the cursor only advances, never past the arena's end.
   */
  function AllocAll(h: Heap, reqs: seq<Request>): (r: Allocations)
    requires ValidRequests(reqs)
    ensures |r.ptrs| == |reqs|
    ensures r.heap.start == h.start && h.offset <= r.heap.offset
    ensures Valid(h) ==> Valid(r.heap)
    decreases |reqs|
  {
    if |reqs| == 0 then Allocations(h, [])
    else
      var first := Alloc(h, reqs[0].size, reqs[0].align);
      var rest := AllocAll(first.heap, reqs[1..]);
      Allocations(rest.heap, [first.ptr] + rest.ptrs)
  }

  /** Dropping the first request keeps every alignment a power of two. */
  lemma RestValid(reqs: seq<Request>)
    requires |reqs| > 0 && ValidRequests(reqs)
    ensures ValidRequests(reqs[1..])
  {
    forall i | 0 <= i < |reqs[1..]| ensures IsPowerOfTwo(reqs[1..][i].align) {
      assert reqs[1..][i] == reqs[i + 1];
    }
  }

  /**
   * Over any sequence of allocations starting from a valid heap, every
   * returned block is aligned and lies inside the part of the arena consumed
   * by the sequence.
   */
  lemma {:induction false} AllocAllBlocks(h: Heap, reqs: seq<Request>)
    requires Valid(h)
    requires ValidRequests(reqs)
    ensures var h', ptrs := AllocAll(h, reqs).heap, AllocAll(h, reqs).ptrs;
      forall i :: 0 <= i < |ptrs| && ptrs[i].Some? ==>
        && ptrs[i].value % reqs[i].align == 0
        && h.start + h.offset <= ptrs[i].value
        && ptrs[i].value + reqs[i].size <= h'.start + h'.offset
    decreases |reqs|
  {
    if |reqs| > 0 {
      var first := Alloc(h, reqs[0].size, reqs[0].align);
      RestValid(reqs);
      AllocAllBlocks(first.heap, reqs[1..]);
      var rest := AllocAll(first.heap, reqs[1..]);
      var h', ptrs := AllocAll(h, reqs).heap, AllocAll(h, reqs).ptrs;
      assert ptrs == [first.ptr] + rest.ptrs;
      forall i | 0 <= i < |ptrs| && ptrs[i].Some?
        ensures ptrs[i].value % reqs[i].align == 0
        ensures h.start + h.offset <= ptrs[i].value
        ensures ptrs[i].value + reqs[i].size <= h'.start + h'.offset
      {
        if i > 0 {
          assert ptrs[i] == rest.ptrs[i - 1];
          assert reqs[i] == reqs[1..][i - 1];
        }
      }
    }
  }

  /** Blocks are returned in address order without overlap. */
  lemma {:induction false} AllocAllDisjoint(h: Heap, reqs: seq<Request>)
    requires Valid(h)
    requires ValidRequests(reqs)
    ensures var ptrs := AllocAll(h, reqs).ptrs;
      forall i, j :: 0 <= i < j < |ptrs| && ptrs[i].Some? && ptrs[j].Some? ==>
        ptrs[i].value + reqs[i].size <= ptrs[j].value
    decreases |reqs|
  {
    if |reqs| > 0 {
      var first := Alloc(h, reqs[0].size, reqs[0].align);
      RestValid(reqs);
      AllocAllBlocks(first.heap, reqs[1..]);
      AllocAllDisjoint(first.heap, reqs[1..]);
      var rest := AllocAll(first.heap, reqs[1..]);
      var ptrs := AllocAll(h, reqs).ptrs;
      assert ptrs == [first.ptr] + rest.ptrs;
      forall i, j | 0 <= i < j < |ptrs| && ptrs[i].Some? && ptrs[j].Some?
        ensures ptrs[i].value + reqs[i].size <= ptrs[j].value
      {
        assert ptrs[j] == rest.ptrs[j - 1];
        assert reqs[j] == reqs[1..][j - 1];
        if i > 0 {
          assert ptrs[i] == rest.ptrs[i - 1];
          assert reqs[i] == reqs[1..][i - 1];
        }
      }
    }
  }
}
