/** LinearAlloc: a bump allocator over a caller-supplied byte buffer. Blocks are handed out
    at increasing offsets from a single `top` cursor; only the topmost block can be freed
    or grown in place. */
module Linear {
  import opened Arena

  // ----- Specification: the allocator's operations as functions on Arena values -----

  /** The start offset alloc picks: the remainder of the absolute address of `top` modulo
      `align` is ADDED to it. This is not a round-up to the next multiple of `align`, so the
      block is never placed below `top` but need not be aligned. */
  function AlignedStart(a: Arena, align: nat): (s: nat)
    requires align > 0
    ensures a.top <= s < a.top + align
    ensures a.base + s == (a.base + a.top) + (a.base + a.top) % align
  {
    a.top + (a.base + a.top) % align
  }

  /** alloc: fails when the buffer is full (even for a zero-size request) or the block does
      not fit; otherwise the block starts at or above `top`, and `top` moves to its end. */
  function AllocStep(a: Arena, layout: Layout): (r: (Arena, Result<nat, AllocErr>))
    requires a.Valid() && layout.Valid()
    ensures r.0.Valid() && r.0.SameBuffer(a)
    ensures a.top == a.capacity ==> r.1 == Err(AllocErr)
    ensures r.1.Ok? <==> a.top < a.capacity
                         && AlignedStart(a, layout.align) < a.capacity
                         && AlignedStart(a, layout.align) + layout.size <= a.capacity
    ensures r.1.Ok? ==> var s := r.1.value;
                        s == AlignedStart(a, layout.align) && a.top <= s
                        && r.0.top == s + layout.size <= a.capacity
                        && r.0.high >= a.high && r.0.high >= r.0.top
                        && (r.0.high == a.high || r.0.high == r.0.top)
    ensures r.1.Err? ==> r.0 == a
  {
    if a.top == a.capacity then (a, Err(AllocErr))
    else AllocAt(a, AlignedStart(a, layout.align), layout.size)
  }

  /** The conditions grow_in_place asserts on entry: the pointer is one of this allocator's
      live blocks, is aligned for the layout, the block fits below `top`, and the new size
      is non-zero and not smaller. */
  predicate GrowInPlaceAsserts(a: Arena, offset: nat, layout: Layout, newSize: nat)
    requires layout.align > 0
  {
    offset < a.capacity && offset < a.top
    && (a.base + offset) % layout.align == 0
    && layout.size <= a.top - offset
    && newSize >= layout.size && newSize != 0
  }

  /** grow_in_place: succeeds exactly when the block is topmost and the free space covers the
      growth; then only `top` moves, by the growth. The high-water mark is NOT raised. */
  function GrowStep(a: Arena, offset: nat, layout: Layout, newSize: nat)
    : (r: (Arena, Result<(), CannotReallocInPlace>))
    requires a.Valid() && layout.Valid()
    requires GrowInPlaceAsserts(a, offset, layout, newSize)
    ensures r.0.Valid() && r.0.SameBuffer(a) && r.0.high == a.high
    ensures r.1.Ok? <==> a.capacity - a.top >= newSize - layout.size
                         && offset + layout.size == a.top
    ensures r.1.Ok? ==> r.0.top == a.top + (newSize - layout.size) == offset + newSize
    ensures r.1.Err? ==> r.0 == a
  {
    if a.capacity - a.top < newSize - layout.size then (a, Err(CannotReallocInPlace))
    else if offset + layout.size != a.top then (a, Err(CannotReallocInPlace))
    else (a.(top := a.top + (newSize - layout.size)), Ok(()))
  }

  // ----- The allocator object -----

  class LinearAlloc {
    const base: nat       // address of the first byte of the borrowed buffer
    const capacity: nat   // buf.len()
    var top: nat
    var high: nat

    predicate Valid()
      reads this
    {
      Abs().Valid()
    }

    function Abs(): Arena
      reads this
    {
      Arena(base, capacity, top, high)
    }

    /** new: an empty allocator over the buffer at `base` of `capacity` bytes. */
    constructor (base: nat, capacity: nat)
      requires capacity <= ISIZE_MAX && base + capacity <= USIZE_MOD
      ensures Valid()
      ensures Abs() == Arena(base, capacity, 0, 0)
    {
      this.base := base;
      this.capacity := capacity;
      top := 0;
      high := 0;
    }

    method Reset()
      requires Valid()
      modifies this
      ensures Valid()
      ensures Abs() == ResetStep(old(Abs()))
    {
      top := 0;
    }

    method ResetTo(marker: Marker) returns (r: Result<(), InvalidMarker>)
      requires Valid()
      modifies this
      ensures Valid()
      ensures Abs() == ResetToStep(old(Abs()), marker).0
      ensures r == ResetToStep(old(Abs()), marker).1
    {
      if marker.offset < capacity && marker.offset < top {
        top := marker.offset;
        r := Ok(());
      } else {
        r := Err(InvalidMarker);
      }
    }

    /** get_marker: a marker that reset_to accepts exactly while `top` is above it. */
    function GetMarker(): (m: Marker)
      reads this
      requires Valid()
      ensures ResetToStep(Abs(), m).1.Err?
      ensures forall t :: m.offset < t <= capacity ==>
                ResetToStep(Abs().(top := t), m).0.top == top
    {
      Marker(top)
    }

    /** bytes_in_use: never more than the capacity. */
    function BytesInUse(): (n: nat)
      reads this
      requires Valid()
      ensures n <= Capacity()
    {
      top
    }

    function Capacity(): nat
      reads this
    {
      capacity
    }

    function HighWaterMark(): nat
      reads this
    {
      high
    }

    method Alloc(layout: Layout) returns (r: Result<nat, AllocErr>)
      requires Valid() && layout.Valid()
      modifies this
      ensures Valid()
      ensures Abs() == AllocStep(old(Abs()), layout).0
      ensures r == AllocStep(old(Abs()), layout).1
    {
      if top == capacity {
        return Err(AllocErr);
      }
      var blockIdx := WrappingStartIndex(Abs(), layout.align);
      if blockIdx + layout.size < USIZE_MOD
         && blockIdx < capacity && blockIdx + layout.size <= capacity
      {
        top := blockIdx + layout.size;
        if high < top {
          high := top;
        }
        r := Ok(blockIdx);
      } else {
        r := Err(AllocErr);
      }
    }

    method Dealloc(offset: nat, layout: Layout)
      requires Valid()
      modifies this
      ensures Valid()
      ensures Abs() == DeallocStep(old(Abs()), offset, layout.size)
    {
      var blockIdx := offset;
      if blockIdx + layout.size == top {
        top := blockIdx;
      }
    }

    method GrowInPlace(offset: nat, layout: Layout, newSize: nat)
      returns (r: Result<(), CannotReallocInPlace>)
      requires Valid() && layout.Valid()
      requires GrowInPlaceAsserts(Abs(), offset, layout, newSize)
      modifies this
      ensures Valid()
      ensures Abs() == GrowStep(old(Abs()), offset, layout, newSize).0
      ensures r == GrowStep(old(Abs()), offset, layout, newSize).1
    {
      var blockIdx := offset;
      var blockSize := top - blockIdx;
      var spaceLeft := Capacity() - BytesInUse();
      var blockGrowth := newSize - layout.size;
      if spaceLeft < blockGrowth {
        return Err(CannotReallocInPlace);
      }
      if blockIdx + layout.size != top {
        return Err(CannotReallocInPlace);
      }
      top := top + blockGrowth;
      r := Ok(());
    }

    /** shrink_in_place is not supported: it always refuses. */
    method ShrinkInPlace(offset: nat, layout: Layout, newSize: nat)
      returns (r: Result<(), CannotReallocInPlace>)
      ensures r.Err?
    {
      r := Err(CannotReallocInPlace);
    }
  }

  /** The start index as alloc computes it, in usize arithmetic: the address of `top`, plus
      its remainder modulo the alignment, minus the buffer's address, all wrapping modulo
      2^64. The buffer's bounds keep every intermediate value in range, so the wrapped
      index is the unbounded AlignedStart. */
  function WrappingStartIndex(a: Arena, align: nat): (idx: nat)
    requires a.Valid() && a.top < a.capacity && 0 < align <= ALIGN_MAX
    ensures idx == AlignedStart(a, align)
  {
    var blockBase := a.base + a.top;
    var rem := blockBase % align;
    WrappedIndex(a.base, a.top, rem);
    ((blockBase + rem) % USIZE_MOD - a.base) % USIZE_MOD
  }

  lemma WrappedIndex(base: nat, top: nat, rem: nat)
    requires base + top < USIZE_MOD && top < ISIZE_MAX && rem < ALIGN_MAX
    ensures ((base + top + rem) % USIZE_MOD - base) % USIZE_MOD == top + rem
  {
    var x := base + top + rem;
    if x < USIZE_MOD {
      assert x % USIZE_MOD == x;
    } else {
      assert x % USIZE_MOD == x - USIZE_MOD;
      var y := x - USIZE_MOD - base;
      assert 0 <= y + USIZE_MOD && y < 0;
      assert y % USIZE_MOD == y + USIZE_MOD;
    }
  }

  // ----- Sequences of operations -----

  /** One operation; None when grow_in_place's assertions fail (the program panics). */
  function Apply(a: Arena, op: Op): (r: Option<Arena>)
    requires a.Valid() && op.WellFormed()
    ensures r.Some? ==> r.value.Valid() && r.value.SameBuffer(a) && r.value.high >= a.high
  {
    match op
    case AllocOp(l) => Some(AllocStep(a, l).0)
    case DeallocOp(off, l) => Some(DeallocStep(a, off, l.size))
    case GrowInPlaceOp(off, l, n) =>
      if GrowInPlaceAsserts(a, off, l, n) then Some(GrowStep(a, off, l, n).0) else None
    case ShrinkInPlaceOp => Some(a)
    case ResetOp => Some(ResetStep(a))
    case ResetToOp(m) => Some(ResetToStep(a, m).0)
  }

  /** Runs the operations in order, stopping at a panic. */
  function Run(a: Arena, ops: seq<Op>): Arena
    requires a.Valid()
    requires forall i :: 0 <= i < |ops| ==> ops[i].WellFormed()
    decreases |ops|
  {
    if ops == [] then a
    else match Apply(a, ops[0]) {
      case None => a
      case Some(a1) => if a1.Valid() then Run(a1, ops[1..]) else a
    }
  }

  /** No sequence of operations lowers the high-water mark, moves the buffer, or pushes
      `top` past the capacity. */
  lemma {:induction false} RunKeepsHighWaterMark(a: Arena, ops: seq<Op>)
    requires a.Valid()
    requires forall i :: 0 <= i < |ops| ==> ops[i].WellFormed()
    ensures Run(a, ops).Valid() && Run(a, ops).SameBuffer(a)
    ensures Run(a, ops).high >= a.high
    decreases |ops|
  {
    if ops != [] {
      match Apply(a, ops[0]) {
        case None =>
        case Some(a1) => RunKeepsHighWaterMark(a1, ops[1..]);
      }
    }
  }

  // ----- Freeing in reverse order -----

  /** The total of a list of sizes. */
  function Sum(sizes: seq<nat>): nat
    decreases |sizes|
  {
    if sizes == [] then 0 else sizes[0] + Sum(sizes[1..])
  }

  /** Allocates the sizes one after another with byte alignment (so without padding);
      None as soon as one request fails. On success the bytes in use have grown by exactly
      the total of the sizes. */
  function AllocBytes(a: Arena, sizes: seq<nat>): (r: Option<(Arena, seq<Block>)>)
    requires a.Valid()
    requires forall i :: 0 <= i < |sizes| ==> sizes[i] < USIZE_MOD
    ensures r.Some? ==> r.value.0.Valid() && r.value.0.SameBuffer(a)
                        && |r.value.1| == |sizes|
                        && r.value.0.top == a.top + Sum(sizes)
    decreases |sizes|
  {
    if sizes == [] then Some((a, []))
    else
      var a1 := AllocStep(a, Layout(sizes[0], 1)).0;
      var res := AllocStep(a, Layout(sizes[0], 1)).1;
      if res.Err? then None
      else match AllocBytes(a1, sizes[1..]) {
        case None => None
        case Some(rest) => Some((rest.0, [Block(res.value, sizes[0])] + rest.1))
      }
  }

  /** Frees the blocks last-allocated first. */
  function FreeInReverse(a: Arena, blocks: seq<Block>): (r: Arena)
    requires a.Valid()
    ensures r.Valid() && r.SameBuffer(a)
    decreases |blocks|
  {
    if blocks == [] then a
    else DeallocStep(FreeInReverse(a, blocks[1..]), blocks[0].offset, blocks[0].size)
  }

  /** Byte-aligned blocks are packed: block i starts where the sizes before it end, and is
      exactly as large as requested. */
  lemma {:induction false} AllocBytesPacksBlocks(a: Arena, sizes: seq<nat>)
    requires a.Valid()
    requires forall i :: 0 <= i < |sizes| ==> sizes[i] < USIZE_MOD
    requires AllocBytes(a, sizes).Some?
    ensures forall i :: 0 <= i < |sizes| ==>
              AllocBytes(a, sizes).value.1[i] == Block(a.top + Sum(sizes[..i]), sizes[i])
    decreases |sizes|
  {
    if sizes != [] {
      var a1 := AllocStep(a, Layout(sizes[0], 1)).0;
      assert AlignedStart(a, 1) == a.top;
      AllocBytesPacksBlocks(a1, sizes[1..]);
      var blocks := AllocBytes(a, sizes).value.1;
      forall i | 0 < i < |sizes|
        ensures blocks[i] == Block(a.top + Sum(sizes[..i]), sizes[i])
      {
        assert sizes[..i][1..] == sizes[1..][..i - 1];
      }
    }
  }

  /** With byte-aligned allocations (no padding), freeing every block in the exact opposite
      order makes all the space reusable: `top` is back where it started. */
  lemma {:induction false} FreeInReverseRestoresTop(a: Arena, sizes: seq<nat>)
    requires a.Valid()
    requires forall i :: 0 <= i < |sizes| ==> sizes[i] < USIZE_MOD
    requires AllocBytes(a, sizes).Some?
    ensures FreeInReverse(AllocBytes(a, sizes).value.0, AllocBytes(a, sizes).value.1).top
            == a.top
    decreases |sizes|
  {
    if sizes != [] {
      var a1 := AllocStep(a, Layout(sizes[0], 1)).0;
      var res := AllocStep(a, Layout(sizes[0], 1)).1;
      assert AlignedStart(a, 1) == a.top;
      var blocks := AllocBytes(a1, sizes[1..]).value.1;
      FreeInReverseRestoresTop(a1, sizes[1..]);
      var all := [Block(res.value, sizes[0])] + blocks;
      assert all[1..] == blocks;
    }
  }

  /** With alignment padding, freeing in the exact opposite order does NOT give all the space
      back: dealloc moves `top` to the freed block's own start, above the padding, so the
      block below no longer ends at `top`. Over an 8-aligned buffer a u8 lands at 0 and a
      u16 at 2; freeing the u16 and then the u8 leaves `top` at 2. */
  lemma FreeInReverseAfterPaddingLeaks(base: nat)
    requires base % 8 == 0 && base + 24 <= USIZE_MOD
    ensures AllocStep(Arena(base, 24, 0, 0), Layout(1, 1)).1 == Ok(0)
    ensures AllocStep(Arena(base, 24, 1, 1), Layout(2, 2)).1 == Ok(2)
    ensures AllocStep(Arena(base, 24, 1, 1), Layout(2, 2)).0 == Arena(base, 24, 4, 4)
    ensures FreeInReverse(Arena(base, 24, 4, 4), [Block(0, 1), Block(2, 2)]).top == 2
  {
    SmallAligns();
    Aligned8(base);
    assert AlignedStart(Arena(base, 24, 1, 1), 2) == 2 by { ModShift(base, 1, 2); }
    assert [Block(0, 1), Block(2, 2)][1..] == [Block(2, 2)];
  }

  /** Freeing two blocks in the order they were allocated leaves the first one's bytes in
      use until a reset. */
  lemma FreeInAllocationOrderLeaks(base: nat)
    requires base + 8 <= USIZE_MOD
    ensures var a0 := Arena(base, 8, 0, 0);
            var a1 := AllocStep(a0, Layout(4, 1)).0;
            var a2 := AllocStep(a1, Layout(4, 1)).0;
            AllocStep(a0, Layout(4, 1)).1 == Ok(0) && AllocStep(a1, Layout(4, 1)).1 == Ok(4)
            && DeallocStep(a2, 0, 4).top == 8
            && DeallocStep(DeallocStep(a2, 0, 4), 4, 4).top == 4
  {
    SmallAligns();
    var a1 := AllocStep(Arena(base, 8, 0, 0), Layout(4, 1)).0;
    assert a1 == Arena(base, 8, 4, 4);
  }

  /** The start alloc computes need not be aligned: with one byte in use over an 8-aligned
      buffer, a 4-aligned request is placed at offset 2, an address that is 2 modulo 4. */
  lemma AllocMayMisalign(base: nat)
    requires base % 8 == 0 && base + 24 <= USIZE_MOD
    ensures var r := AllocStep(Arena(base, 24, 1, 1), Layout(4, 4)).1;
            r == Ok(2) && (base + r.value) % 4 == 2
  {
    SmallAligns();
    Aligned8(base);
    assert AlignedStart(Arena(base, 24, 1, 1), 4) == 2 by { ModShift(base, 1, 4); }
    ModShift(base, 2, 4);
  }

  // ----- Scenarios from the documentation and the tests -----
  // Each holds for every buffer address with the stated alignment; the allocator object
  // performs exactly these steps (its methods are specified by the step functions).

  /** The example in the type's documentation, first half, over an 8-aligned 24-byte buffer:
      a u8, a u16 (after one byte of padding), two u32s and a u64 bring the bytes in use to
      1, 4, 12 and 24, and the u64 lands at offset 16. */
  lemma DocExampleAllocs(base: nat)
    requires base % 8 == 0 && base + 24 <= USIZE_MOD
    ensures AllocStep(Arena(base, 24, 0, 0), Layout(1, 1)).0 == Arena(base, 24, 1, 1)
    ensures AllocStep(Arena(base, 24, 1, 1), Layout(2, 2)).0 == Arena(base, 24, 4, 4)
    ensures AllocStep(Arena(base, 24, 4, 4), Layout(8, 4)).0 == Arena(base, 24, 12, 12)
    ensures AllocStep(Arena(base, 24, 12, 12), Layout(8, 8)).1 == Ok(16)
    ensures AllocStep(Arena(base, 24, 12, 12), Layout(8, 8)).0 == Arena(base, 24, 24, 24)
  {
    SmallAligns();
    Aligned8(base);
    assert AlignedStart(Arena(base, 24, 0, 0), 1) == 0;
    assert AlignedStart(Arena(base, 24, 1, 1), 2) == 2 by { ModShift(base, 1, 2); }
    assert AlignedStart(Arena(base, 24, 4, 4), 4) == 4 by { ModShift(base, 4, 4); }
    assert AlignedStart(Arena(base, 24, 12, 12), 8) == 16 by { ModShift(base, 12, 8); }
  }

  /** The example in the type's documentation, second half: freeing the u64 brings the bytes
      in use back to 16 while the high-water mark stays at 24; six u64s do not fit;
      resetting to the marker taken at 4 bytes gives 4, and a reset gives 0. */
  lemma DocExampleRelease(base: nat)
    requires base % 8 == 0 && base + 24 <= USIZE_MOD
    ensures DeallocStep(Arena(base, 24, 24, 24), 16, 8) == Arena(base, 24, 16, 24)
    ensures AllocStep(Arena(base, 24, 16, 24), Layout(48, 8)).1.Err?
    ensures ResetToStep(Arena(base, 24, 16, 24), Marker(4)).0 == Arena(base, 24, 4, 24)
    ensures ResetStep(Arena(base, 24, 4, 24)).top == 0
  {
    SmallAligns();
    assert AlignedStart(Arena(base, 24, 16, 24), 8) == 16 by { ModShift(base, 16, 8); }
  }

  /** check_simple_alloc: over an 8-byte buffer at a 4-aligned address, two u32 allocations
      succeed, at offsets 0 and 4, and the next two fail. */
  lemma CheckSimpleAlloc(base: nat)
    requires base % 4 == 0 && base + 8 <= USIZE_MOD
    ensures var a0 := Arena(base, 8, 0, 0);
            var a1 := AllocStep(a0, Layout(4, 4)).0;
            var a2 := AllocStep(a1, Layout(4, 4)).0;
            var a3 := AllocStep(a2, Layout(4, 4)).0;
            AllocStep(a0, Layout(4, 4)).1 == Ok(0) && AllocStep(a1, Layout(4, 4)).1 == Ok(4)
            && AllocStep(a2, Layout(4, 4)).1.Err? && AllocStep(a3, Layout(4, 4)).1.Err?
  {
    SmallAligns();
    assert AlignedStart(Arena(base, 8, 0, 0), 4) == 0 by { ModShift(base, 0, 4); }
    var a1 := AllocStep(Arena(base, 8, 0, 0), Layout(4, 4)).0;
    assert a1 == Arena(base, 8, 4, 4);
    assert AlignedStart(a1, 4) == 4 by { ModShift(base, 4, 4); }
    var a2 := AllocStep(a1, Layout(4, 4)).0;
    assert a2 == Arena(base, 8, 8, 8);
  }

  /** check_in_place_realloc: two 8-byte blocks in 24 bytes; the second grows to 16 and is
      freed, then the first grows to 16 and is freed, leaving nothing in use. */
  lemma CheckInPlaceRealloc(base: nat)
    requires base + 24 <= USIZE_MOD
    ensures var l := Layout(8, 1);
            var a1 := AllocStep(Arena(base, 24, 0, 0), l).0;
            var a2 := AllocStep(a1, l).0;
            GrowInPlaceAsserts(a2, 8, l, 16) &&
            var g1 := GrowStep(a2, 8, l, 16);
            var a3 := DeallocStep(g1.0, 8, 16);
            GrowInPlaceAsserts(a3, 0, l, 16) &&
            var g2 := GrowStep(a3, 0, l, 16);
            g1.1.Ok? && g2.1.Ok? && DeallocStep(g2.0, 0, 16).top == 0
  {
    SmallAligns();
    var l := Layout(8, 1);
    var a1 := AllocStep(Arena(base, 24, 0, 0), l).0;
    assert a1 == Arena(base, 24, 8, 8);
    var a2 := AllocStep(a1, l).0;
    assert a2 == Arena(base, 24, 16, 16);
    assert GrowStep(a2, 8, l, 16).0 == Arena(base, 24, 24, 16);
  }
}
