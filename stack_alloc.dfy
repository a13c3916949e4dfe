/** StackAlloc: the same bump allocator as LinearAlloc, except that alloc rounds the address
    of `top` DOWN to the alignment, and grow_in_place refuses bad requests instead of
    asserting on them. */
module Stack {
  import opened Arena

  // ----- Specification: the allocator's operations as functions on Arena values -----

  /** The start index alloc computes, in usize arithmetic: the address of `top` minus its
      remainder modulo the alignment, minus the buffer's address. When the remainder exceeds
      `top` the block would start below the buffer; the usize subtraction then wraps to an
      index past the end of any buffer (a debug build panics instead). Otherwise the start
      is aligned and at or below `top`, so it can overlap live blocks. */
  function RoundDownStart(a: Arena, align: nat): (idx: nat)
    requires a.Valid() && a.top < a.capacity && 0 < align <= ALIGN_MAX
    ensures (a.base + a.top) % align <= a.top ==>
              idx == a.top - (a.base + a.top) % align && (a.base + idx) % align == 0
    ensures (a.base + a.top) % align > a.top ==> idx >= a.capacity
  {
    var blockBase := a.base + a.top;
    var rem := blockBase % align;
    RoundDownAligned(blockBase, align);
    var roundedDown := blockBase - rem;
    (roundedDown - a.base) % USIZE_MOD
  }

  /** alloc: fails when the buffer is full, when the rounded-down start falls below the
      buffer, or when the block does not fit; otherwise the block is aligned, starts at or
      below `top`, and `top` moves to its end, which may be BELOW the old `top`. */
  function AllocStep(a: Arena, layout: Layout): (r: (Arena, Result<nat, AllocErr>))
    requires a.Valid() && layout.Valid()
    ensures r.0.Valid() && r.0.SameBuffer(a)
    ensures a.top == a.capacity ==> r.1 == Err(AllocErr)
    ensures r.1.Ok? <==> a.top < a.capacity
                         && (a.base + a.top) % layout.align <= a.top
                         && a.top - (a.base + a.top) % layout.align + layout.size
                            <= a.capacity
    ensures r.1.Ok? ==> var s := r.1.value;
                        s == a.top - (a.base + a.top) % layout.align
                        && (a.base + s) % layout.align == 0
                        && r.0.top == s + layout.size <= a.capacity
                        && r.0.high >= a.high && r.0.high >= r.0.top
                        && (r.0.high == a.high || r.0.high == r.0.top)
    ensures r.1.Err? ==> r.0 == a
  {
    if a.top == a.capacity then (a, Err(AllocErr))
    else AllocAt(a, RoundDownStart(a, layout.align), layout.size)
  }

  /** grow_in_place: refuses (without changing anything) a new size that is not larger, a
      growth the free space cannot hold, a pointer outside the buffer, and a block that is
      not topmost; otherwise only `top` moves, by the growth. The high-water mark is NOT
      raised. */
  function GrowStep(a: Arena, offset: nat, layout: Layout, newSize: nat)
    : (r: (Arena, Result<(), CannotReallocInPlace>))
    requires a.Valid()
    ensures r.0.Valid() && r.0.SameBuffer(a) && r.0.high == a.high
    ensures r.1.Ok? <==> layout.size < newSize
                         && a.capacity - a.top >= newSize - layout.size
                         && offset < a.capacity
                         && offset + layout.size == a.top
    ensures r.1.Ok? ==> r.0.top == a.top + (newSize - layout.size) == offset + newSize
    ensures r.1.Err? ==> r.0 == a
  {
    if layout.size >= newSize then (a, Err(CannotReallocInPlace))
    else if a.capacity - a.top < newSize - layout.size then (a, Err(CannotReallocInPlace))
    else if offset >= a.capacity then (a, Err(CannotReallocInPlace))
    else if offset + layout.size != a.top then (a, Err(CannotReallocInPlace))
    else (a.(top := a.top + (newSize - layout.size)), Ok(()))
  }

  // ----- The allocator object -----

  class StackAlloc {
    const base: nat       // address of the first byte of the borrowed buffer
    const capacity: nat   // buf.len()
    var top: nat
    var high: nat

    predicate Valid()
      reads this
    {
      Abs().Valid()
    }

    function Abs(): Arena
      reads this
    {
      Arena(base, capacity, top, high)
    }

    /** new: an empty allocator over the buffer at `base` of `capacity` bytes. */
    constructor (base: nat, capacity: nat)
      requires capacity <= ISIZE_MAX && base + capacity <= USIZE_MOD
      ensures Valid()
      ensures Abs() == Arena(base, capacity, 0, 0)
    {
      this.base := base;
      this.capacity := capacity;
      top := 0;
      high := 0;
    }

    method Reset()
      requires Valid()
      modifies this
      ensures Valid()
      ensures Abs() == ResetStep(old(Abs()))
    {
      top := 0;
    }

    method ResetTo(marker: Marker) returns (r: Result<(), InvalidMarker>)
      requires Valid()
      modifies this
      ensures Valid()
      ensures Abs() == ResetToStep(old(Abs()), marker).0
      ensures r == ResetToStep(old(Abs()), marker).1
    {
      if marker.offset < capacity && marker.offset < top {
        top := marker.offset;
        r := Ok(());
      } else {
        r := Err(InvalidMarker);
      }
    }

    /** get_marker: a marker that reset_to refuses now and accepts once `top` is above it,
        bringing `top` back to the current value. */
    function GetMarker(): (m: Marker)
      reads this
      requires Valid()
      ensures ResetToStep(Abs(), m).1.Err?
      ensures forall t :: m.offset < t <= capacity ==>
                ResetToStep(Abs().(top := t), m).0.top == top
    {
      Marker(top)
    }

    /** bytes_in_use: never more than the capacity. */
    function BytesInUse(): (n: nat)
      reads this
      requires Valid()
      ensures n <= Capacity()
    {
      top
    }

    function Capacity(): nat
      reads this
    {
      capacity
    }

    function HighWaterMark(): nat
      reads this
    {
      high
    }

    method Alloc(layout: Layout) returns (r: Result<nat, AllocErr>)
      requires Valid() && layout.Valid()
      modifies this
      ensures Valid()
      ensures Abs() == AllocStep(old(Abs()), layout).0
      ensures r == AllocStep(old(Abs()), layout).1
    {
      if top == capacity {
        return Err(AllocErr);
      }
      var blockIdx := RoundDownStart(Abs(), layout.align);
      if blockIdx + layout.size < USIZE_MOD
         && blockIdx < capacity && blockIdx + layout.size <= capacity
      {
        top := blockIdx + layout.size;
        if high < top {
          high := top;
        }
        r := Ok(blockIdx);
      } else {
        r := Err(AllocErr);
      }
    }

    method Dealloc(offset: nat, layout: Layout)
      requires Valid()
      modifies this
      ensures Valid()
      ensures Abs() == DeallocStep(old(Abs()), offset, layout.size)
    {
      var blockIdx := offset;
      if blockIdx + layout.size == top {
        top := blockIdx;
      }
    }

    method GrowInPlace(offset: nat, layout: Layout, newSize: nat)
      returns (r: Result<(), CannotReallocInPlace>)
      requires Valid()
      modifies this
      ensures Valid()
      ensures Abs() == GrowStep(old(Abs()), offset, layout, newSize).0
      ensures r == GrowStep(old(Abs()), offset, layout, newSize).1
    {
      if layout.size >= newSize {
        return Err(CannotReallocInPlace);
      }
      var spaceLeft := Capacity() - BytesInUse();
      var blockGrowth := newSize - layout.size;
      if spaceLeft < blockGrowth {
        return Err(CannotReallocInPlace);
      }
      var blockIdx := offset;
      if blockIdx >= capacity {
        return Err(CannotReallocInPlace);
      }
      if blockIdx + layout.size != top {
        return Err(CannotReallocInPlace);
      }
      top := top + blockGrowth;
      r := Ok(());
    }

    /** shrink_in_place is not supported: it always refuses. */
    method ShrinkInPlace(offset: nat, layout: Layout, newSize: nat)
      returns (r: Result<(), CannotReallocInPlace>)
      ensures r.Err?
    {
      r := Err(CannotReallocInPlace);
    }
  }

  // ----- Sequences of operations -----

  /** One operation; grow_in_place never panics here. */
  function Apply(a: Arena, op: Op): (r: Arena)
    requires a.Valid() && op.WellFormed()
    ensures r.Valid() && r.SameBuffer(a) && r.high >= a.high
  {
    match op
    case AllocOp(l) => AllocStep(a, l).0
    case DeallocOp(off, l) => DeallocStep(a, off, l.size)
    case GrowInPlaceOp(off, l, n) => GrowStep(a, off, l, n).0
    case ShrinkInPlaceOp => a
    case ResetOp => ResetStep(a)
    case ResetToOp(m) => ResetToStep(a, m).0
  }

  function Run(a: Arena, ops: seq<Op>): Arena
    requires a.Valid()
    requires forall i :: 0 <= i < |ops| ==> ops[i].WellFormed()
    decreases |ops|
  {
    if ops == [] then a
    else
      var a1 := Apply(a, ops[0]);
      if a1.Valid() then Run(a1, ops[1..]) else a
  }

  /** No sequence of operations lowers the high-water mark, moves the buffer, or pushes
      `top` past the capacity, even though alloc itself can lower `top`. */
  lemma {:induction false} RunKeepsHighWaterMark(a: Arena, ops: seq<Op>)
    requires a.Valid()
    requires forall i :: 0 <= i < |ops| ==> ops[i].WellFormed()
    ensures Run(a, ops).Valid() && Run(a, ops).SameBuffer(a)
    ensures Run(a, ops).high >= a.high
    decreases |ops|
  {
    if ops != [] {
      RunKeepsHighWaterMark(Apply(a, ops[0]), ops[1..]);
    }
  }

  // ----- Consequences of rounding down -----

  /** With one byte in use over an 8-aligned buffer, a u32 is placed at offset 0, on top of
      the live byte. */
  lemma AllocOverlapsLiveBlocks(base: nat)
    requires base % 8 == 0 && base + 24 <= USIZE_MOD
    ensures AllocStep(Arena(base, 24, 1, 1), Layout(4, 4)).1 == Ok(0)
  {
    SmallAligns();
    Aligned8(base);
    assert (base + 1) % 4 == 1 by { ModShift(base, 1, 4); }
  }

  /** With five bytes in use over an 8-aligned buffer, a zero-size 4-aligned request moves
      `top` back to 4. */
  lemma AllocMayLowerTop(base: nat)
    requires base % 8 == 0 && base + 24 <= USIZE_MOD
    ensures AllocStep(Arena(base, 24, 5, 5), Layout(0, 4)).0.top == 4
  {
    SmallAligns();
    Aligned8(base);
    assert (base + 5) % 4 == 1 by { ModShift(base, 5, 4); }
  }

  /** Over a buffer whose address is 2 modulo 4, the first u32 request rounds down below the
      buffer, so it fails (the index wraps around in a release build). */
  lemma MisalignedBufferRefusesFirstAlloc(base: nat)
    requires base % 4 == 2 && base + 8 <= USIZE_MOD
    ensures AllocStep(Arena(base, 8, 0, 0), Layout(4, 4)).1.Err?
  {
    SmallAligns();
  }

  // ----- Scenarios from the tests -----

  /** check_simple_alloc: over an 8-byte buffer at a 4-aligned address, two u32 allocations
      succeed, at offsets 0 and 4, and the next two fail. */
  lemma CheckSimpleAlloc(base: nat)
    requires base % 4 == 0 && base + 8 <= USIZE_MOD
    ensures var a0 := Arena(base, 8, 0, 0);
            var a1 := AllocStep(a0, Layout(4, 4)).0;
            var a2 := AllocStep(a1, Layout(4, 4)).0;
            var a3 := AllocStep(a2, Layout(4, 4)).0;
            AllocStep(a0, Layout(4, 4)).1 == Ok(0) && AllocStep(a1, Layout(4, 4)).1 == Ok(4)
            && AllocStep(a2, Layout(4, 4)).1.Err? && AllocStep(a3, Layout(4, 4)).1.Err?
  {
    SmallAligns();
    assert RoundDownStart(Arena(base, 8, 0, 0), 4) == 0 by { ModShift(base, 0, 4); }
    var a1 := AllocStep(Arena(base, 8, 0, 0), Layout(4, 4)).0;
    assert a1 == Arena(base, 8, 4, 4);
    assert RoundDownStart(a1, 4) == 4 by { ModShift(base, 4, 4); }
    var a2 := AllocStep(a1, Layout(4, 4)).0;
    assert a2 == Arena(base, 8, 8, 8);
  }

  /** check_in_place_realloc: two 8-byte blocks in 24 bytes; the second grows to 16 and is
      freed, then the first grows to 16 and is freed, leaving nothing in use. */
  lemma CheckInPlaceRealloc(base: nat)
    requires base + 24 <= USIZE_MOD
    ensures var l := Layout(8, 1);
            var a1 := AllocStep(Arena(base, 24, 0, 0), l).0;
            var a2 := AllocStep(a1, l).0;
            var g1 := GrowStep(a2, 8, l, 16);
            var a3 := DeallocStep(g1.0, 8, 16);
            var g2 := GrowStep(a3, 0, l, 16);
            g1.1.Ok? && g2.1.Ok? && DeallocStep(g2.0, 0, 16).top == 0
  {
    SmallAligns();
    var l := Layout(8, 1);
    assert RoundDownStart(Arena(base, 24, 0, 0), 1) == 0;
    var a1 := AllocStep(Arena(base, 24, 0, 0), l).0;
    assert a1 == Arena(base, 24, 8, 8);
    assert RoundDownStart(a1, 1) == 8;
    var a2 := AllocStep(a1, l).0;
    assert a2 == Arena(base, 24, 16, 16);
    assert GrowStep(a2, 8, l, 16).0 == Arena(base, 24, 24, 16);
  }
}
