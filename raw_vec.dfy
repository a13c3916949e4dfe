/** RawVec: the growable element buffer under Vec. Its memory comes from a LinearAlloc that
    other collections may share; capacity goes 0, 1, 2, 4, ... and a full buffer first tries
    to grow in place, then moves. */
module RawVecs {
  import opened Arena
  import Linear

  /** The layout of one element, as `size_of::<T>()` and `align_of::<T>()`: zero-sized types
      are rejected by `new`, and a Rust type's size is always a multiple of its alignment. */
  predicate ElemLayout(elem: Layout) {
    elem.Valid() && elem.size > 0 && elem.size % elem.align == 0
  }

  /** Layout::array::<T>(n): n elements back to back. */
  function ArrayLayout(elem: Layout, n: nat): Layout {
    Layout(n * elem.size, elem.align)
  }

  /** A RawVec's allocation as a value: the block's offset in the allocator's buffer and the
      capacity in elements. With capacity 0 there is no block and `ptr` is meaningless. */
  datatype Buf = Buf(ptr: nat, cap: nat)

  /** Capacities a RawVec can have. */
  predicate CapOk(cap: nat) {
    cap == 0 || IsPow2(cap)
  }

  /** The buffer is a live block of the allocator, aligned for its elements: what the linear
      allocator's grow_in_place asserts about the block grow passes to it. */
  predicate LiveBlock(a: Arena, b: Buf, elem: Layout)
    requires elem.align > 0
  {
    b.cap > 0 ==> Linear.GrowInPlaceAsserts(a, b.ptr, ArrayLayout(elem, b.cap),
                                            2 * (b.cap * elem.size))
  }

  /** The next free byte of the allocator is aligned for the elements. */
  predicate TopAligned(a: Arena, elem: Layout)
    requires elem.align > 0
  {
    (a.base + a.top) % elem.align == 0
  }

  // ----- Specification -----

  /** The default Alloc::realloc, for a larger size that grow_in_place has refused: allocate a
      block of the new size with the same alignment and free the old one. */
  function ReallocStep(a: Arena, offset: nat, layout: Layout, newSize: nat)
    : (Arena, Result<nat, AllocErr>)
    requires a.Valid() && Layout(newSize, layout.align).Valid()
  {
    var n := Linear.AllocStep(a, Layout(newSize, layout.align));
    if n.1.Err? then (a, Err(AllocErr))
    else (DeallocStep(n.0, offset, layout.size), n.1)
  }

  /** grow: an empty buffer gets a block for one element; a full one tries to double in
      place, keeping its block, and otherwise moves to a new block of twice the size. Any
      allocation failure leaves the allocator and the buffer as they were. On success the
      buffer's block is the allocator's topmost, and the high-water mark is never lowered. */
  function GrowStep(a: Arena, b: Buf, elem: Layout): (r: (Arena, Buf, Result<(), AllocErr>))
    requires a.Valid() && ElemLayout(elem) && b.cap * elem.size <= a.capacity
    requires LiveBlock(a, b, elem)
    ensures r.0.Valid() && r.0.SameBuffer(a) && r.0.high >= a.high
    ensures r.2.Ok? ==> r.1.cap == (if b.cap == 0 then 1 else 2 * b.cap)
    ensures r.2.Ok? ==> r.1.cap * elem.size <= a.capacity
                        && r.1.ptr + r.1.cap * elem.size == r.0.top
    ensures r.2.Ok? ==> r.1.ptr == b.ptr || r.1.ptr == Linear.AlignedStart(a, elem.align)
    ensures r.2.Err? ==> r.0 == a && r.1 == b
    ensures b.cap == 0 ==> (r.2.Ok? <==> Linear.AllocStep(a, elem).1.Ok?)
    ensures b.cap > 0 ==>
              var inPlace := Linear.GrowStep(a, b.ptr, ArrayLayout(elem, b.cap),
                                             2 * (b.cap * elem.size));
              (inPlace.1.Ok? ==> r.2.Ok? && r.1.ptr == b.ptr && r.0 == inPlace.0)
              && (r.2.Ok? <==>
                    inPlace.1.Ok?
                    || Linear.AllocStep(a, Layout(2 * (b.cap * elem.size), elem.align)).1.Ok?)
  {
    DoubleBytes(b.cap, elem.size);
    if b.cap == 0 then
      assert ArrayLayout(elem, 1) == elem;
      var n := Linear.AllocStep(a, elem);
      if n.1.Err? then (a, b, Err(AllocErr)) else (n.0, Buf(n.1.value, 1), Ok(()))
    else
      var layout := ArrayLayout(elem, b.cap);
      var newSize := 2 * layout.size;
      var inPlace := Linear.GrowStep(a, b.ptr, layout, newSize);
      if inPlace.1.Ok? then (inPlace.0, Buf(b.ptr, 2 * b.cap), Ok(()))
      else
        var moved := ReallocStep(a, b.ptr, layout, newSize);
        if moved.1.Err? then (a, b, Err(AllocErr))
        else (moved.0, Buf(moved.1.value, 2 * b.cap), Ok(()))
  }

  /** The allocator state, buffer and result after a grow are those GrowStep gives. */
  predicate GrowsTo(a: Arena, b: Buf, elem: Layout, a1: Arena, b1: Buf, r: Result<(), AllocErr>)
    requires a.Valid() && ElemLayout(elem) && b.cap * elem.size <= a.capacity
    requires LiveBlock(a, b, elem)
  {
    var g := GrowStep(a, b, elem);
    a1 == g.0 && b1 == g.1 && r == g.2
  }

  /** The byte counts of a doubled and of a one-element buffer. */
  lemma DoubleBytes(cap: nat, size: nat)
    ensures (2 * cap) * size == 2 * (cap * size) && 1 * size == size
    ensures cap > 0 ==> cap * size >= size
  {
  }

  lemma DoubleIsPow2(c: nat)
    requires IsPow2(c)
    ensures IsPow2(2 * c)
  {
    assert (2 * c) / 2 == c;
  }

  /** Every capacity a RawVec reaches is 0 or a power of two. */
  lemma GrowKeepsCapOk(a: Arena, b: Buf, elem: Layout)
    requires a.Valid() && ElemLayout(elem) && b.cap * elem.size <= a.capacity
    requires LiveBlock(a, b, elem) && CapOk(b.cap)
    ensures CapOk(GrowStep(a, b, elem).1.cap)
  {
    if GrowStep(a, b, elem).2.Ok? && b.cap > 0 {
      DoubleIsPow2(b.cap);
    }
  }

  lemma AddAligned(x: nat, y: nat, m: nat)
    requires m > 0 && x % m == 0 && y % m == 0
    ensures (x + y) % m == 0
  {
    ModUnique(x + y, m, x / m + y / m, 0);
  }

  lemma MulAligned(n: nat, size: nat, m: nat)
    requires m > 0 && size % m == 0
    ensures (n * size) % m == 0
  {
    var q := size / m;
    assert size == q * m;
    assert n * size == (n * q) * m;
    ModUnique(n * size, m, n * q, 0);
  }

  /** A non-empty buffer whose block is aligned and ends at the allocator's `top` is live,
      and leaves `top` aligned. */
  lemma TopmostBlockIsLive(a: Arena, b: Buf, elem: Layout)
    requires a.Valid() && ElemLayout(elem) && b.cap > 0
    requires b.ptr + b.cap * elem.size == a.top && (a.base + b.ptr) % elem.align == 0
    ensures LiveBlock(a, b, elem) && TopAligned(a, elem)
  {
    DoubleBytes(b.cap, elem.size);
    MulAligned(b.cap, elem.size, elem.align);
    AddAligned(a.base + b.ptr, b.cap * elem.size, elem.align);
  }

  /** When the allocator's next free byte is aligned for the elements (as it stays while this
      buffer is the allocator's only user), a successful grow leaves the buffer a live aligned
      block and the next free byte still aligned: so grow can be called again without
      tripping grow_in_place's asserts. */
  lemma GrowKeepsLiveBlock(a: Arena, b: Buf, elem: Layout)
    requires a.Valid() && ElemLayout(elem) && b.cap * elem.size <= a.capacity
    requires LiveBlock(a, b, elem) && TopAligned(a, elem)
    requires GrowStep(a, b, elem).2.Ok?
    ensures LiveBlock(GrowStep(a, b, elem).0, GrowStep(a, b, elem).1, elem)
    ensures TopAligned(GrowStep(a, b, elem).0, elem)
  {
    var r := GrowStep(a, b, elem);
    assert (a.base + r.1.ptr) % elem.align == 0 by {
      if r.1.ptr != b.ptr {
        assert r.1.ptr == a.top;
      }
    }
    TopmostBlockIsLive(r.0, r.1, elem);
  }

  // ----- The buffer object -----

  /** A RawVec over a shared LinearAlloc. The elements live in `data`, of `cap` slots; the
      bytes they occupy are the block at `ptr` in the allocator's buffer. */
  class RawVec<T(0)> {
    const alloc: Linear.LinearAlloc
    const elem: Layout
    var ptr: nat
    var cap: nat
    var data: array<T>

    predicate Valid()
      reads this, alloc
    {
      alloc.Valid() && ElemLayout(elem) && CapOk(cap) && cap * elem.size <= alloc.capacity
      && data.Length == cap
    }

    function Abs(): Buf
      reads this
    {
      Buf(ptr, cap)
    }

    /** new: no block and capacity 0; zero-sized element types are refused. */
    constructor (alloc: Linear.LinearAlloc, elem: Layout)
      requires alloc.Valid() && ElemLayout(elem)
      ensures Valid() && this.alloc == alloc && this.elem == elem
      ensures cap == 0
    {
      this.alloc := alloc;
      this.elem := elem;
      ptr := 0;
      cap := 0;
      data := new T[0];
    }

    function Capacity(): nat
      reads this
    {
      cap
    }

    /** alloc_layout: the layout of the current block, exactly `cap` elements; building it
        never fails, because the block fits in the allocator's buffer. */
    function AllocLayout(): (l: Layout)
      reads this, alloc
      requires Valid()
      ensures l.Valid() && l.size == cap * elem.size && l.align == elem.align
    {
      ArrayLayout(elem, cap)
    }

    method Grow() returns (r: Result<(), AllocErr>)
      requires Valid() && LiveBlock(alloc.Abs(), Abs(), elem)
      modifies this, alloc
      ensures Valid()
      ensures GrowsTo(old(alloc.Abs()), old(Abs()), elem, alloc.Abs(), Abs(), r)
      ensures cap >= old(cap) && data[..old(cap)] == old(data[..])
      ensures data == old(data) || fresh(data)
    {
      GrowKeepsCapOk(alloc.Abs(), Abs(), elem);
      ghost var spec := GrowStep(alloc.Abs(), Abs(), elem);
      var newCap: nat;
      var newPtr: nat;
      if cap == 0 {
        newCap := 1;
        var layout := ArrayLayout(elem, newCap);
        assert layout == elem;
        var p := alloc.Alloc(layout);
        if p.Err? {
          return Err(AllocErr);
        }
        newPtr := p.value;
      } else {
        var layout := AllocLayout();
        newCap := 2 * cap;
        var g := alloc.GrowInPlace(ptr, layout, 2 * layout.size);
        if g.Ok? {
          newPtr := ptr;
        } else {
          var p := Realloc(alloc, ptr, layout, 2 * layout.size);
          if p.Err? {
            return Err(AllocErr);
          }
          newPtr := p.value;
        }
      }
      assert spec.1 == Buf(newPtr, newCap) && spec.0 == alloc.Abs();
      data := Enlarged(data, newCap);
      cap := newCap;
      ptr := newPtr;
      r := Ok(());
    }

    /** Drop: the block is returned to the allocator exactly once, and only if there is one. */
    method Drop() returns (freed: Option<Block>)
      requires Valid()
      modifies alloc
      ensures alloc.Valid()
      ensures freed.Some? <==> cap != 0
      ensures freed.Some? ==> freed.value == Block(ptr, cap * elem.size)
                              && alloc.Abs() == DeallocStep(old(alloc.Abs()), ptr, cap * elem.size)
      ensures freed.None? ==> alloc.Abs() == old(alloc.Abs())
    {
      if cap != 0 {
        var layout := AllocLayout();
        alloc.Dealloc(ptr, layout);
        freed := Some(Block(ptr, layout.size));
      } else {
        freed := None;
      }
    }
  }

  /** The element storage after growing to `n` slots: the same elements, with room after
      them. (In the allocator's buffer the bytes stay or are copied by realloc.) */
  method Enlarged<T(0)>(data: array<T>, n: nat) returns (bigger: array<T>)
    requires data.Length <= n
    ensures fresh(bigger) && bigger.Length == n && bigger[..data.Length] == data[..]
  {
    bigger := new T[n];
    forall i | 0 <= i < data.Length {
      bigger[i] := data[i];
    }
  }

  /** The default Alloc::realloc on the linear allocator, for a larger size. */
  method Realloc(alloc: Linear.LinearAlloc, offset: nat, layout: Layout, newSize: nat)
    returns (r: Result<nat, AllocErr>)
    requires alloc.Valid() && Layout(newSize, layout.align).Valid()
    modifies alloc
    ensures alloc.Valid()
    ensures alloc.Abs() == ReallocStep(old(alloc.Abs()), offset, layout, newSize).0
    ensures r == ReallocStep(old(alloc.Abs()), offset, layout, newSize).1
  {
    r := alloc.Alloc(Layout(newSize, layout.align));
    if r.Ok? {
      alloc.Dealloc(offset, layout);
    }
  }

  // ----- Growth in the tests' scenarios -----

  /** check_many_pushes_all_work: four u32 pushes into a 43-byte buffer grow the buffer to 1,
      2 and 4 elements, all at offset 0; growing in place does not raise the high-water mark,
      which stays at 4 while 16 bytes are in use. */
  lemma ManyPushesGrowInPlace(base: nat)
    requires base % 4 == 0 && base + 43 <= USIZE_MOD
    ensures GrowStep(Arena(base, 43, 0, 0), Buf(0, 0), Layout(4, 4)).0 == Arena(base, 43, 4, 4)
    ensures GrowStep(Arena(base, 43, 0, 0), Buf(0, 0), Layout(4, 4)).1 == Buf(0, 1)
    ensures GrowStep(Arena(base, 43, 4, 4), Buf(0, 1), Layout(4, 4)).0 == Arena(base, 43, 8, 4)
    ensures GrowStep(Arena(base, 43, 4, 4), Buf(0, 1), Layout(4, 4)).1 == Buf(0, 2)
    ensures GrowStep(Arena(base, 43, 8, 4), Buf(0, 2), Layout(4, 4)).0 == Arena(base, 43, 16, 4)
    ensures GrowStep(Arena(base, 43, 8, 4), Buf(0, 2), Layout(4, 4)).1 == Buf(0, 4)
  {
    SmallAligns();
    assert Linear.AlignedStart(Arena(base, 43, 0, 0), 4) == 0 by { ModShift(base, 0, 4); }
  }

  /** A vector sharing an allocator with other users can be handed a misaligned block:
      with one byte in use over an 8-aligned buffer, a u32 vector's first growth gets
      offset 2 (alloc adds the remainder instead of rounding up), an address that is not
      4-aligned. Its block is then not live in the sense grow_in_place asserts, so the next
      growth (a push on the full buffer) panics. */
  lemma SharedAllocatorMisalignsBuffer(base: nat)
    requires base % 8 == 0 && base + 24 <= USIZE_MOD
    ensures GrowStep(Arena(base, 24, 1, 1), Buf(0, 0), Layout(4, 4)).2.Ok?
    ensures GrowStep(Arena(base, 24, 1, 1), Buf(0, 0), Layout(4, 4)).1 == Buf(2, 1)
    ensures !LiveBlock(GrowStep(Arena(base, 24, 1, 1), Buf(0, 0), Layout(4, 4)).0,
                       GrowStep(Arena(base, 24, 1, 1), Buf(0, 0), Layout(4, 4)).1, Layout(4, 4))
  {
    SmallAligns();
    Aligned8(base);
    assert Linear.AlignedStart(Arena(base, 24, 1, 1), 4) == 2 by { ModShift(base, 1, 4); }
    ModShift(base, 2, 4);
  }

  /** check_two_vectors_one_alloc: two u32 vectors pushing alternately into a 56-byte buffer.
      Neither block is ever topmost when it is full, so each growth after the first moves the
      vector to a new block: v to 0, 8, 24 and w to 4, 16, 40, filling the buffer exactly. */
  lemma TwoVectorsOneAlloc(base: nat)
    requires base % 4 == 0 && base + 56 <= USIZE_MOD
    ensures GrowStep(Arena(base, 56, 0, 0), Buf(0, 0), Layout(4, 4)).0 == Arena(base, 56, 4, 4)
    ensures GrowStep(Arena(base, 56, 0, 0), Buf(0, 0), Layout(4, 4)).1 == Buf(0, 1)
    ensures GrowStep(Arena(base, 56, 4, 4), Buf(0, 0), Layout(4, 4)).0 == Arena(base, 56, 8, 8)
    ensures GrowStep(Arena(base, 56, 4, 4), Buf(0, 0), Layout(4, 4)).1 == Buf(4, 1)
    ensures GrowStep(Arena(base, 56, 8, 8), Buf(0, 1), Layout(4, 4)).0
            == Arena(base, 56, 16, 16)
    ensures GrowStep(Arena(base, 56, 8, 8), Buf(0, 1), Layout(4, 4)).1 == Buf(8, 2)
  {
    SmallAligns();
    assert Linear.AlignedStart(Arena(base, 56, 0, 0), 4) == 0 by { ModShift(base, 0, 4); }
    assert Linear.AlignedStart(Arena(base, 56, 4, 4), 4) == 4 by { ModShift(base, 4, 4); }
    assert Linear.AlignedStart(Arena(base, 56, 8, 8), 4) == 8 by { ModShift(base, 8, 4); }
  }

  /** check_two_vectors_one_alloc, continued: w moves to 16, then v's third growth moves it
      to 24 and w's to 40, ending at the last byte of the buffer. */
  lemma TwoVectorsOneAllocFills(base: nat)
    requires base % 4 == 0 && base + 56 <= USIZE_MOD
    ensures GrowStep(Arena(base, 56, 16, 16), Buf(4, 1), Layout(4, 4)).0
            == Arena(base, 56, 24, 24)
    ensures GrowStep(Arena(base, 56, 16, 16), Buf(4, 1), Layout(4, 4)).1 == Buf(16, 2)
    ensures GrowStep(Arena(base, 56, 24, 24), Buf(8, 2), Layout(4, 4)).0
            == Arena(base, 56, 40, 40)
    ensures GrowStep(Arena(base, 56, 24, 24), Buf(8, 2), Layout(4, 4)).1 == Buf(24, 4)
    ensures GrowStep(Arena(base, 56, 40, 40), Buf(16, 2), Layout(4, 4)).0
            == Arena(base, 56, 56, 56)
    ensures GrowStep(Arena(base, 56, 40, 40), Buf(16, 2), Layout(4, 4)).1 == Buf(40, 4)
  {
    SmallAligns();
    assert Linear.AlignedStart(Arena(base, 56, 16, 16), 4) == 16 by { ModShift(base, 16, 4); }
    assert Linear.AlignedStart(Arena(base, 56, 24, 24), 4) == 24 by { ModShift(base, 24, 4); }
    assert Linear.AlignedStart(Arena(base, 56, 40, 40), 4) == 40 by { ModShift(base, 40, 4); }
  }
}
