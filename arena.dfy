/** Definitions shared by the two bump allocators (LinearAlloc and StackAlloc):
    machine-word bounds, allocation layouts, the allocator state as a value, and the
    operations whose code is identical in both allocators. */
module Arena {

  /** 2^64: usize arithmetic wraps modulo this value. */
  const USIZE_MOD: nat := 0x1_0000_0000_0000_0000
  /** isize::MAX: no Rust slice (so no backing buffer) is longer than this. */
  const ISIZE_MAX: nat := 0x7FFF_FFFF_FFFF_FFFF
  /** The largest power of two representable in a usize. */
  const ALIGN_MAX: nat := 0x8000_0000_0000_0000

  datatype Option<T> = None | Some(value: T)
  datatype Result<T, E> = Ok(value: T) | Err(error: E)

  /** std::alloc::AllocErr: an allocation request could not be satisfied. */
  datatype AllocErr = AllocErr
  /** std::alloc::CannotReallocInPlace: a grow or shrink must move the block. */
  datatype CannotReallocInPlace = CannotReallocInPlace
  /** The allocators' InvalidMarker error, returned by reset_to. */
  datatype InvalidMarker = InvalidMarker

  predicate IsPow2(n: nat)
    decreases n
  {
    if n <= 1 then n == 1 else n % 2 == 0 && IsPow2(n / 2)
  }

  /** The alignments the scenarios use are powers of two. */
  lemma SmallAligns()
    ensures IsPow2(1) && IsPow2(2) && IsPow2(4) && IsPow2(8)
  {
    assert IsPow2(2);
    assert IsPow2(4);
  }

  /** Division with remainder is unique: a decomposition x == q * m + r with 0 <= r < m is
      the one `/` and `%` compute. */
  lemma ModUnique(x: int, m: int, q: int, r: int)
    requires m > 0 && 0 <= r < m && x == q * m + r
    ensures x % m == r && x / m == q
  {
    var d := q - x / m;
    assert d * m == x % m - r;
    assert d >= 1 ==> d * m >= m;
    assert d <= -1 ==> d * m <= -m;
  }

  /** Over a buffer whose address is a multiple of the alignment, the remainder of an
      address modulo that alignment depends only on the offset. */
  lemma ModShift(base: nat, k: nat, m: nat)
    requires m > 0 && base % m == 0
    ensures (base + k) % m == k % m
  {
    ModUnique(base + k, m, base / m + k / m, k % m);
  }

  /** A buffer aligned to 8 is aligned to 4 and to 2. */
  lemma Aligned8(base: nat)
    requires base % 8 == 0
    ensures base % 4 == 0 && base % 2 == 0
  {
    ModUnique(base, 4, 2 * (base / 8), 0);
    ModUnique(base, 2, 4 * (base / 8), 0);
  }

  /** Rounding an address down by its remainder gives a multiple of the alignment. */
  lemma RoundDownAligned(x: nat, m: nat)
    requires m > 0
    ensures (x - x % m) % m == 0
  {
    ModUnique(x - x % m, m, x / m, 0);
  }

  /** std::alloc::Layout: a size in bytes and a power-of-two alignment. */
  datatype Layout = Layout(size: nat, align: nat) {
    predicate Valid() {
      IsPow2(align) && align <= ALIGN_MAX && size < USIZE_MOD
    }
  }

  /** A saved value of `top`, to be passed to reset_to later. */
  datatype Marker = Marker(offset: nat)

  /** A block handed out by an allocator, as an offset into the buffer and a size. */
  datatype Block = Block(offset: nat, size: nat)

  /** The state of a bump allocator: the backing buffer starts at address `base` and is
      `capacity` bytes long; `top` is the offset of the first free byte and `high` the
      high-water mark. */
  datatype Arena = Arena(base: nat, capacity: nat, top: nat, high: nat) {
    predicate Valid() {
      top <= capacity && capacity <= ISIZE_MAX && base + capacity <= USIZE_MOD
    }

    /** The buffer and its position never change. */
    predicate SameBuffer(other: Arena) {
      base == other.base && capacity == other.capacity
    }
  }

  /** usable_size: blocks are tight, so the usable range is exactly the requested size. */
  function UsableSize(layout: Layout): (r: (nat, nat))
    ensures r.0 == layout.size && r.1 == layout.size
  {
    (layout.size, layout.size)
  }

  /** reset: every block becomes free; the high-water mark is kept. */
  function ResetStep(a: Arena): (r: Arena)
    requires a.Valid()
    ensures r.Valid() && r.SameBuffer(a)
    ensures r.top == 0 && r.high == a.high
  {
    a.(top := 0)
  }

  /** reset_to: rewinds `top` to a marker strictly below it and inside the buffer. */
  function ResetToStep(a: Arena, marker: Marker): (r: (Arena, Result<(), InvalidMarker>))
    requires a.Valid()
    ensures r.0.Valid() && r.0.SameBuffer(a) && r.0.high == a.high
    ensures r.1.Ok? <==> marker.offset < a.capacity && marker.offset < a.top
    ensures r.1.Ok? ==> r.0.top == marker.offset < a.top
    ensures r.1.Err? ==> r.0 == a
  {
    if marker.offset < a.capacity && marker.offset < a.top then
      (a.(top := marker.offset), Ok(()))
    else
      (a, Err(InvalidMarker))
  }

  /** dealloc: only the topmost block is reclaimed; freeing any other block does nothing. */
  function DeallocStep(a: Arena, offset: nat, size: nat): (r: Arena)
    requires a.Valid()
    ensures r.Valid() && r.SameBuffer(a) && r.high == a.high
    ensures offset + size == a.top ==> r.top == offset
    ensures offset + size != a.top ==> r == a
    ensures r.top <= a.top
  {
    if offset + size == a.top then a.(top := offset) else a
  }

  /** The common tail of both allocators' alloc: given the computed (possibly wrapped)
      start index `idx`, `checked_add` the size and accept the block only when it starts
      inside the buffer and ends within it. Each allocator's alloc states what this means. */
  function AllocAt(a: Arena, idx: nat, size: nat): (Arena, Result<nat, AllocErr>)
  {
    if idx + size >= USIZE_MOD then
      (a, Err(AllocErr))              // checked_add overflowed
    else if idx < a.capacity && idx + size <= a.capacity then
      (a.(top := idx + size, high := if a.high < idx + size then idx + size else a.high),
       Ok(idx))
    else
      (a, Err(AllocErr))
  }

  /** One call on an allocator, with pointers given as offsets into the buffer. */
  datatype Op =
    | AllocOp(layout: Layout)
    | DeallocOp(offset: nat, layout: Layout)
    | GrowInPlaceOp(offset: nat, layout: Layout, newSize: nat)
    | ShrinkInPlaceOp
    | ResetOp
    | ResetToOp(marker: Marker)
  {
    predicate WellFormed() {
      match this
      case AllocOp(l) => l.Valid()
      case DeallocOp(_, l) => l.Valid()
      case GrowInPlaceOp(_, l, _) => l.Valid()
      case _ => true
    }
  }
}
