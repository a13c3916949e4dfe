# alloc_utils in Dafny

A verified model of the core of `alloc_utils`, a Rust crate with two parts:
- two bump allocators over a borrowed byte buffer;
- a growable vector that takes its memory from such an allocator.

## What is modelled

- **`Arena`** (`arena.dfy`) holds what both allocators share:
  - the usize bounds;
  - `Layout`, `Marker`, `Block` and the error types;
  - `Arena(base, capacity, top, high)`, the allocator state as a value. `base` is the buffer's address, because alignment is computed on absolute addresses.
  - the operations whose code is identical in both allocators: `usable_size`, `reset`, `reset_to` and `dealloc`.
- **`Linear`** (`linear_alloc.dfy`) models `LinearAlloc`.
  - `alloc` adds the address's remainder modulo the alignment instead of rounding up. So a block always starts at or above `top`, but it need not be aligned.
  - `grow_in_place` asserts on caller errors.
  - The type's documentation says that blocks freed in the exact opposite order of allocation can all be reused. That holds only when no allocation needed alignment padding. `dealloc` moves `top` to the freed block's own start, above its padding, so the block below no longer ends at `top`. The documentation's own example shows this: after the u64 is freed, 16 bytes stay in use, not 12.
- **`Stack`** (`stack_alloc.dfy`) models `StackAlloc`, the earlier draft.
  - `alloc` subtracts the remainder. So a block can start below `top`, on top of live blocks, and `top` can move down.
  - When the remainder exceeds `top`, the usize subtraction wraps (release build) and the request is refused.
  - `grow_in_place` refuses bad requests instead of asserting. In a release build this covers a new size that is not larger: the `debug_assert!`s before that test panic only in a debug build.
- **`RawVecs`** (`raw_vec.dfy`) models `RawVec` over a shared `LinearAlloc`.
  - Capacity goes 0, 1, 2, 4, …
  - A full buffer first tries `grow_in_place`, then the default `realloc`: allocate a new block, then free the old one.
- **`Vecs`** (`vec2.dfy`) models `Vec`, the move-out cursor pair `RawValIter`, and the drop behaviour of `Drain` and `IntoIter`.

Each allocator, and RawVec's growth, is specified in two layers:
- Pure step functions over `Arena` values state what each operation does, including every error path.
- The classes `LinearAlloc`, `StackAlloc` and `RawVec` implement the Rust code statement by statement. Their methods are proved to produce exactly the step function's new state and result.

`Vec` and the iterators have no step functions. Their methods are specified over the stored contents, using the sequence functions `InsertAt`, `RemoveAt` and `Reverse` and the iterator's `Remaining()` elements. Where `Vec` grows, its contracts refer to RawVec's step function.

The scenarios from the documentation and the unit tests are lemmas over the step functions. Each holds for every buffer address with the stated alignment. The tests' outcomes depend on that alignment: a `[0u8; N]` buffer has no alignment of its own.

## Model

| member | source | states |
|---|---|---|
| Arena.UsableSize | src/linear_alloc.rs:177-184 | usable_size is exactly (size, size): blocks are tight |
| Arena.ResetStep | src/linear_alloc.rs:110-112 | reset frees everything (top 0) and keeps the high-water mark and the buffer |
| Arena.ResetToStep | src/linear_alloc.rs:119-128 | reset_to succeeds iff the marker is below the capacity and strictly below top (a marker equal to top is refused); on success top becomes the marker; on failure nothing changes; high is never touched |
| Arena.DeallocStep | src/linear_alloc.rs:220-231 | dealloc moves top down to the block iff the block ends exactly at top, otherwise changes nothing; high is kept |
| Linear.AlignedStart | src/linear_alloc.rs:193-195 | the computed start is at or above top and below top + align, and its address is the address of top plus that address's remainder |
| Linear.AllocStep | src/linear_alloc.rs:186-218 | alloc fails when top == capacity (even for size 0); it succeeds iff the computed start is inside the buffer and the block ends within it; then it returns that start (≥ top), sets top to the block's end and high to max(high, top); on failure nothing changes |
| Linear.WrappingStartIndex | src/linear_alloc.rs:193-201 | the start index computed in wrapping usize arithmetic equals the unbounded AlignedStart |
| Linear.GrowStep | src/linear_alloc.rs:233-286 | under the asserted conditions, grow_in_place succeeds iff the free space covers the growth and the block ends at top; then top grows by exactly the growth and high is not raised; on failure nothing changes |
| Linear.LinearAlloc.constructor | src/linear_alloc.rs:97-103 | new: top 0, high 0 over the given buffer |
| Linear.LinearAlloc.Reset | src/linear_alloc.rs:110-112 | the new state is ResetStep of the old |
| Linear.LinearAlloc.ResetTo | src/linear_alloc.rs:119-128 | the new state and result are ResetToStep's |
| Linear.LinearAlloc.GetMarker | src/linear_alloc.rs:131-133 | the marker is refused by reset_to now, and brings top back to its current value from any higher top |
| Linear.LinearAlloc.BytesInUse | src/linear_alloc.rs:136-145 | bytes in use never exceed the capacity |
| Linear.LinearAlloc.Alloc | src/linear_alloc.rs:186-218 | the new state and result are AllocStep's |
| Linear.LinearAlloc.Dealloc | src/linear_alloc.rs:220-231 | the new state is DeallocStep's |
| Linear.LinearAlloc.GrowInPlace | src/linear_alloc.rs:233-286 | the new state and result are GrowStep's |
| Linear.LinearAlloc.ShrinkInPlace | src/linear_alloc.rs:290-297 | shrink_in_place always refuses |
| Linear.Apply | src/linear_alloc.rs:110-297 | every operation that does not panic keeps the state valid and the buffer, and never lowers high |
| Linear.RunKeepsHighWaterMark | src/linear_alloc.rs:147-153 | over any sequence of operations the high-water mark never decreases and top stays within the buffer |
| Linear.AllocBytes | src/linear_alloc.rs:186-218 | byte-aligned allocation of a list of sizes yields one block per size, and the bytes in use grow by exactly the total of the sizes |
| Linear.AllocBytesPacksBlocks | src/linear_alloc.rs:186-218 | byte-aligned block i starts at the old top plus the sizes before it and is exactly as large as requested |
| Linear.FreeInReverse | src/linear_alloc.rs:220-231 | freeing a list of blocks last-first keeps the state valid |
| Linear.FreeInReverseRestoresTop | src/linear_alloc.rs:12-18 | for byte-aligned allocations (no padding), blocks freed in the exact opposite order of allocation return top to where it started |
| Linear.FreeInReverseAfterPaddingLeaks | src/linear_alloc.rs:220-231 | with padding, reverse-order freeing does not give the space back: over an 8-aligned buffer a u8 at 0 and a u16 at 2, freed u16 first, leave top at 2 |
| Linear.FreeInAllocationOrderLeaks | src/linear_alloc.rs:12-18 | blocks freed in allocation order leave the first block's bytes in use |
| Linear.AllocMayMisalign | src/linear_alloc.rs:193-195 | with one byte in use over an 8-aligned buffer, a 4-aligned request gets offset 2, an address 2 mod 4 |
| Linear.DocExampleAllocs | src/linear_alloc.rs:26-44 | the documented example, first half: bytes in use go 1, 4, 12, 24 over an 8-aligned 24-byte buffer, and the u64 lands at offset 16 |
| Linear.DocExampleRelease | src/linear_alloc.rs:46-70 | the documented example, second half: dealloc gives 16 with high 24; six u64s fail; reset_to the marker at 4 gives 4; reset gives 0 |
| Linear.CheckSimpleAlloc | src/linear_alloc.rs:329-400 | two u32 allocations in an 8-byte 4-aligned buffer succeed at 0 and 4; the next two fail |
| Linear.CheckInPlaceRealloc | src/linear_alloc.rs:402-424 | both grow_in_place calls pass the asserts and succeed, and bytes in use end at 0 |
| Stack.RoundDownStart | src/stack_alloc.rs:120-128 | the rounded-down start is top minus the remainder and aligned when the remainder is at most top; otherwise the wrapped index lies past the buffer |
| Stack.AllocStep | src/stack_alloc.rs:113-145 | alloc fails when full; it succeeds iff the remainder is at most top and the block fits; then the start is aligned and at or below top, and top becomes the block's end (possibly lower); high becomes max(high, top); failure changes nothing |
| Stack.GrowStep | src/stack_alloc.rs:160-198 | grow_in_place succeeds iff the new size is larger, the free space covers the growth, the pointer is inside the buffer and the block ends at top; then top grows by the growth; every refusal changes nothing; high is never raised |
| Stack.StackAlloc.constructor | src/stack_alloc.rs:30-36 | new: top 0, high 0 |
| Stack.StackAlloc.Reset | src/stack_alloc.rs:42-44 | the new state is ResetStep's |
| Stack.StackAlloc.ResetTo | src/stack_alloc.rs:50-59 | the new state and result are ResetToStep's (strict test) |
| Stack.StackAlloc.GetMarker | src/stack_alloc.rs:62-64 | the marker is refused now and brings top back from any higher top |
| Stack.StackAlloc.BytesInUse | src/stack_alloc.rs:67-75 | bytes in use never exceed the capacity |
| Stack.StackAlloc.Alloc | src/stack_alloc.rs:113-145 | the new state and result are Stack.AllocStep's |
| Stack.StackAlloc.Dealloc | src/stack_alloc.rs:147-158 | the new state is DeallocStep's |
| Stack.StackAlloc.GrowInPlace | src/stack_alloc.rs:160-198 | the new state and result are Stack.GrowStep's |
| Stack.StackAlloc.ShrinkInPlace | src/stack_alloc.rs:202-209 | shrink_in_place always refuses |
| Stack.Apply | src/stack_alloc.rs:42-209 | every operation keeps the state valid and the buffer, and never lowers high |
| Stack.RunKeepsHighWaterMark | src/stack_alloc.rs:77-82 | over any sequence of operations the high-water mark never decreases, though alloc itself can lower top |
| Stack.AllocOverlapsLiveBlocks | src/stack_alloc.rs:120-138 | with one byte in use, a u32 is placed at offset 0, over the live byte |
| Stack.AllocMayLowerTop | src/stack_alloc.rs:120-137 | with five bytes in use, a zero-size 4-aligned request moves top back to 4 |
| Stack.MisalignedBufferRefusesFirstAlloc | src/stack_alloc.rs:120-143 | over a buffer at an address 2 mod 4, the first u32 request is refused (the index wraps) |
| Stack.CheckSimpleAlloc | src/stack_alloc.rs:241-312 | two u32 allocations in an 8-byte 4-aligned buffer succeed at 0 and 4; the next two fail |
| Stack.CheckInPlaceRealloc | src/stack_alloc.rs:314-336 | both grows succeed and bytes in use end at 0 |
| RawVecs.GrowStep | src/raw_vec.rs:51-83 | from capacity 0, grow allocates one element and gets capacity 1; otherwise it doubles the capacity, and it keeps the block when grow_in_place succeeds; it succeeds iff grow_in_place or the allocation for realloc succeeds; the new block is the allocator's topmost; any failure leaves allocator and buffer unchanged; high is never lowered |
| RawVecs.GrowKeepsCapOk | src/raw_vec.rs:49-65 | the capacity stays 0 or a power of two |
| RawVecs.GrowKeepsLiveBlock | src/raw_vec.rs:63-76 | with the allocator's top aligned for the elements, a successful grow leaves a live aligned block and an aligned top, so the next grow passes grow_in_place's asserts |
| RawVecs.RawVec.constructor | src/raw_vec.rs:33-40 | new: capacity 0; zero-sized elements are refused |
| RawVecs.RawVec.AllocLayout | src/raw_vec.rs:44-47 | the layout covers exactly cap elements, and building it cannot fail |
| RawVecs.RawVec.Grow | src/raw_vec.rs:51-83 | allocator state, buffer and result are RawVecs.GrowStep's; the first old-capacity elements are kept |
| RawVecs.RawVec.Drop | src/raw_vec.rs:87-96 | the block is freed exactly once, with exactly cap elements' bytes, iff cap != 0; otherwise the allocator is untouched |
| RawVecs.Realloc | src/raw_vec.rs:72-76 | the default realloc, as a new allocation followed by freeing the old block |
| RawVecs.ManyPushesGrowInPlace | src/vec2.rs:433-445 | four u32 pushes in 43 bytes grow to 1, 2, 4 elements in place at offset 0; high stays 4 (> 0) while 16 bytes are in use |
| RawVecs.TwoVectorsOneAlloc | src/vec2.rs:447-466 | two interleaved u32 vectors in 56 bytes: first growths at 0 and 4, then v moves to 8 |
| RawVecs.TwoVectorsOneAllocFills | src/vec2.rs:464-482 | w moves to 16, then v to 24 and w to 40, filling the buffer exactly |
| RawVecs.SharedAllocatorMisalignsBuffer | src/raw_vec.rs:51-83 | with one byte in use over an 8-aligned buffer, a u32 vector's first growth gets offset 2, a block that is not live for grow_in_place's alignment assert, so the next growth panics |
| Vecs.InsertThenRemove | src/vec2.rs:134-165 | removing at the index just inserted at returns the inserted element and restores the sequence |
| Vecs.RemoveThenInsert | src/vec2.rs:134-165 | re-inserting a removed element where it was restores the sequence |
| Vecs.ReversePermutes | src/vec2.rs:217-225 | the drop order keeps every element exactly as often as it occurs |
| Vecs.InsertAndRemoveExample | src/vec2.rs:507-528 | the test's insert at 3 and remove at 4 give the expected contents and return 8 |
| Vecs.CopyRight | src/vec2.rs:141-145 | ptr::copy one slot right: the moved range holds the old elements shifted, the rest is unchanged |
| Vecs.CopyLeft | src/vec2.rs:160-162 | ptr::copy one slot left: the moved range holds the old elements shifted, the rest is unchanged |
| Vecs.InsertIntoStorage | src/vec2.rs:140-148 | the storage's first len + 1 slots are the old contents with x inserted at index |
| Vecs.RemoveFromStorage | src/vec2.rs:157-163 | returns the element at index, and the first len - 1 slots are the old contents without it |
| Vecs.RawValIter.constructor | src/vec2.rs:275-280 | the iterator covers exactly the first len slots |
| Vecs.RawValIter.SizeHint | src/vec2.rs:286-291 | both bounds equal the number of elements left |
| Vecs.RawValIter.Next | src/vec2.rs:293-303 | yields the front element and removes it; None iff nothing is left, and then nothing changes |
| Vecs.RawValIter.NextBack | src/vec2.rs:307-316 | yields the back element and removes it; None iff nothing is left |
| Vecs.RawValIter.Exhaust | src/vec2.rs:334 | running next to exhaustion yields every remaining element exactly once, front to back |
| Vecs.Drain.constructor | src/vec2.rs:183-186 | a Drain wraps the iterator |
| Vecs.Drain.Drop | src/vec2.rs:390-395 | dropping a Drain drops every element not yet yielded, once each |
| Vecs.IntoIter.constructor | src/vec2.rs:257-260 | an IntoIter owns the buffer and the iterator |
| Vecs.IntoIter.Drop | src/vec2.rs:331-336 | dropping an IntoIter drops every element not yet yielded, once each, leaving the iterator empty, then frees the block iff there is one |
| Vecs.Vec.constructor | src/vec2.rs:46-51 | new: empty, capacity 0 |
| Vecs.Vec.AsSlice | src/vec2.rs:168-170 | the slice has exactly len elements |
| Vecs.Vec.Push | src/vec2.rs:107-116 | grows only when len == capacity; on success the contents are old + [x]; a failed growth leaves the contents, the buffer and the allocator unchanged |
| Vecs.Vec.Pop | src/vec2.rs:121-130 | None iff empty; otherwise returns the last element, and the contents lose it |
| Vecs.Vec.Insert | src/vec2.rs:134-151 | grows only when full; on success the contents are InsertAt(old, index, x); a failed growth changes nothing |
| Vecs.Vec.Remove | src/vec2.rs:154-165 | returns old[index], and the contents become RemoveAt(old, index) |
| Vecs.Vec.Drain | src/vec2.rs:179-188 | len becomes 0 at once, and the iterator holds exactly the former contents |
| Vecs.Vec.IntoIter | src/vec2.rs:249-262 | the iterator owns the buffer and holds exactly the contents |
| Vecs.PushRun | src/vec2.rs:207-209 | the buffer and allocator after a loop of pushes, each growing a full buffer first and the first failed growth ending the loop; at most as many pushes succeed as were tried |
| Vecs.PushRunWithinCapacity | src/vec2.rs:107-110 | a run of pushes that fits the spare capacity never grows: all succeed and the buffer and allocator are unchanged |
| Vecs.PushRunExtends | src/vec2.rs:207-209 | a run of i successful pushes followed by one more successful push, which grows the buffer exactly when it is full, is the run of i + 1 pushes |
| Vecs.PushRunStops | src/vec2.rs:207-209 | when i successful pushes end on a full buffer whose growth fails, every longer run ends there with i successes |
| Vecs.PushRunAdvance | src/vec2.rs:107-110 | one push after i successful ones: on success the run of i + 1 pushes ends at the new state and the buffer stays a live aligned block; on failure the buffer was full, its growth fails, and every longer run stops there |
| Vecs.Vec.PushAlongRun | src/vec2.rs:207-208 | one push of extend_from_slice: on success it appends and the buffer and allocator are where the run of i + 1 pushes from the starting state ends; on failure nothing changes, the buffer is full, its growth fails, and every longer run stops at this state |
| Vecs.Vec.ExtendFromSlice | src/vec2.rs:194-211 | pushes the elements in order and stops at the first failing push: the contents are old + a prefix of the slice, and the result is Ok iff the whole slice was pushed; the final buffer and allocator, and the number pushed, are what PushRun gives for the old state and the slice length; an Err means the buffer was full and growing it failed; a slice that fits the spare capacity always succeeds and leaves the buffer and the allocator unchanged; the buffer stays a live aligned block |
| Vecs.Vec.Drop | src/vec2.rs:217-225 | every element is dropped exactly once, last first, then the block is freed iff the capacity is not 0 |

## Left out

- Pointers are offsets into the allocator's buffer. `get_block_idx` is the identity on them. Freeing a pointer from another buffer, where the index subtraction would wrap, is not modelled.
- `buf()` (both allocators) reinterprets the buffer as `u32`s and has no behaviour to state.
- The tests' writes and reads through the returned pointers (end of `check_simple_alloc`) are not modelled: the model has no byte contents.
- The allocator is a trait object (`dyn Alloc`) in the source. RawVec and Vec are verified against `LinearAlloc` only, the allocator every vector test uses. The system allocator (`with_system_alloc`) is a foreign call and is omitted.
- Element storage is a Dafny array per buffer, separate from the allocator's bytes. So the model does not show a reset, or a StackAlloc overlap, corrupting elements in a block that is still in use.
- Growing copies the elements into a new array even when the block grows in place. The bytes that Rust keeps are modelled as kept values.
- RawVecs.Realloc: the default `realloc` first retries `grow_in_place`. The retry is omitted because, on the same state, it fails exactly as the first attempt did.
- Linear.LinearAlloc.GrowInPlace: the `assert!`s on caller errors (foreign or freed pointer, misaligned pointer, block too small, shrinking or zero size) are preconditions. A run that breaks them panics, which the model does not represent. `Linear.Apply` returns None there.
- Vecs.Vec.Push: requires that a full buffer is a live, aligned block of the allocator. That is the condition under which `grow_in_place`'s asserts pass; the source panics otherwise. Vecs.Vec.Insert requires the same. The allocator itself can break this condition in ordinary use: a vector that shares a `LinearAlloc` with other users can get a misaligned first block, and its next growth then panics (RawVecs.SharedAllocatorMisalignsBuffer). The model does not cover pushes past that point.
- Vecs.Vec.ExtendFromSlice: requires the buffer to be a live aligned block, and the allocator's next free byte to be aligned for the elements, even when no growth will be needed. That is a sufficient condition for every push to pass `grow_in_place`'s asserts while the vector is the allocator's only user. It is stronger than the source's requirement.
- Vecs.Vec.PushAlongRun: carries the same live-aligned-block precondition as Vecs.Vec.ExtendFromSlice, its only caller, which keeps it as a loop invariant; the push it makes is Vecs.Vec.Push, which needs it only when the buffer is full.
- The error plumbing of `lib.rs` (`Error` and its `From` conversions) is not modelled. Every allocation failure is `AllocErr`. `lib.rs` not declaring `linear_alloc` is not modelled either.
- Lifetimes and borrowing are not enforced. The Vec stays usable while a `Drain` borrows it and after `into_iter` consumes it.
- `RawValIter`'s cursors are element indices, not addresses. So `size_hint` has no division by `size_of::<T>()`. Zero-sized types never reach it, because `RawVec::new` refuses them.
- Drops are methods the caller invokes. `IntoIter.Drop` includes the drop of its `_buf` field. Dropped elements are returned as a sequence instead of running destructors, so there are no `DropMe` counters.
- `as_mut_slice`, `Deref`/`DerefMut` and `ptr()` are not modelled separately: `AsSlice` covers reading the elements. `len`, `capacity`, `high_water_mark` and `RawVec::capacity` are plain accessors without contracts.
- Arithmetic and assertions are those of a release build. Overflow checks that exist only in debug builds, such as StackAlloc's index underflow, are modelled by their wrapping result. `debug_assert!`s, such as StackAlloc's `grow_in_place` check that the new size is larger, are not modelled: the release build goes on to the next test, and the model does the same. The alignment is at most 2^63, and a buffer is at most `isize::MAX` bytes, as Rust guarantees.
- The linear and stack allocators each define their own `Marker` type. The model uses one.
