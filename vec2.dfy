/** Vec: a growable array over a RawVec, with its draining and owning iterators. The first
    `len` slots of the RawVec's storage hold the elements; the rest are uninitialised. */
module Vecs {
  import opened Arena
  import Linear
  import opened RawVecs

  // ----- Sequence specifications -----

  /** The contents after inserting `x` at `i`. */
  function InsertAt<T>(s: seq<T>, i: nat, x: T): seq<T>
    requires i <= |s|
  {
    s[..i] + [x] + s[i..]
  }

  /** The contents after removing the element at `i`. */
  function RemoveAt<T>(s: seq<T>, i: nat): seq<T>
    requires i < |s|
  {
    s[..i] + s[i + 1..]
  }

  /** The order in which popping everything yields the elements: last first. */
  function Reverse<T>(s: seq<T>): seq<T>
    decreases |s|
  {
    if s == [] then [] else [s[|s| - 1]] + Reverse(s[..|s| - 1])
  }

  /** Dropping the last element of `s` after `dropped` keeps the drop order on track. */
  lemma PopLastStep<T>(dropped: seq<T>, s: seq<T>, x: T)
    requires |s| > 0 && x == s[|s| - 1]
    ensures (dropped + [x]) + Reverse(s[..|s| - 1]) == dropped + Reverse(s)
  {
    var rest := Reverse(s[..|s| - 1]);
    assert Reverse(s) == [x] + rest;
    assert (dropped + [x]) + rest == dropped + ([x] + rest);
  }

  /** Pushing the next element of `slice` extends the pushed prefix by one. */
  lemma PushedPrefix<T>(p: seq<T>, slice: seq<T>, i: nat)
    requires i < |slice|
    ensures p + slice[..i + 1] == (p + slice[..i]) + [slice[i]]
  {
    assert slice[..i + 1] == slice[..i] + [slice[i]];
  }

  /** Removing what was just inserted gives back the original sequence and the inserted
      element. */
  lemma InsertThenRemove<T>(s: seq<T>, i: nat, x: T)
    requires i <= |s|
    ensures InsertAt(s, i, x)[i] == x
    ensures RemoveAt(InsertAt(s, i, x), i) == s
  {
    var t := InsertAt(s, i, x);
    assert t[..i] == s[..i];
    assert t[i + 1..] == s[i..];
  }

  /** Inserting a removed element where it was restores the sequence. */
  lemma RemoveThenInsert<T>(s: seq<T>, i: nat)
    requires i < |s|
    ensures InsertAt(RemoveAt(s, i), i, s[i]) == s
  {
    var t := RemoveAt(s, i);
    assert t[..i] == s[..i];
    assert t[i..] == s[i + 1..];
    assert s == s[..i] + [s[i]] + s[i + 1..];
  }

  /** Reversal keeps every element exactly as often as it occurs. */
  lemma {:induction false} ReversePermutes<T>(s: seq<T>)
    ensures |Reverse(s)| == |s| && multiset(Reverse(s)) == multiset(s)
    decreases |s|
  {
    if s != [] {
      var init := s[..|s| - 1];
      ReversePermutes(init);
      assert s == init + [s[|s| - 1]];
    }
  }

  /** check_insert_and_remove: inserting 1001 at 3 into seven even numbers, then removing at
      4, gives back the 8 and the expected contents. */
  lemma InsertAndRemoveExample()
    ensures InsertAt([2, 4, 6, 8, 10, 12, 14], 3, 1001) == [2, 4, 6, 1001, 8, 10, 12, 14]
    ensures RemoveAt([2, 4, 6, 1001, 8, 10, 12, 14], 4) == [2, 4, 6, 1001, 10, 12, 14]
    ensures [2, 4, 6, 1001, 8, 10, 12, 14][4] == 8
  {
    var s := [2, 4, 6, 8, 10, 12, 14];
    assert s[..3] == [2, 4, 6] && s[3..] == [8, 10, 12, 14];
    var t := [2, 4, 6, 1001, 8, 10, 12, 14];
    assert t[..4] == [2, 4, 6, 1001] && t[5..] == [10, 12, 14];
  }

  // ----- Moving elements within the storage (ptr::copy) -----

  /** Moves the `n` elements at `from` one slot to the right. */
  method CopyRight<T>(a: array<T>, from: nat, n: nat)
    requires from + n < a.Length
    modifies a
    ensures forall j :: 0 <= j <= from ==> a[j] == old(a[j])
    ensures forall j :: from < j <= from + n ==> a[j] == old(a[j - 1])
    ensures forall j :: from + n < j < a.Length ==> a[j] == old(a[j])
  {
    var k := n;
    while k > 0
      invariant 0 <= k <= n
      invariant forall j :: 0 <= j <= from + k ==> a[j] == old(a[j])
      invariant forall j :: from + k < j <= from + n ==> a[j] == old(a[j - 1])
      invariant forall j :: from + n < j < a.Length ==> a[j] == old(a[j])
    {
      a[from + k] := a[from + k - 1];
      k := k - 1;
    }
  }

  /** Moves the `n` elements after `to` one slot to the left, onto `to`. */
  method CopyLeft<T>(a: array<T>, to: nat, n: nat)
    requires to + n < a.Length
    modifies a
    ensures forall j :: 0 <= j < to ==> a[j] == old(a[j])
    ensures forall j :: to <= j < to + n ==> a[j] == old(a[j + 1])
    ensures forall j :: to + n <= j < a.Length ==> a[j] == old(a[j])
  {
    var k := 0;
    while k < n
      invariant 0 <= k <= n
      invariant forall j :: 0 <= j < to ==> a[j] == old(a[j])
      invariant forall j :: to <= j < to + k ==> a[j] == old(a[j + 1])
      invariant forall j :: to + k <= j < a.Length ==> a[j] == old(a[j])
    {
      a[to + k] := a[to + k + 1];
      k := k + 1;
    }
  }

  /** The storage part of insert: the elements from `index` move one slot right (when there
      are any) and `x` is written at `index`. */
  method InsertIntoStorage<T>(a: array<T>, len: nat, index: nat, x: T)
    requires index <= len < a.Length
    modifies a
    ensures a[..len + 1] == InsertAt(old(a[..len]), index, x)
  {
    ghost var s := a[..len];
    if index < len {
      CopyRight(a, index, len - index);
    }
    a[index] := x;
    assert a[..len + 1] == s[..index] + [x] + s[index..] by {
      assert forall j :: 0 <= j < index ==> a[j] == s[j];
      assert forall j :: index < j <= len ==> a[j] == s[j - 1];
    }
  }

  /** The storage part of remove: the element at `index` is read out and the `len - 1 - index`
      elements after it move one slot left over it. */
  method RemoveFromStorage<T>(a: array<T>, len: nat, index: nat) returns (corpse: T)
    requires index < len <= a.Length
    modifies a
    ensures corpse == old(a[index])
    ensures a[..len - 1] == RemoveAt(old(a[..len]), index)
  {
    ghost var s := a[..len];
    corpse := a[index];
    CopyLeft(a, index, len - 1 - index);
    assert a[..len - 1] == s[..index] + s[index + 1..] by {
      assert forall j :: 0 <= j < index ==> a[j] == s[j];
      assert forall j :: index <= j < len - 1 ==> a[j] == s[j + 1];
    }
  }

  // ----- The move-out iterator -----

  /** RawValIter: a cursor pair over storage it moves elements out of; `start` is the next
      element from the front and `end` one past the next from the back. */
  class RawValIter<T> {
    const items: array<T>
    var start: nat
    var end: nat

    predicate Valid()
      reads this
    {
      start <= end <= items.Length
    }

    /** The elements not yet yielded, front to back. */
    function Remaining(): seq<T>
      reads this, items
      requires Valid()
    {
      items[start..end]
    }

    /** new: iterates over the first `len` slots. */
    constructor (items: array<T>, len: nat)
      requires len <= items.Length
      ensures Valid() && this.items == items && Remaining() == items[..len]
    {
      this.items := items;
      start := 0;
      end := len;
    }

    /** size_hint: exact, both bounds equal to the number of elements left. */
    function SizeHint(): (r: (nat, Option<nat>))
      reads this, items
      requires Valid()
      ensures r.0 == |Remaining()| && r.1 == Some(r.0)
    {
      (end - start, Some(end - start))
    }

    /** next: the front element, which is then gone; nothing once the cursors meet. */
    method Next() returns (r: Option<T>)
      requires Valid()
      modifies this
      ensures Valid()
      ensures r.None? <==> old(Remaining()) == []
      ensures r.Some? ==> r.value == old(Remaining())[0] && Remaining() == old(Remaining())[1..]
      ensures r.None? ==> Remaining() == old(Remaining())
    {
      if start == end {
        r := None;
      } else {
        var item := items[start];
        start := start + 1;
        r := Some(item);
      }
    }

    /** next_back: the back element, which is then gone; nothing once the cursors meet. */
    method NextBack() returns (r: Option<T>)
      requires Valid()
      modifies this
      ensures Valid()
      ensures r.None? <==> old(Remaining()) == []
      ensures r.Some? ==> r.value == old(Remaining())[|old(Remaining())| - 1]
                          && Remaining() == old(Remaining())[..|old(Remaining())| - 1]
      ensures r.None? ==> Remaining() == old(Remaining())
    {
      if start == end {
        r := None;
      } else {
        end := end - 1;
        r := Some(items[end]);
      }
    }

    /** Runs `next` to exhaustion, as the Drop of Drain and IntoIter do: every remaining
        element is moved out (and dropped) exactly once, front to back. */
    method Exhaust() returns (dropped: seq<T>)
      requires Valid()
      modifies this
      ensures Valid() && Remaining() == []
      ensures dropped == old(Remaining())
    {
      dropped := [];
      while true
        invariant Valid() && dropped + Remaining() == old(Remaining())
        decreases end - start
      {
        var x := Next();
        if x.None? {
          break;
        }
        dropped := dropped + [x.value];
      }
    }
  }

  /** Drain: the iterator `drain` returns; next, next_back and size_hint are those of `iter`. */
  class Drain<T> {
    const iter: RawValIter<T>

    constructor (iter: RawValIter<T>)
      ensures this.iter == iter
    {
      this.iter := iter;
    }

    /** Drop: the elements not yet yielded are dropped, each once. */
    method Drop() returns (dropped: seq<T>)
      requires iter.Valid()
      modifies iter
      ensures dropped == old(iter.Remaining()) && iter.Valid() && iter.Remaining() == []
    {
      dropped := iter.Exhaust();
    }
  }

  /** IntoIter: the iterator `into_iter` returns; it owns the Vec's buffer, and next,
      next_back and size_hint are those of `iter`. */
  class IntoIter<T(0)> {
    const buf: RawVec<T>
    const iter: RawValIter<T>

    constructor (buf: RawVec<T>, iter: RawValIter<T>)
      ensures this.buf == buf && this.iter == iter
    {
      this.buf := buf;
      this.iter := iter;
    }

    /** Drop: the elements not yet yielded are dropped, each once, and then the buffer's
        block goes back to the allocator. */
    method Drop() returns (dropped: seq<T>, freed: Option<Block>)
      requires iter.Valid() && buf.Valid()
      modifies iter, buf.alloc
      ensures dropped == old(iter.Remaining()) && iter.Valid() && iter.Remaining() == []
      ensures buf.alloc.Valid()
      ensures freed.Some? <==> buf.cap != 0
      ensures freed.Some? ==>
                freed.value == Block(buf.ptr, buf.cap * buf.elem.size)
                && buf.alloc.Abs()
                   == DeallocStep(old(buf.alloc.Abs()), buf.ptr, buf.cap * buf.elem.size)
      ensures freed.None? ==> buf.alloc.Abs() == old(buf.alloc.Abs())
    {
      dropped := iter.Exhaust();
      freed := buf.Drop();
    }
  }

  // ----- The vector -----

  /** The buffer and allocator after `n` pushes onto a vector of length `len` whose buffer
      is `b`, and how many of the pushes succeeded: a push on a full buffer first grows it
      (GrowStep), and the first growth that fails stops the run with nothing changed. */
  ghost function PushRun(a: Arena, b: Buf, elem: Layout, len: nat, n: nat): (r: (Arena, Buf, nat))
    requires a.Valid() && ElemLayout(elem) && b.cap * elem.size <= a.capacity && len <= b.cap
    requires LiveBlock(a, b, elem) && TopAligned(a, elem)
    ensures r.2 <= n
    decreases n, 1
  {
    if n == 0 then (a, b, 0)
    else if len < b.cap then
      var rest := PushRun(a, b, elem, len + 1, n - 1);
      (rest.0, rest.1, rest.2 + 1)
    else PushRunGrow(a, b, elem, len, n)
  }

  /** A run whose first push finds the buffer full: that push grows it, and the run stops if
      growing fails. */
  ghost function PushRunGrow(a: Arena, b: Buf, elem: Layout, len: nat, n: nat): (r: (Arena, Buf, nat))
    requires a.Valid() && ElemLayout(elem) && b.cap * elem.size <= a.capacity && len <= b.cap
    requires LiveBlock(a, b, elem) && TopAligned(a, elem) && n > 0
    ensures r.2 <= n
    decreases n, 0
  {
    var g := GrowStep(a, b, elem);
    if g.2.Err? then (a, b, 0)
    else
      GrowKeepsLiveBlock(a, b, elem);
      var rest := PushRun(g.0, g.1, elem, len + 1, n - 1);
      (rest.0, rest.1, rest.2 + 1)
  }


  /** A run that fits the spare capacity never grows: every push succeeds and the buffer and
      the allocator stay as they are. */
  lemma {:induction false} PushRunWithinCapacity(a: Arena, b: Buf, elem: Layout, len: nat, n: nat)
    requires a.Valid() && ElemLayout(elem) && b.cap * elem.size <= a.capacity && len <= b.cap
    requires LiveBlock(a, b, elem) && TopAligned(a, elem)
    requires len + n <= b.cap
    ensures PushRun(a, b, elem, len, n).0 == a && PushRun(a, b, elem, len, n).1 == b
    ensures PushRun(a, b, elem, len, n).2 == n
    decreases n
  {
    if n > 0 {
      PushRunWithinCapacity(a, b, elem, len + 1, n - 1);
    }
  }

  /** A run of `i` pushes that all succeeded, followed by one more push from where it ended that
      also succeeds, is the run of i + 1 pushes. */
  lemma {:induction false} PushRunExtends(a: Arena, b: Buf, elem: Layout, len: nat, i: nat,
                                          a1: Arena, b1: Buf, a2: Arena, b2: Buf)
    requires a.Valid() && ElemLayout(elem) && b.cap * elem.size <= a.capacity && len <= b.cap
    requires LiveBlock(a, b, elem) && TopAligned(a, elem)
    requires a1.Valid() && b1.cap * elem.size <= a1.capacity && LiveBlock(a1, b1, elem)
    requires PushRun(a, b, elem, len, i).0 == a1 && PushRun(a, b, elem, len, i).1 == b1
    requires PushRun(a, b, elem, len, i).2 == i
    requires len + i < b1.cap ==> a2 == a1 && b2 == b1
    requires len + i == b1.cap ==> GrowsTo(a1, b1, elem, a2, b2, Ok(()))
    ensures PushRun(a, b, elem, len, i + 1).0 == a2 && PushRun(a, b, elem, len, i + 1).1 == b2
    ensures PushRun(a, b, elem, len, i + 1).2 == i + 1
    decreases i, 1
  {
    if i == 0 {
      PushRunOne(a, b, elem, len, a2, b2);
    } else if len < b.cap {
      PushRunExtendsSpare(a, b, elem, len, i, a1, b1, a2, b2);
    } else {
      PushRunExtendsGrow(a, b, elem, len, i, a1, b1, a2, b2);
    }
  }

  /** PushRunExtends when the run's first push finds spare capacity. */
  lemma {:induction false} PushRunExtendsSpare(a: Arena, b: Buf, elem: Layout, len: nat, i: nat,
                                               a1: Arena, b1: Buf, a2: Arena, b2: Buf)
    requires a.Valid() && ElemLayout(elem) && b.cap * elem.size <= a.capacity && len <= b.cap
    requires LiveBlock(a, b, elem) && TopAligned(a, elem)
    requires a1.Valid() && b1.cap * elem.size <= a1.capacity && LiveBlock(a1, b1, elem)
    requires PushRun(a, b, elem, len, i).0 == a1 && PushRun(a, b, elem, len, i).1 == b1
    requires PushRun(a, b, elem, len, i).2 == i
    requires len + i < b1.cap ==> a2 == a1 && b2 == b1
    requires len + i == b1.cap ==> GrowsTo(a1, b1, elem, a2, b2, Ok(()))
    requires i > 0 && len < b.cap
    ensures PushRun(a, b, elem, len, i + 1).0 == a2 && PushRun(a, b, elem, len, i + 1).1 == b2
    ensures PushRun(a, b, elem, len, i + 1).2 == i + 1
    decreases i, 0
  {
    PushRunExtends(a, b, elem, len + 1, i - 1, a1, b1, a2, b2);
  }

  /** PushRunExtends when the run's first push finds the buffer full and grows it. */
  lemma {:induction false} PushRunExtendsGrow(a: Arena, b: Buf, elem: Layout, len: nat, i: nat,
                                              a1: Arena, b1: Buf, a2: Arena, b2: Buf)
    requires a.Valid() && ElemLayout(elem) && b.cap * elem.size <= a.capacity && len <= b.cap
    requires LiveBlock(a, b, elem) && TopAligned(a, elem)
    requires a1.Valid() && b1.cap * elem.size <= a1.capacity && LiveBlock(a1, b1, elem)
    requires PushRun(a, b, elem, len, i).0 == a1 && PushRun(a, b, elem, len, i).1 == b1
    requires PushRun(a, b, elem, len, i).2 == i
    requires len + i < b1.cap ==> a2 == a1 && b2 == b1
    requires len + i == b1.cap ==> GrowsTo(a1, b1, elem, a2, b2, Ok(()))
    requires i > 0 && len == b.cap
    ensures PushRun(a, b, elem, len, i + 1).0 == a2 && PushRun(a, b, elem, len, i + 1).1 == b2
    ensures PushRun(a, b, elem, len, i + 1).2 == i + 1
    decreases i, 0
  {
    GrowKeepsLiveBlock(a, b, elem);
    var g := GrowStep(a, b, elem);
    PushRunExtends(g.0, g.1, elem, len + 1, i - 1, a1, b1, a2, b2);
  }

  /** A single push: the run of one push ends where that push does. */
  lemma PushRunOne(a: Arena, b: Buf, elem: Layout, len: nat, a2: Arena, b2: Buf)
    requires a.Valid() && ElemLayout(elem) && b.cap * elem.size <= a.capacity && len <= b.cap
    requires LiveBlock(a, b, elem) && TopAligned(a, elem)
    requires len < b.cap ==> a2 == a && b2 == b
    requires len == b.cap ==> GrowsTo(a, b, elem, a2, b2, Ok(()))
    ensures PushRun(a, b, elem, len, 1).0 == a2 && PushRun(a, b, elem, len, 1).1 == b2
    ensures PushRun(a, b, elem, len, 1).2 == 1
  {
  }

  /** A run of `i` pushes that all succeeded and ended on a full buffer that cannot grow: every
      longer run stops there. */
  lemma {:induction false} PushRunStops(a: Arena, b: Buf, elem: Layout, len: nat, i: nat, m: nat,
                                        a1: Arena, b1: Buf)
    requires a.Valid() && ElemLayout(elem) && b.cap * elem.size <= a.capacity && len <= b.cap
    requires LiveBlock(a, b, elem) && TopAligned(a, elem)
    requires a1.Valid() && b1.cap * elem.size <= a1.capacity && LiveBlock(a1, b1, elem)
    requires PushRun(a, b, elem, len, i).0 == a1 && PushRun(a, b, elem, len, i).1 == b1
    requires PushRun(a, b, elem, len, i).2 == i && i < m
    requires len + i == b1.cap && GrowStep(a1, b1, elem).2.Err?
    ensures PushRun(a, b, elem, len, m).0 == a1 && PushRun(a, b, elem, len, m).1 == b1
    ensures PushRun(a, b, elem, len, m).2 == i
    decreases i, 1
  {
    if i == 0 {
      PushRunStopsAtOnce(a, b, elem, len, m);
    } else if len < b.cap {
      PushRunStopsSpare(a, b, elem, len, i, m, a1, b1);
    } else {
      PushRunStopsGrow(a, b, elem, len, i, m, a1, b1);
    }
  }

  /** A run whose first push finds a full buffer that cannot grow stops at once. */
  lemma PushRunStopsAtOnce(a: Arena, b: Buf, elem: Layout, len: nat, m: nat)
    requires a.Valid() && ElemLayout(elem) && b.cap * elem.size <= a.capacity && len <= b.cap
    requires LiveBlock(a, b, elem) && TopAligned(a, elem)
    requires len == b.cap && GrowStep(a, b, elem).2.Err? && 0 < m
    ensures PushRun(a, b, elem, len, m).0 == a && PushRun(a, b, elem, len, m).1 == b
    ensures PushRun(a, b, elem, len, m).2 == 0
  {
  }

  /** PushRunStops when the run's first push finds spare capacity. */
  lemma {:induction false} PushRunStopsSpare(a: Arena, b: Buf, elem: Layout, len: nat, i: nat, m: nat,
                                             a1: Arena, b1: Buf)
    requires a.Valid() && ElemLayout(elem) && b.cap * elem.size <= a.capacity && len <= b.cap
    requires LiveBlock(a, b, elem) && TopAligned(a, elem)
    requires a1.Valid() && b1.cap * elem.size <= a1.capacity && LiveBlock(a1, b1, elem)
    requires PushRun(a, b, elem, len, i).0 == a1 && PushRun(a, b, elem, len, i).1 == b1
    requires PushRun(a, b, elem, len, i).2 == i && i < m
    requires len + i == b1.cap && GrowStep(a1, b1, elem).2.Err?
    requires i > 0 && len < b.cap
    ensures PushRun(a, b, elem, len, m).0 == a1 && PushRun(a, b, elem, len, m).1 == b1
    ensures PushRun(a, b, elem, len, m).2 == i
    decreases i, 0
  {
    PushRunStops(a, b, elem, len + 1, i - 1, m - 1, a1, b1);
  }

  /** PushRunStops when the run's first push finds the buffer full and grows it. */
  lemma {:induction false} PushRunStopsGrow(a: Arena, b: Buf, elem: Layout, len: nat, i: nat, m: nat,
                                            a1: Arena, b1: Buf)
    requires a.Valid() && ElemLayout(elem) && b.cap * elem.size <= a.capacity && len <= b.cap
    requires LiveBlock(a, b, elem) && TopAligned(a, elem)
    requires a1.Valid() && b1.cap * elem.size <= a1.capacity && LiveBlock(a1, b1, elem)
    requires PushRun(a, b, elem, len, i).0 == a1 && PushRun(a, b, elem, len, i).1 == b1
    requires PushRun(a, b, elem, len, i).2 == i && i < m
    requires len + i == b1.cap && GrowStep(a1, b1, elem).2.Err?
    requires i > 0 && len == b.cap
    ensures PushRun(a, b, elem, len, m).0 == a1 && PushRun(a, b, elem, len, m).1 == b1
    ensures PushRun(a, b, elem, len, m).2 == i
    decreases i, 0
  {
    GrowKeepsLiveBlock(a, b, elem);
    var g := GrowStep(a, b, elem);
    PushRunStops(g.0, g.1, elem, len + 1, i - 1, m - 1, a1, b1);
  }


  /** One push of a run, seen from where the first `i` pushes ended: on success the run of
      i + 1 pushes ends where it does and the buffer is still a live aligned block; on failure
      the buffer was full, growing it fails, and every run of `m` pushes stops there. */
  lemma PushRunAdvance(a: Arena, b: Buf, elem: Layout, len: nat, i: nat, m: nat,
                       a1: Arena, b1: Buf, a2: Arena, b2: Buf, r: Result<(), AllocErr>)
    requires a.Valid() && ElemLayout(elem) && b.cap * elem.size <= a.capacity && len <= b.cap
    requires LiveBlock(a, b, elem) && TopAligned(a, elem)
    requires a1.Valid() && b1.cap * elem.size <= a1.capacity && len + i <= b1.cap
    requires LiveBlock(a1, b1, elem) && TopAligned(a1, elem)
    requires PushRun(a, b, elem, len, i).0 == a1 && PushRun(a, b, elem, len, i).1 == b1
    requires PushRun(a, b, elem, len, i).2 == i && i < m
    requires len + i < b1.cap ==> r.Ok? && a2 == a1 && b2 == b1
    requires len + i == b1.cap ==> GrowsTo(a1, b1, elem, a2, b2, r)
    ensures r.Ok? ==> LiveBlock(a2, b2, elem) && TopAligned(a2, elem)
    ensures r.Ok? ==> PushRun(a, b, elem, len, i + 1).0 == a2 && PushRun(a, b, elem, len, i + 1).1 == b2
                      && PushRun(a, b, elem, len, i + 1).2 == i + 1
    ensures r.Err? ==> len + i == b1.cap && GrowStep(a1, b1, elem).2.Err?
                       && PushRun(a, b, elem, len, m).0 == a1 && PushRun(a, b, elem, len, m).1 == b1
                       && PushRun(a, b, elem, len, m).2 == i
  {
    if r.Err? {
      PushRunStops(a, b, elem, len, i, m, a1, b1);
    } else {
      if len + i == b1.cap {
        GrowKeepsLiveBlock(a1, b1, elem);
      }
      PushRunExtends(a, b, elem, len, i, a1, b1, a2, b2);
    }
  }

  class Vec<T(0)> {
    const buf: RawVec<T>
    var len: nat

    predicate Valid()
      reads this, buf, buf.alloc
    {
      buf.Valid() && len <= buf.cap
    }

    /** new: empty, with no block yet. */
    constructor (alloc: Linear.LinearAlloc, elem: Layout)
      requires alloc.Valid() && ElemLayout(elem)
      ensures Valid() && fresh(buf) && buf.alloc == alloc && buf.elem == elem
      ensures len == 0 && Capacity() == 0
    {
      buf := new RawVec(alloc, elem);
      len := 0;
    }

    function Capacity(): nat
      reads this, buf
    {
      buf.cap
    }

    function Len(): nat
      reads this
    {
      len
    }

    /** as_slice: the elements, in order. */
    function AsSlice(): (s: seq<T>)
      reads this, buf, buf.data
      requires len <= buf.data.Length
      ensures |s| == Len()
    {
      buf.data[..len]
    }

    /** What grow needs when the buffer is full: that its block is live in the allocator. */
    predicate CanGrow()
      reads this, buf, buf.alloc
      requires Valid()
    {
      len == buf.cap ==> LiveBlock(buf.alloc.Abs(), buf.Abs(), buf.elem)
    }

    /** push: grows only when full; on success `x` is appended, and a failed growth leaves
        the elements, the buffer and the allocator as they were. */
    method Push(x: T) returns (r: Result<(), AllocErr>)
      requires Valid() && CanGrow()
      modifies this, buf, buf.alloc, buf.data
      ensures Valid()
      ensures r.Ok? ==> AsSlice() == old(AsSlice()) + [x]
      ensures r.Err? ==> AsSlice() == old(AsSlice())
      ensures buf.data == old(buf.data) || fresh(buf.data)
      ensures old(len) < old(buf.cap) ==>
                r.Ok? && buf.Abs() == old(buf.Abs()) && buf.alloc.Abs() == old(buf.alloc.Abs())
      ensures old(len) == old(buf.cap) ==>
                GrowsTo(old(buf.alloc.Abs()), old(buf.Abs()), buf.elem,
                        buf.alloc.Abs(), buf.Abs(), r)
    {
      if len == buf.cap {
        var g := buf.Grow();
        if g.Err? {
          return Err(AllocErr);
        }
      }
      buf.data[len] := x;
      len := len + 1;
      r := Ok(());
    }

    /** pop: nothing when empty; otherwise the last element, which is then gone. */
    method Pop() returns (r: Option<T>)
      requires Valid()
      modifies this
      ensures Valid()
      ensures r.None? <==> old(len) == 0
      ensures r.Some? ==> r.value == old(AsSlice())[old(len) - 1]
                          && AsSlice() == old(AsSlice())[..old(len) - 1]
      ensures r.None? ==> len == old(len)
    {
      if len == 0 {
        r := None;
      } else {
        len := len - 1;
        r := Some(buf.data[len]);
      }
    }

    /** insert: grows only when full; on success `x` sits at `index` with the later
        elements shifted right, and a failed growth changes nothing. */
    method Insert(index: nat, x: T) returns (r: Result<(), AllocErr>)
      requires Valid() && CanGrow() && index <= len
      modifies this, buf, buf.alloc, buf.data
      ensures Valid()
      ensures r.Ok? ==> AsSlice() == InsertAt(old(AsSlice()), index, x)
      ensures r.Err? ==> AsSlice() == old(AsSlice())
      ensures buf.data == old(buf.data) || fresh(buf.data)
      ensures old(len) < old(buf.cap) ==>
                r.Ok? && buf.Abs() == old(buf.Abs()) && buf.alloc.Abs() == old(buf.alloc.Abs())
      ensures old(len) == old(buf.cap) ==>
                GrowsTo(old(buf.alloc.Abs()), old(buf.Abs()), buf.elem,
                        buf.alloc.Abs(), buf.Abs(), r)
    {
      if len == buf.cap {
        var g := buf.Grow();
        if g.Err? {
          return Err(AllocErr);
        }
      }
      InsertIntoStorage(buf.data, len, index, x);
      len := len + 1;
      r := Ok(());
    }

    /** remove: the element at `index`, with the later elements shifted left over it. */
    method Remove(index: nat) returns (corpse: T)
      requires Valid() && index < len
      modifies this, buf.data
      ensures Valid()
      ensures corpse == old(AsSlice())[index]
      ensures AsSlice() == RemoveAt(old(AsSlice()), index)
    {
      corpse := RemoveFromStorage(buf.data, len, index);
      len := len - 1;
    }

    /** drain: the Vec is emptied at once, and the returned iterator yields the former
        elements. */
    method Drain() returns (d: Drain<T>)
      requires Valid()
      modifies this
      ensures Valid() && len == 0
      ensures fresh(d) && fresh(d.iter) && d.iter.Valid() && d.iter.Remaining() == old(AsSlice())
    {
      var iter := new RawValIter(buf.data, len);
      len := 0;
      d := new Drain(iter);
    }

    /** into_iter: an iterator that owns the buffer and yields the elements. */
    method IntoIter() returns (it: IntoIter<T>)
      requires Valid()
      ensures fresh(it) && fresh(it.iter) && it.buf == buf
      ensures it.iter.Valid() && it.iter.Remaining() == AsSlice()
    {
      var iter := new RawValIter(buf.data, len);
      it := new IntoIter(buf, iter);
    }

    /** One push of extend_from_slice's loop, after `i` pushes of a run that started from the
        allocator `a0`, the buffer `b0` and the length `len0`: on success the element is
        appended and the buffer and allocator are where the run of i + 1 pushes ends; on
        failure nothing changes, the buffer is full, growing it fails, and so every run of `m`
        pushes stops here. */
    method PushAlongRun(x: T, ghost a0: Arena, ghost b0: Buf, ghost len0: nat, ghost i: nat, ghost m: nat)
      returns (r: Result<(), AllocErr>)
      requires Valid() && len == len0 + i && i < m
      requires LiveBlock(buf.alloc.Abs(), buf.Abs(), buf.elem) && TopAligned(buf.alloc.Abs(), buf.elem)
      requires a0.Valid() && b0.cap * buf.elem.size <= a0.capacity && len0 <= b0.cap
      requires LiveBlock(a0, b0, buf.elem) && TopAligned(a0, buf.elem)
      requires PushRun(a0, b0, buf.elem, len0, i).0 == buf.alloc.Abs()
      requires PushRun(a0, b0, buf.elem, len0, i).1 == buf.Abs()
      requires PushRun(a0, b0, buf.elem, len0, i).2 == i
      modifies this, buf, buf.alloc, buf.data
      ensures Valid() && (buf.data == old(buf.data) || fresh(buf.data))
      ensures LiveBlock(buf.alloc.Abs(), buf.Abs(), buf.elem) && TopAligned(buf.alloc.Abs(), buf.elem)
      ensures r.Ok? ==> AsSlice() == old(AsSlice()) + [x] && len == old(len) + 1
                        && PushRun(a0, b0, buf.elem, len0, i + 1).0 == buf.alloc.Abs()
                        && PushRun(a0, b0, buf.elem, len0, i + 1).1 == buf.Abs()
                        && PushRun(a0, b0, buf.elem, len0, i + 1).2 == i + 1
      ensures r.Err? ==> AsSlice() == old(AsSlice()) && len == old(len) == buf.cap
                         && buf.Abs() == old(buf.Abs()) && buf.alloc.Abs() == old(buf.alloc.Abs())
                         && GrowStep(buf.alloc.Abs(), buf.Abs(), buf.elem).2.Err?
                         && PushRun(a0, b0, buf.elem, len0, m).0 == buf.alloc.Abs()
                         && PushRun(a0, b0, buf.elem, len0, m).1 == buf.Abs()
                         && PushRun(a0, b0, buf.elem, len0, m).2 == i
    {
      ghost var a1, b1 := buf.alloc.Abs(), buf.Abs();
      r := Push(x);
      PushRunAdvance(a0, b0, buf.elem, len0, i, m, a1, b1, buf.alloc.Abs(), buf.Abs(), r);
    }

    /** extend_from_slice: pushes the elements in order and stops at the first push that
        fails, keeping the ones already pushed. The buffer and the allocator end as PushRun
        says: they change only through the growths of the pushes. A push fails only when the
        buffer is full and growing it fails, so a slice that fits the spare capacity always
        succeeds without touching the buffer or the allocator. */
    method ExtendFromSlice(slice: seq<T>) returns (r: Result<(), AllocErr>)
      requires Valid()
      requires LiveBlock(buf.alloc.Abs(), buf.Abs(), buf.elem) && TopAligned(buf.alloc.Abs(), buf.elem)
      modifies this, buf, buf.alloc, buf.data
      ensures Valid() && old(len) <= len <= old(len) + |slice|
      ensures AsSlice() == old(AsSlice()) + slice[..len - old(len)]
      ensures r.Ok? <==> len == old(len) + |slice|
      ensures LiveBlock(buf.alloc.Abs(), buf.Abs(), buf.elem) && TopAligned(buf.alloc.Abs(), buf.elem)
      ensures r.Err? ==> len == buf.cap && GrowStep(buf.alloc.Abs(), buf.Abs(), buf.elem).2.Err?
      ensures old(len) + |slice| <= old(buf.cap) ==>
                r.Ok? && buf.Abs() == old(buf.Abs()) && buf.alloc.Abs() == old(buf.alloc.Abs())
      ensures var run := PushRun(old(buf.alloc.Abs()), old(buf.Abs()), buf.elem, old(len), |slice|);
              buf.alloc.Abs() == run.0 && buf.Abs() == run.1 && len == old(len) + run.2
    {
      ghost var s0, a0, b0, len0 := AsSlice(), buf.alloc.Abs(), buf.Abs(), len;
      if len + |slice| <= buf.cap {
        PushRunWithinCapacity(a0, b0, buf.elem, len, |slice|);
      }
      var i := 0;
      while i < |slice|
        invariant 0 <= i <= |slice|
        invariant Valid() && len == len0 + i
        invariant AsSlice() == s0 + slice[..i]
        invariant buf.data == old(buf.data) || fresh(buf.data)
        invariant LiveBlock(buf.alloc.Abs(), buf.Abs(), buf.elem) && TopAligned(buf.alloc.Abs(), buf.elem)
        invariant PushRun(a0, b0, buf.elem, len0, i).0 == buf.alloc.Abs()
        invariant PushRun(a0, b0, buf.elem, len0, i).1 == buf.Abs()
        invariant PushRun(a0, b0, buf.elem, len0, i).2 == i
      {
        var pushed := PushAlongRun(slice[i], a0, b0, len0, i, |slice|);
        if pushed.Err? {
          return Err(AllocErr);
        }
        PushedPrefix(s0, slice, i);
        i := i + 1;
      }
      r := Ok(());
    }

    /** Drop: when there is a buffer, every element is popped and dropped, last first, and
        then the block goes back to the allocator exactly once. */
    method Drop() returns (dropped: seq<T>, freed: Option<Block>)
      requires Valid()
      modifies this, buf.alloc
      ensures dropped == Reverse(old(AsSlice()))
      ensures buf.alloc.Valid()
      ensures freed.Some? <==> buf.cap != 0
      ensures freed.Some? ==>
                freed.value == Block(buf.ptr, buf.cap * buf.elem.size)
                && buf.alloc.Abs()
                   == DeallocStep(old(buf.alloc.Abs()), buf.ptr, buf.cap * buf.elem.size)
      ensures freed.None? ==> buf.alloc.Abs() == old(buf.alloc.Abs())
    {
      dropped := [];
      if Capacity() != 0 {
        while true
          invariant Valid() && buf.alloc.Abs() == old(buf.alloc.Abs())
          invariant dropped + Reverse(AsSlice()) == Reverse(old(AsSlice()))
          decreases len
        {
          ghost var s := AsSlice();
          var x := Pop();
          if x.None? {
            break;
          }
          PopLastStep(dropped, s, x.value);
          dropped := dropped + [x.value];
        }
      }
      freed := buf.Drop();
    }
  }
}
