/**
 * The bump allocator of src/bump.c and the growing slices of src/koopaext.c on top of it.
 */
module Heap {
  import opened Words

  const ALIGNMENT: nat := 16
  const WORD: nat := 8

  /** A byte of memory: byte k of a stored word v. */
  datatype Byte = Piece(v: int, k: nat)

  /** An allocation: its address, as an offset into the buffer, and the size asked for. */
  datatype Block = Block(start: nat, size: nat)

  predicate Aligned(x: int) { x % ALIGNMENT == 0 }

  /** The macro `aligned`: rounds down to a multiple of the alignment. */
  function Down(x: int): (r: int)
    ensures Aligned(r) && r <= x < r + ALIGNMENT
  {
    x / ALIGNMENT * ALIGNMENT
  }

  /** Where the pointer is after a request, None if there is no room: the block as high as its alignment lets it be
      below the last one, and its header below that. */
  function PtrAfter(ptr: nat, size: nat): Option<nat>
  {
    if Down(ptr - size) <= ALIGNMENT then None else Some(Down(ptr - size) - ALIGNMENT)
  }

  lemma RoomAbove(x: int, y: int)
    requires Aligned(x) && Aligned(y) && x + ALIGNMENT + WORD <= y
    ensures x + ALIGNMENT + 2 * WORD <= y
  {
  }

  lemma AlignedBelow(x: int)
    requires Aligned(x)
    ensures Aligned(x - ALIGNMENT)
    ensures x > ALIGNMENT ==> x - ALIGNMENT >= ALIGNMENT
  {
  }

  /** A word's bytes stand at p. */
  predicate WordAt(m: seq<Byte>, p: nat, v: int)
  {
    p + WORD <= |m| && forall k: nat :: k < WORD ==> m[p + k] == Piece(v, k)
  }

  /** Blocks lie below each other, each with its size in front of it, aligned, and above the free space. */
  predicate Laid(m: seq<Byte>, ptr: nat, blocks: seq<Block>)
  {
    && (forall i :: 0 <= i < |blocks| ==>
          && Aligned(blocks[i].start)
          && ptr + ALIGNMENT <= blocks[i].start && blocks[i].start + blocks[i].size <= |m|
          && WordAt(m, blocks[i].start - ALIGNMENT, blocks[i].size))
    && (forall i, j :: 0 <= i < j < |blocks| ==> blocks[j].start + blocks[j].size + ALIGNMENT <= blocks[i].start)
  }

  /** Memory from p up is the same. */
  predicate SameFrom(m: seq<Byte>, n: seq<Byte>, p: nat)
  {
    |n| == |m| && forall i :: p <= i < |m| ==> n[i] == m[i]
  }

  /** A block put below the others leaves them laid. */
  lemma LaidBelow(m: seq<Byte>, n: seq<Byte>, ptr: nat, blocks: seq<Block>, a: nat, size: nat)
    requires Laid(m, ptr, blocks) && SameFrom(m, n, ptr) && ALIGNMENT <= a && Aligned(a)
    requires a + size <= ptr <= |m| && WordAt(n, a - ALIGNMENT, size)
    ensures Laid(n, a - ALIGNMENT, blocks + [Block(a, size)])
  {
    hide Aligned;
    var more := blocks + [Block(a, size)];
    forall i | 0 <= i < |blocks| ensures WordAt(n, blocks[i].start - ALIGNMENT, blocks[i].size) {
      assert WordAt(m, blocks[i].start - ALIGNMENT, blocks[i].size);
    }
  }

  class Bump {
    const buf: array<Byte>
    var ptr: nat
    ghost var blocks: seq<Block>       // every allocation so far, oldest first

    /** The pointer word itself is the first of the buffer: nothing else is ever there. */
    ghost predicate Valid()
      reads this, buf
    {
      && Aligned(buf.Length) && Aligned(ptr) && ALIGNMENT <= ptr <= buf.Length
      && Laid(buf[..], ptr, blocks)
    }

    /** bump_new */
    constructor (size: nat)
      requires size > 0 && Aligned(size)
      ensures Valid() && fresh(buf) && buf.Length == size && blocks == [] && ptr == size
    {
      buf := new Byte[size](i => Piece(0, 0));
      ptr := size;
      blocks := [];
    }

    /** bump_malloc; None if its assertion fails */
    method Malloc(size: nat) returns (alloc: Option<nat>)
      requires Valid()
      modifies this, buf
      ensures Valid()
      ensures alloc.None? <==> Down(old(ptr) - size) <= ALIGNMENT
      ensures alloc.None? ==> blocks == old(blocks) && ptr == old(ptr) && buf[..] == old(buf[..])
      ensures alloc.Some? ==> alloc.value == Down(old(ptr) - size) && PtrAfter(old(ptr), size) == Some(ptr)
      ensures alloc.Some? ==> blocks == old(blocks) + [Block(alloc.value, size)] && ptr == alloc.value - ALIGNMENT
      ensures alloc.Some? ==> alloc.value + size <= old(ptr) && WordAt(buf[..], ptr, size)
      ensures SameFrom(old(buf[..]), buf[..], old(ptr))
    {
      hide Aligned, Down, Laid, WordAt;
      var a := Down(ptr - size);
      AlignedBelow(a);
      if a - ALIGNMENT <= 0 {
        return None;
      }
      ghost var was, before := buf[..], ptr;
      ptr := a - ALIGNMENT;
      WriteWord(ptr, size);
      LaidBelow(was, buf[..], before, blocks, a, size);
      blocks := blocks + [Block(a, size)];
      alloc := Some(a);
    }

    /** Eight bytes at p. */
    method WriteWord(p: nat, v: int)
      requires p + WORD <= buf.Length
      modifies buf
      ensures WordAt(buf[..], p, v)
      ensures forall i :: 0 <= i < buf.Length && !(p <= i < p + WORD) ==> buf[i] == old(buf[i])
    {
      for k := 0 to WORD
        invariant forall i :: 0 <= i < buf.Length ==> buf[i] == if p <= i < p + k then Piece(v, i - p) else old(buf[i])
      {
        buf[p + k] := Piece(v, k);
      }
    }

    /** bump_realloc: copies as many bytes as the new block has, whatever the old one had */
    method Realloc(p: nat, size: nat) returns (alloc: Option<nat>)
      requires Valid() && ptr + ALIGNMENT <= p && p + size <= buf.Length
      modifies this, buf
      ensures Valid()
      ensures alloc.None? <==> Down(old(ptr) - size) <= ALIGNMENT
      ensures alloc.None? ==> blocks == old(blocks) && ptr == old(ptr) && buf[..] == old(buf[..])
      ensures alloc.Some? ==> alloc.value == Down(old(ptr) - size) && PtrAfter(old(ptr), size) == Some(ptr)
      ensures alloc.Some? ==> blocks == old(blocks) + [Block(alloc.value, size)] && ptr == alloc.value - ALIGNMENT
      ensures alloc.Some? ==> alloc.value + size <= old(ptr)
      ensures alloc.Some? ==> buf[alloc.value..alloc.value + size] == old(buf[p..p + size])
      ensures SameFrom(old(buf[..]), buf[..], old(ptr))
    {
      hide Aligned, Down, Laid;
      alloc := Malloc(size);
      if alloc.None? {
        return;
      }
      var a := alloc.value;
      assert buf[..][a - ALIGNMENT + 0] == Piece(size, 0);
      ghost var made := buf[..];
      Copy(a, p, buf[a - ALIGNMENT].v);
      DataFree(made, buf[..], ptr, blocks, a, size);
      assert made[p..p + size] == old(buf[p..p + size]);
    }

    /** memcpy to a lower address */
    method Copy(a: nat, p: nat, n: nat)
      requires a + n <= p && p + n <= buf.Length
      modifies buf
      ensures buf[a..a + n] == old(buf[p..p + n])
      ensures forall i :: 0 <= i < buf.Length && !(a <= i < a + n) ==> buf[i] == old(buf[i])
    {
      var k := 0;
      while k < n
        invariant 0 <= k <= n
        invariant forall i :: 0 <= i < buf.Length && !(a <= i < a + k) ==> buf[i] == old(buf[i])
        invariant buf[a..a + k] == old(buf[p..p + k])
      {
        buf[a + k] := buf[p + k];
        k := k + 1;
        assert buf[a..a + k] == buf[a..a + k - 1] + [buf[a + k - 1]];
        assert old(buf[p..p + k]) == old(buf[p..p + k - 1]) + [old(buf[p + k - 1])];
      }
    }

    /** Writing a word into the newest block. */
    method StoreInLast(p: nat, v: int)
      requires Valid() && blocks != []
      requires var b := blocks[|blocks| - 1]; b.start == ptr + ALIGNMENT && b.start <= p && p + WORD <= b.start + b.size
      modifies buf
      ensures Valid() && WordAt(buf[..], p, v)
      ensures forall i :: 0 <= i < buf.Length && !(p <= i < p + WORD) ==> buf[i] == old(buf[i])
    {
      ghost var was := buf[..];
      ghost var b := blocks[|blocks| - 1];
      WriteWord(p, v);
      DataFree(was, buf[..], ptr, blocks, b.start, b.size);
    }
  }

  /** The data of the newest block is nobody's header. */
  lemma DataFree(m: seq<Byte>, n: seq<Byte>, ptr: nat, blocks: seq<Block>, a: nat, size: nat)
    requires Laid(m, ptr, blocks) && blocks != [] && blocks[|blocks| - 1] == Block(a, size) && a == ptr + ALIGNMENT
    requires |n| == |m| && forall i :: 0 <= i < |m| && !(a <= i < a + size) ==> n[i] == m[i]
    ensures Laid(n, ptr, blocks)
  {
    forall i | 0 <= i < |blocks| ensures WordAt(n, blocks[i].start - ALIGNMENT, blocks[i].size) {
      assert WordAt(m, blocks[i].start - ALIGNMENT, blocks[i].size);
    }
  }

  // ----- slices -----

  /** The words of a stretch of memory. */
  predicate HoldsItems(m: seq<Byte>, p: nat, items: seq<int>)
  {
    p + WORD * |items| <= |m| && forall i: nat :: i < |items| ==> WordAt(m, p + WORD * i, items[i])
  }

  /** Contents in memory that stays the same are the same. */
  lemma ItemsKept(m: seq<Byte>, n: seq<Byte>, ptr: nat, p: nat, items: seq<int>)
    requires HoldsItems(m, p, items) && SameFrom(m, n, ptr) && ptr <= p
    ensures HoldsItems(n, p, items)
  {
    forall i: nat | i < |items| ensures WordAt(n, p + WORD * i, items[i]) {
      assert WordAt(m, p + WORD * i, items[i]);
    }
  }

  class Slice {
    var len: nat
    var buffer: nat
    ghost var items: seq<int>

    /** The slice's items are in a block of the heap that has a word of buffer behind it to copy from. */
    ghost predicate Valid(h: Bump)
      reads this, h, h.buf
    {
      && h.Valid() && len == |items|
      && (len > 0 ==>
            && Block(buffer, WORD * len) in h.blocks
            && h.ptr + ALIGNMENT <= buffer && buffer + WORD * (len + 1) <= h.buf.Length
            && HoldsItems(h.buf[..], buffer, items))
    }

    /** slice_new for an empty slice */
    constructor (h: Bump)
      requires h.Valid()
      ensures Valid(h) && items == []
    {
      len, buffer, items := 0, 0, [];
    }

    /** slice_append: the slice gets one more item, and no other slice changes; false if memory has run out */
    method Append(h: Bump, item: int, ghost others: set<Slice>) returns (ok: bool)
      requires Valid(h) && this !in others && forall t :: t in others ==> t.Valid(h)
      modifies this, h, h.buf
      ensures ok <==> Down(old(h.ptr) - WORD * (old(len) + 1)) > ALIGNMENT
      ensures ok ==> Valid(h) && items == old(items) + [item]
      ensures ok ==> PtrAfter(old(h.ptr), WORD * (old(len) + 1)) == Some(h.ptr)
      ensures forall t :: t in others ==> t.Valid(h) && t.items == old(t.items) && t.buffer == old(t.buffer)
    {
      hide Laid, WordAt, HoldsItems, PtrAfter;
      ghost var was, before := h.buf[..], h.ptr;
      var alloc := Place(h, item);
      forall t | t in others && t.len > 0 ensures HoldsItems(h.buf[..], t.buffer, t.items) {
        ItemsKept(was, h.buf[..], before, t.buffer, t.items);
      }
      if alloc.None? {
        return false;
      }
      len := len + 1;
      buffer := alloc.value;
      items := items + [item];
      ok := true;
    }

    /** A buffer for one item more, holding the items there are: the two branches of the source. */
    method Enlarge(h: Bump) returns (alloc: Option<nat>)
      requires Valid(h)
      modifies h, h.buf
      ensures h.Valid() && h.ptr <= old(h.ptr) && old(h.blocks) <= h.blocks
              && SameFrom(old(h.buf[..]), h.buf[..], old(h.ptr))
      ensures alloc.Some? <==> Down(old(h.ptr) - WORD * (old(len) + 1)) > ALIGNMENT
      ensures alloc.Some? ==> PtrAfter(old(h.ptr), WORD * (old(len) + 1)) == Some(h.ptr)
      ensures alloc.Some? ==>
                var a := alloc.value;
                && h.blocks == old(h.blocks) + [Block(a, WORD * (len + 1))] && a == h.ptr + ALIGNMENT
                && a + WORD * (len + 1) <= old(h.ptr) && a + WORD * (len + 2) <= h.buf.Length
                && (len > 0 ==> h.buf[..][a..a + WORD * len] == old(h.buf[..])[buffer..buffer + WORD * len])
    {
      hide Laid, WordAt, HoldsItems, Aligned, Down, PtrAfter;
      ghost var was := h.buf[..];
      if len == 0 {
        alloc := h.Malloc(WORD);
        if alloc.Some? { EnoughAbove(h, old(h.ptr), alloc.value); }
      } else {
        alloc := h.Realloc(buffer, WORD * (len + 1));
        if alloc.Some? { CopiedPrefix(was, h.buf[..], buffer, alloc.value, WORD * (len + 1), WORD * len); }
      }
    }

    /** The new buffer, filled */
    method Place(h: Bump, item: int) returns (alloc: Option<nat>)
      requires Valid(h)
      modifies h, h.buf
      ensures h.Valid() && h.ptr <= old(h.ptr) && old(h.blocks) <= h.blocks
              && SameFrom(old(h.buf[..]), h.buf[..], old(h.ptr))
      ensures alloc.Some? <==> Down(old(h.ptr) - WORD * (old(len) + 1)) > ALIGNMENT
      ensures alloc.Some? ==> PtrAfter(old(h.ptr), WORD * (old(len) + 1)) == Some(h.ptr)
      ensures alloc.Some? ==>
                var a := alloc.value;
                && Block(a, WORD * (len + 1)) in h.blocks && a == h.ptr + ALIGNMENT
                  && a + WORD * (len + 2) <= h.buf.Length
                && HoldsItems(h.buf[..], a, items + [item])
    {
      hide Laid, WordAt, HoldsItems, Aligned, Down, PtrAfter;
      ghost var was := h.buf[..];
      alloc := Enlarge(h);
      if alloc.None? {
        return;
      }
      var a := alloc.value;
      ghost var made := h.buf[..];
      h.StoreInLast(a + WORD * len, item);
      Grown(was, made, h.buf[..], buffer, a, items, item);
    }

    /** slice_back */
    method Back(h: Bump) returns (r: Option<int>)
      requires Valid(h)
      ensures r == if items == [] then None else Some(items[|items| - 1])
    {
      if len == 0 {
        return None;
      }
      assert WordAt(h.buf[..], buffer + WORD * (len - 1), items[len - 1]);
      assert h.buf[..][buffer + WORD * (len - 1) + 0] == Piece(items[len - 1], 0);
      r := Some(h.buf[buffer + WORD * (len - 1)].v);
    }
  }

  /** A first block of one word has another word above it. */
  lemma EnoughAbove(h: Bump, before: nat, a: nat)
    requires h.Valid() && Aligned(before) && before <= h.buf.Length && a == h.ptr + ALIGNMENT && a + WORD <= before
    ensures a + 2 * WORD <= h.buf.Length
  {
    RoomAbove(h.ptr, before);
  }

  lemma CopiedPrefix(was: seq<Byte>, made: seq<Byte>, p: nat, a: nat, n: nat, d: nat)
    requires p + n <= |was| && a + n <= |made| && made[a..a + n] == was[p..p + n] && d <= n
    ensures made[a..a + d] == was[p..p + d]
  {
    assert made[a..a + d] == made[a..a + n][..d] && was[p..p + d] == was[p..p + n][..d];
  }

  /** The copied items and the new one. */
  lemma Grown(was: seq<Byte>, made: seq<Byte>, now: seq<Byte>, p: nat, a: nat, items: seq<int>, item: int)
    requires |was| == |made| == |now| && a + WORD * (|items| + 1) <= |now|
    requires items != [] ==>
               HoldsItems(was, p, items) && made[a..a + WORD * |items|] == was[p..p + WORD * |items|]
    requires WordAt(now, a + WORD * |items|, item)
    requires forall i :: 0 <= i < |now| && !(a + WORD * |items| <= i < a + WORD * |items| + WORD) ==> now[i] == made[i]
    ensures HoldsItems(now, a, items + [item])
  {
    forall i: nat | i < |items| ensures WordAt(now, a + WORD * i, items[i]) {
      assert WordAt(was, p + WORD * i, items[i]);
      WordCopied(was, made, p, a, WORD * |items|, WORD * i, items[i]);
    }
  }

  lemma WordCopied(was: seq<Byte>, made: seq<Byte>, p: nat, a: nat, n: nat, d: nat, v: int)
    requires p + n <= |was| && a + n <= |made| && made[a..a + n] == was[p..p + n] && d + WORD <= n
    requires WordAt(was, p + d, v)
    ensures WordAt(made, a + d, v)
  {
    forall k: nat | k < WORD ensures made[a + d + k] == Piece(v, k) {
      assert made[a..a + n][d + k] == was[p..p + n][d + k];
    }
  }

  // ----- runs of requests -----

  /** Where the pointer is after a run of requests, None if one of them fails. */
  function PtrAfterAll(ptr: nat, sizes: seq<nat>): Option<nat>
    decreases |sizes|
  {
    if sizes == [] then Some(ptr)
    else
      match PtrAfter(ptr, sizes[0])
      case None => None
      case Some(p) => PtrAfterAll(p, sizes[1..])
  }

  /** The bytes a run takes: each size rounded up, and a header. */
  function Taken(sizes: seq<nat>): nat
  {
    if sizes == [] then 0 else (sizes[0] + 15) / 16 * 16 + 16 + Taken(sizes[1..])
  }

  lemma OneRequest(ptr: nat, size: nat)
    requires Aligned(ptr)
    ensures Down(ptr - size) == ptr - (size + 15) / 16 * 16
  {
    var n := (size + 15) / 16;
    assert size <= n * 16 < size + 16;
  }

  /** From an aligned pointer a run succeeds if and only if what it takes leaves the pointer above the first word of
      the buffer, and then it takes exactly that. */
  lemma {:induction false} RunsExactly(ptr: nat, sizes: seq<nat>)
    requires Aligned(ptr) && ptr > 0
    ensures PtrAfterAll(ptr, sizes) == if Taken(sizes) < ptr then Some(ptr - Taken(sizes)) else None
    decreases |sizes|
  {
    if sizes != [] {
      OneRequest(ptr, sizes[0]);
      if PtrAfter(ptr, sizes[0]).Some? { RunsExactly(PtrAfter(ptr, sizes[0]).value, sizes[1..]); }
    }
  }

  /** The requests of n appends to a slice of d items. */
  function AppendSizes(d: nat, n: nat): seq<nat>
    decreases n
  {
    if n == 0 then [] else [WORD * (d + 1)] + AppendSizes(d + 1, n - 1)
  }

  /** 8 bytes for each item of each of n buffers, the first with d + 1 items. */
  function ItemBytes(d: nat, n: nat): nat { 4 * n * (2 * d + n + 1) }

  lemma OneMore(d: nat, n: nat)
    requires n > 0
    ensures ItemBytes(d, n) == ItemBytes(d + 1, n - 1) + 8 * (d + 1)
  {
    assert n * (2 * d + n + 1) == (n - 1) * (2 * d + n + 1) + (2 * d + n + 1);
    assert (n - 1) * (2 * d + n + 2) == (n - 1) * (2 * d + n + 1) + (n - 1);
  }

  /** As a slice's buffers are never used again, its appends take memory quadratic in their number: besides the items
      from 16 to 24 bytes a buffer. */
  lemma {:induction false} AppendsTake(d: nat, n: nat)
    ensures ItemBytes(d, n) + 16 * n <= Taken(AppendSizes(d, n)) <= ItemBytes(d, n) + 24 * n
    decreases n
  {
    if n == 0 {
      assert ItemBytes(d, n) == 0;
    } else {
      AppendsTake(d + 1, n - 1);
      OneMore(d, n);
      hide ItemBytes, Taken;
      var sizes := AppendSizes(d, n);
      assert sizes[1..] == AppendSizes(d + 1, n - 1);
      FirstTakes(sizes, 8 * (d + 1));
    }
  }

  lemma FirstTakes(sizes: seq<nat>, m: nat)
    requires sizes != [] && sizes[0] == m && m % 8 == 0
    ensures m + 16 <= Taken(sizes) - Taken(sizes[1..]) <= m + 24
  {
  }
}
