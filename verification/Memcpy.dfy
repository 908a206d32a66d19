/**
 fast_memcpy and memcpy_tiny on two buffers that do not overlap.

 A buffer is an array and the address of its element 0; a pointer is an index into it.  Every load and
 store names its bytes, so reading or writing outside a buffer, or an aligned access to an address that
 is not a multiple of 16, does not verify.  Prefetches and the final fence do nothing here.
 */
module Memcpy {

  type Byte = bv8

  const CACHE_SIZE: nat := 0x200000

  // What memory holds after `size` bytes have been copied to index d, and nothing else has changed.
  function Copied(was: seq<Byte>, d: nat, src: seq<Byte>, s: nat, size: nat): (r: seq<Byte>)
    requires d + size <= |was| && s + size <= |src|
    ensures |r| == |was|
    ensures forall k :: 0 <= k < |was| ==> r[k] == if d <= k < d + size then src[s + (k - d)] else was[k]
  {
    was[..d] + src[s..s + size] + was[d + size..]
  }

  // The target holds the first `done` of `size` bytes, and nothing outside its `size` bytes has changed.
  predicate Partly(now: seq<Byte>, was: seq<Byte>, d: nat, src: seq<Byte>, s: nat, size: nat, done: nat) {
    && |now| == |was| && done <= size && d + size <= |was| && s + size <= |src|
    && (forall k :: 0 <= k < |was| && !(d <= k < d + size) ==> now[k] == was[k])
    && (forall k :: d <= k < d + done ==> now[k] == src[s + (k - d)])
  }

  lemma PartlyDone(now: seq<Byte>, was: seq<Byte>, d: nat, src: seq<Byte>, s: nat, size: nat)
    requires Partly(now, was, d, src, s, size, size)
    ensures now == Copied(was, d, src, s, size)
  {
  }

  // A further store of n bytes at or before the end of what is done, within the target.
  lemma PartlyStep(now: seq<Byte>, was: seq<Byte>, d: nat, src: seq<Byte>, s: nat, size: nat, done: nat, at: nat, n: nat)
    requires Partly(now, was, d, src, s, size, done) && at <= done && at + n <= size
    ensures Partly(Copied(now, d + at, src, s + at, n), was, d, src, s, size, if at + n > done then at + n else done)
  {
  }

  class Buffer {
    const bytes: array<Byte>
    const address: nat

    constructor (bytes: array<Byte>, address: nat)
      ensures this.bytes == bytes && this.address == address
    {
      this.bytes := bytes;
      this.address := address;
    }

    predicate Aligned(i: nat) { (address + i) % 16 == 0 }
  }

  /** A load of n bytes and a store of them: the C assignment through a wider pointer, or an unaligned
      16-byte move. */
  method Move(dst: Buffer, d: nat, src: Buffer, s: nat, n: nat)
    requires dst.bytes != src.bytes && d + n <= dst.bytes.Length && s + n <= src.bytes.Length
    modifies dst.bytes
    ensures dst.bytes[..] == Copied(old(dst.bytes[..]), d, src.bytes[..], s, n)
  {
    forall k | d <= k < d + n { dst.bytes[k] := src.bytes[s + (k - d)]; }
  }

  /** _mm_store_si128 or _mm_stream_si128 of 16 bytes loaded from src, which may have to be aligned too. */
  method MoveAligned(dst: Buffer, d: nat, src: Buffer, s: nat, alignedLoad: bool)
    requires dst.bytes != src.bytes && d + 16 <= dst.bytes.Length && s + 16 <= src.bytes.Length
    requires dst.Aligned(d) && (alignedLoad ==> src.Aligned(s))
    modifies dst.bytes
    ensures dst.bytes[..] == Copied(old(dst.bytes[..]), d, src.bytes[..], s, 16)
  {
    Move(dst, d, src, s, 16);
  }

  // ---------- memcpy_tiny ----------

  // One store of a case: `width` bytes at `back` bytes before the end.
  datatype Store = Store(back: nat, width: nat)

  // The stores of the cases 0 to 63.  The cases 16 to 23 are a 16-byte store and then case size - 16, those
  // from 24 to 31 two 16-byte stores, and those from 32 on a 32-byte store and then case size - 32.
  function Row(n: nat): seq<Store>
    requires n < 64
  {
    match n
    case 0 => []
    case 1 => [Store(1, 1)]
    case 2 => [Store(2, 2)]
    case 3 => [Store(3, 2), Store(1, 1)]
    case 4 => [Store(4, 4)]
    case 5 => [Store(5, 4), Store(1, 1)]
    case 6 => [Store(6, 4), Store(2, 2)]
    case 7 => [Store(7, 4), Store(4, 4)]
    case 8 => [Store(8, 8)]
    case 9 => [Store(9, 8), Store(1, 1)]
    case 10 => [Store(10, 8), Store(2, 2)]
    case 11 => [Store(11, 8), Store(4, 4)]
    case 12 => [Store(12, 8), Store(4, 4)]
    case 13 => [Store(13, 8), Store(5, 4), Store(1, 1)]
    case 14 => [Store(14, 8), Store(8, 8)]
    case 15 => [Store(15, 8), Store(8, 8)]
    case _ =>
      if n < 24 then [Store(n, 16)] + Row(n - 16)
      else if n < 32 then [Store(n, 16), Store(16, 16)]
      else [Store(n, 32)] + Row(n - 32)
  }

  // The stores leave no gap in the last `left` bytes, do not start before the first of `size` bytes, and do
  // not run over the end.
  predicate Covers(row: seq<Store>, left: nat, size: nat) {
    if row == [] then left == 0
    else
      && left <= row[0].back <= size && row[0].width <= row[0].back
      && Covers(row[1..], if row[0].back - row[0].width < left then row[0].back - row[0].width else left, size)
  }

  lemma {:induction false} CoversMore(row: seq<Store>, left: nat, size: nat, size': nat)
    requires Covers(row, left, size) && size <= size'
    ensures Covers(row, left, size')
  {
    if row != [] {
      CoversMore(row[1..], if row[0].back - row[0].width < left then row[0].back - row[0].width else left, size, size');
    }
  }

  lemma CoversTwo(a: Store, b: Store, left: nat, size: nat)
    requires left <= a.back <= size && a.width <= a.back && b.width <= b.back <= size
    requires a.back - a.width <= left && a.back - a.width <= b.back && b.back == b.width
    ensures Covers([a, b], left, size)
  {
    assert [a, b][1..] == [b] && [b][1..] == [];
  }

  lemma CoversOne(a: Store, left: nat, size: nat)
    requires left <= a.back <= size && a.width == a.back
    ensures Covers([a], left, size)
  {
    assert [a][1..] == [];
  }

  lemma {:induction false} RowCovers(n: nat)
    requires n < 64
    ensures Covers(Row(n), n, n)
  {
    var row := Row(n);
    if n == 0 {
    } else if n == 13 {
      CoversTwo(row[1], row[2], 5, 13);
      assert row[1..] == [row[1], row[2]];
    } else if n < 16 && |row| == 1 {
      CoversOne(row[0], n, n);
    } else if n < 16 {
      CoversTwo(row[0], row[1], n, n);
      assert row == [row[0], row[1]];
    } else if n < 24 {
      RowCovers(n - 16);
      CoversMore(Row(n - 16), n - 16, n - 16, n);
      assert row[1..] == Row(n - 16);
    } else if n < 32 {
      assert row[1..] == [Store(16, 16)] && row[1..][1..] == [];
    } else {
      RowCovers(n - 32);
      CoversMore(Row(n - 32), n - 32, n - 32, n);
      assert row[1..] == Row(n - 32);
    }
  }

  method Stores(row: seq<Store>, dst: Buffer, d: nat, src: Buffer, s: nat, size: nat, left: nat, ghost was: seq<Byte>)
    requires dst.bytes != src.bytes && left <= size && Covers(row, left, size)
    requires Partly(dst.bytes[..], was, d, src.bytes[..], s, size, size - left)
    modifies dst.bytes
    ensures dst.bytes[..] == Copied(was, d, src.bytes[..], s, size)
  {
    var rest, todo: nat := row, left;
    while rest != []
      invariant todo <= size && Covers(rest, todo, size)
      invariant Partly(dst.bytes[..], was, d, src.bytes[..], s, size, size - todo)
      decreases |rest|
    {
      var st := rest[0];
      PartlyStep(dst.bytes[..], was, d, src.bytes[..], s, size, size - todo, size - st.back, st.width);
      Move(dst, d + size - st.back, src, s + size - st.back, st.width);
      todo := if st.back - st.width < todo then st.back - st.width else todo;
      rest := rest[1..];
    }
    PartlyDone(dst.bytes[..], was, d, src.bytes[..], s, size);
  }

  /** memcpy_tiny: the cases from 64 on move 64 bytes first and fall through to the case size - 64. */
  method MemcpyTiny(dst: Buffer, d: nat, src: Buffer, s: nat, size: nat)
    requires dst.bytes != src.bytes && size <= 128
    requires d + size <= dst.bytes.Length && s + size <= src.bytes.Length
    modifies dst.bytes
    ensures dst.bytes[..] == Copied(old(dst.bytes[..]), d, src.bytes[..], s, size)
  {
    if size == 128 {
      Move(dst, d, src, s, 128);
      return;
    }
    var n := size % 64;
    RowCovers(n);
    CoversMore(Row(n), n, n, size);
    ghost var was := dst.bytes[..];
    if size >= 64 {
      PartlyStep(was, was, d, src.bytes[..], s, size, 0, 0, 64);
      Move(dst, d, src, s, 64);
    }
    Stores(Row(n), dst, d, src, s, size, n, was);
  }

  // ---------- fast_memcpy ----------

  /** One round of a main loop: eight 16-byte moves. */
  method Move128(dst: Buffer, d: nat, src: Buffer, s: nat, alignedLoad: bool)
    requires dst.bytes != src.bytes && d + 128 <= dst.bytes.Length && s + 128 <= src.bytes.Length
    requires dst.Aligned(d) && (alignedLoad ==> src.Aligned(s))
    modifies dst.bytes
    ensures dst.bytes[..] == Copied(old(dst.bytes[..]), d, src.bytes[..], s, 128)
  {
    ghost var was := dst.bytes[..];
    for k := 0 to 8
      invariant Partly(dst.bytes[..], was, d, src.bytes[..], s, 128, 16 * k)
    {
      PartlyStep(dst.bytes[..], was, d, src.bytes[..], s, 128, 16 * k, 16 * k, 16);
      MoveAligned(dst, d + 16 * k, src, s + 16 * k, alignedLoad);
    }
    PartlyDone(dst.bytes[..], was, d, src.bytes[..], s, 128);
  }

  /** A main loop, from `done` bytes on; the three loops differ in the kind of load and store only. */
  method MainLoop(dst: Buffer, d: nat, src: Buffer, s: nat, size: nat, done: nat, alignedLoad: bool, ghost was: seq<Byte>)
    returns (end: nat)
    requires dst.bytes != src.bytes && done <= size && dst.Aligned(d + done) && (alignedLoad ==> src.Aligned(s + done))
    requires Partly(dst.bytes[..], was, d, src.bytes[..], s, size, done)
    modifies dst.bytes
    ensures done <= end <= size < end + 128
    ensures Partly(dst.bytes[..], was, d, src.bytes[..], s, size, end)
  {
    end := done;
    while size - end >= 128
      invariant done <= end <= size && dst.Aligned(d + end) && (alignedLoad ==> src.Aligned(s + end))
      invariant Partly(dst.bytes[..], was, d, src.bytes[..], s, size, end)
    {
      PartlyStep(dst.bytes[..], was, d, src.bytes[..], s, size, end, end, 128);
      Move128(dst, d + end, src, s + end, alignedLoad);
      end := end + 128;
    }
  }

  /** The head: one unaligned move brings the target to a 16-byte boundary. */
  method AlignTarget(dst: Buffer, d: nat, src: Buffer, s: nat, size: nat) returns (padding: nat)
    requires dst.bytes != src.bytes && size > 128 && d + size <= dst.bytes.Length && s + size <= src.bytes.Length
    modifies dst.bytes
    ensures padding < 16 && dst.Aligned(d + padding)
    ensures Partly(dst.bytes[..], old(dst.bytes[..]), d, src.bytes[..], s, size, padding)
  {
    ghost var was := dst.bytes[..];
    padding := (16 - (dst.address + d) % 16) % 16;
    Padded(dst.address + d);
    if padding > 0 {
      PartlyStep(was, was, d, src.bytes[..], s, size, 0, 0, 16);
      Move(dst, d, src, s, 16);
    }
  }

  /** fast_memcpy is a bytewise copy for every size and alignment: the target is written in full, nothing
      else is, and every aligned store hits an aligned address. */
  method FastMemcpy(dst: Buffer, d: nat, src: Buffer, s: nat, size: nat)
    requires dst.bytes != src.bytes && d + size <= dst.bytes.Length && s + size <= src.bytes.Length
    modifies dst.bytes
    ensures dst.bytes[..] == Copied(old(dst.bytes[..]), d, src.bytes[..], s, size)
  {
    if size <= 128 {
      MemcpyTiny(dst, d, src, s, size);
      return;
    }
    ghost var was := dst.bytes[..];
    var padding := AlignTarget(dst, d, src, s, size);
    var end := padding;
    if size - padding <= CACHE_SIZE {
      end := MainLoop(dst, d, src, s, size, end, false, was);
    } else if (src.address + s + padding) % 16 == 0 {
      end := MainLoop(dst, d, src, s, size, end, true, was);
    } else {
      end := MainLoop(dst, d, src, s, size, end, false, was);
    }
    ghost var now := dst.bytes[..];
    MemcpyTiny(dst, d + end, src, s + end, size - end);
    PartlyStep(now, was, d, src.bytes[..], s, size, end, end, size - end);
    PartlyDone(dst.bytes[..], was, d, src.bytes[..], s, size);
  }

  lemma Padded(a: nat)
    ensures (a + (16 - a % 16) % 16) % 16 == 0
  {
  }
}
