/**
 The circular block index of an implicit producer: the single producer inserts blocks, doubles the
 index when the next slot is still in use, and takes insertions back when no block can be had, while
 any number of consumers look blocks up and clear them.

 Each atomic load or store is one action.  A key holds a block base index, represented by its block
 number base / BLOCK_SIZE (CircularIndex.SlotWordAgrees connects the word arithmetic).  `origin`,
 `blocks`, `born` and `released` are history: no branch of a step reads them except for the number of
 blocks inserted so far, which is tailIndex / BLOCK_SIZE at the moment a block is started.
 */
module BlockIndex {
  import opened ModArith

  type Thread = nat
  type Block = nat

  datatype Option<+T> = None | Some(value: T)

  const BLOCK_SIZE: nat := 256
  const INITIAL_CAPACITY: nat := 32     // IMPLICIT_INITIAL_INDEX_SIZE

  datatype Value = Garbage | Null | Ptr(block: Block)

  datatype Entry = Entry(key: Option<nat>, value: Value)   // None is INVALID_BLOCK_BASE

  // index[j] is the entry that slot j points to; capacity is |index|.
  // The block in slot j has a number congruent to j + origin.
  datatype Header = Header(index: seq<nat>, tail: nat, origin: nat)

  // Where the producer stands in insert_block_index_entry and its caller.
  datatype Writer =
    | WIdle
    | WProbe                              // about to look at the slot after the tail
    | WGrow                               // it is in use: new_block_index
    | WKey(slot: nat)
    | WTail(slot: nat)
    | WBlock(slot: nat)                   // requisition_block
    | WValue(slot: nat, block: Block)
    | WRewind(slot: nat)                  // no block: rewind_block_index_tail
    | WNull(slot: nat)

  // A consumer with the claimed elements cur .. hi left to fetch.
  datatype Reader =
    | RIdle
    | RClaimed(cur: nat, hi: nat)
    | RHeader(cur: nat, hi: nat, h: nat)
    | RTail(cur: nat, hi: nat, h: nat, tail: nat)
    | RSlot(cur: nat, hi: nat, h: nat, slot: nat)
    | RBlock(cur: nat, hi: nat, h: nat, slot: nat, value: Value)

  datatype State = State(
    headers: seq<Header>,         // every index ever published; the last one is blockIndex
    entries: seq<Entry>,
    writer: Writer,
    readers: map<Thread, Reader>,
    tailIndex: nat,
    head: nat,                    // headIndex
    blocks: seq<Block>,           // the block inserted for each number
    born: seq<nat>,               // the header it was inserted through
    released: set<nat>)

  datatype Action =
    | StartBlock
    | Write(got: Option<Block>)           // the producer's next step; `got` is what an allocation yields
    | Publish(count: nat)                 // store to tailIndex
    | Claim(t: Thread, count: nat)        // fetch_add on headIndex, within the tail
    | Read(t: Thread)
    | Finish(t: Thread, release: bool)    // done with the block in hand, and maybe the one to clear it

  // ---------- steps ----------

  predicate HeaderShape(h: Header, entries: nat) {
    && 0 < |h.index| && h.tail < |h.index|
    && (forall j :: 0 <= j < |h.index| ==> h.index[j] < entries)
    && (forall i, j :: 0 <= i < j < |h.index| ==> h.index[i] != h.index[j])
  }

  predicate Shape(headers: seq<Header>, entries: nat) {
    headers != [] && forall g :: 0 <= g < |headers| ==> HeaderShape(headers[g], entries)
  }

  function Last<T>(s: seq<T>): T
    requires s != []
  {
    s[|s| - 1]
  }

  // The slot for block number m in header h.
  function SlotOf(h: Header, m: int): (j: nat)
    requires |h.index| > 0
    ensures j < |h.index|
  {
    (m - h.origin) % |h.index|
  }

  function EntryAt(s: State, h: nat, slot: nat): Entry
    requires Shape(s.headers, |s.entries|) && h < |s.headers| && slot < |s.headers[h].index|
  {
    s.entries[s.headers[h].index[slot]]
  }

  function SetEntry(s: State, h: nat, slot: nat, e: Entry): State
    requires Shape(s.headers, |s.entries|) && h < |s.headers| && slot < |s.headers[h].index|
  {
    s.(entries := s.entries[s.headers[h].index[slot] := e])
  }

  // The last block of the elements cur .. hi.
  function LastBlock(hi: nat): nat
    requires hi > 0
  {
    (hi - 1) / BLOCK_SIZE
  }

  predicate Busy(r: Reader, m: nat) {
    !r.RIdle? && r.cur < r.hi && r.cur / BLOCK_SIZE <= m <= LastBlock(r.hi)
  }

  predicate WriterEnabled(s: State)
    requires s.headers != []
  {
    match s.writer
    case WIdle => false
    case WProbe => true
    case WGrow => true
    case WKey(j) => j < |Last(s.headers).index|
    case WTail(j) => j < |Last(s.headers).index|
    case WBlock(j) => j < |Last(s.headers).index|
    case WValue(j, _) => j < |Last(s.headers).index|
    case WRewind(j) => j < |Last(s.headers).index|
    case WNull(j) => j < |Last(s.headers).index|
  }

  predicate ReaderEnabled(s: State, r: Reader)
    requires Shape(s.headers, |s.entries|)
  {
    match r
    case RIdle => false
    case RClaimed(_, _) => true
    case RHeader(_, _, h) => h < |s.headers|
    case RTail(_, _, h, tail) => h < |s.headers| && tail < |s.headers[h].index| && EntryAt(s, h, tail).key.Some?
    case RSlot(_, _, h, slot) => h < |s.headers| && slot < |s.headers[h].index|
    case RBlock(_, _, _, _, _) => false
  }

  predicate Enabled(s: State, a: Action) {
    && Shape(s.headers, |s.entries|)
    && match a
       case StartBlock => s.writer == WIdle
       case Write(_) => WriterEnabled(s)
       case Publish(count) => s.writer == WIdle && s.tailIndex + count <= |s.blocks| * BLOCK_SIZE
       case Claim(t, count) =>
         t in s.readers && s.readers[t] == RIdle && count > 0 && s.head + count <= s.tailIndex
       case Read(t) => t in s.readers && ReaderEnabled(s, s.readers[t])
       case Finish(t, release) =>
         && t in s.readers && s.readers[t].RBlock?
         && s.readers[t].h < |s.headers| && s.readers[t].slot < |s.headers[s.readers[t].h].index|
         && (release ==> MayClear(s, t, s.readers[t].cur / BLOCK_SIZE))
  }

  // t completes block m: all its elements have been claimed and nobody else still has some to fetch.
  predicate MayClear(s: State, t: Thread, m: nat) {
    (m + 1) * BLOCK_SIZE <= s.head && forall u :: u in s.readers && u != t ==> !Busy(s.readers[u], m)
  }

  // new_block_index: the old slots oldest first, then as many fresh entries.
  function Grown(s: State): State
    requires Shape(s.headers, |s.entries|)
  {
    var prev := Last(s.headers);
    var cap := |prev.index|;
    var index := seq(2 * cap, i requires 0 <= i < 2 * cap =>
      if i < cap then prev.index[(prev.tail + 1 + i) % cap] else |s.entries| + (i - cap));
    s.(headers := s.headers + [Header(index, cap - 1, if |s.blocks| < cap then 0 else |s.blocks| - cap)],
       entries := s.entries + seq(cap, i => Entry(None, Garbage)))
  }

  function WriterStep(s: State, got: Option<Block>): State
    requires Enabled(s, Write(got))
  {
    var g := |s.headers| - 1;
    var cur := s.headers[g];
    var cap := |cur.index|;
    match s.writer
    case WProbe =>
      var slot := (cur.tail + 1) % cap;
      if EntryAt(s, g, slot).key == None || EntryAt(s, g, slot).value == Null
      then s.(writer := WKey(slot))
      else s.(writer := WGrow)
    case WGrow =>
      if got == None then s.(writer := WIdle)
      else Grown(s).(writer := WKey(cap))
    case WKey(slot) => SetEntry(s, g, slot, EntryAt(s, g, slot).(key := Some(|s.blocks|))).(writer := WTail(slot))
    case WTail(slot) => s.(headers := s.headers[g := cur.(tail := slot)], writer := WBlock(slot))
    case WBlock(slot) => s.(writer := if got == None then WRewind(slot) else WValue(slot, got.value))
    case WValue(slot, b) =>
      SetEntry(s, g, slot, EntryAt(s, g, slot).(value := Ptr(b)))
        .(writer := WIdle, blocks := s.blocks + [b], born := s.born + [g])
    case WRewind(slot) =>
      s.(headers := s.headers[g := cur.(tail := (cur.tail + cap - 1) % cap)], writer := WNull(slot))
    case WNull(slot) => SetEntry(s, g, slot, EntryAt(s, g, slot).(value := Null)).(writer := WIdle)
  }

  function ReaderStep(s: State, r: Reader): Reader
    requires Shape(s.headers, |s.entries|) && ReaderEnabled(s, r)
  {
    match r
    case RClaimed(cur, hi) => RHeader(cur, hi, |s.headers| - 1)
    case RHeader(cur, hi, h) => RTail(cur, hi, h, s.headers[h].tail)
    case RTail(cur, hi, h, tail) =>
      RSlot(cur, hi, h, (tail + (cur / BLOCK_SIZE - EntryAt(s, h, tail).key.value)) % |s.headers[h].index|)
    case RSlot(cur, hi, h, slot) => RBlock(cur, hi, h, slot, EntryAt(s, h, slot).value)
  }

  // On to the next block of the range, through the same header.
  function NextBlock(s: State, r: Reader): Reader
    requires r.RBlock? && r.h < |s.headers| && 0 < |s.headers[r.h].index|
  {
    var end := (r.cur / BLOCK_SIZE + 1) * BLOCK_SIZE;
    if r.hi <= end then RIdle else RSlot(end, r.hi, r.h, (r.slot + 1) % |s.headers[r.h].index|)
  }

  function Apply(s: State, a: Action): State
    requires Enabled(s, a)
  {
    match a
    case StartBlock => s.(writer := WProbe)
    case Write(got) => WriterStep(s, got)
    case Publish(count) => s.(tailIndex := s.tailIndex + count)
    case Claim(t, count) => s.(readers := s.readers[t := RClaimed(s.head, s.head + count)], head := s.head + count)
    case Read(t) => s.(readers := s.readers[t := ReaderStep(s, s.readers[t])])
    case Finish(t, release) =>
      var r := s.readers[t];
      var s' := s.(readers := s.readers[t := NextBlock(s, r)]);
      if release
      then SetEntry(s', r.h, r.slot, EntryAt(s, r.h, r.slot).(value := Null))
             .(released := s.released + {r.cur / BLOCK_SIZE})
      else s'
  }

  predicate Initial(s: State) {
    && s.headers == [Header(seq(INITIAL_CAPACITY, i => i), INITIAL_CAPACITY - 1, 0)]
    && s.entries == seq(INITIAL_CAPACITY, i => Entry(None, Garbage))
    && s.writer == WIdle
    && (forall t :: t in s.readers ==> s.readers[t] == RIdle)
    && s.tailIndex == s.head == 0
    && s.blocks == [] && s.born == [] && s.released == {}
  }

  predicate IsRun(run: seq<State>, acts: seq<Action>) {
    && |run| == |acts| + 1
    && Initial(run[0])
    && forall i :: 0 <= i < |acts| ==> Enabled(run[i], acts[i]) && run[i + 1] == Apply(run[i], acts[i])
  }

  // ---------- the invariant ----------

  // Every key sits in the slot its number belongs to, in every header that has its entry.
  predicate Residues(headers: seq<Header>, entries: seq<Entry>)
    requires Shape(headers, |entries|)
  {
    forall g, j :: 0 <= g < |headers| && 0 <= j < |headers[g].index| ==> InPlace(headers[g], entries, j)
  }

  predicate InPlace(h: Header, entries: seq<Entry>, j: nat)
    requires HeaderShape(h, |entries|) && j < |h.index|
  {
    entries[h.index[j]].key.Some? ==> SlotOf(h, entries[h.index[j]].key.value) == j
  }

  // Capacities double, so an older one divides a newer one; older headers have no invalid key left.
  predicate Older(headers: seq<Header>, entries: seq<Entry>)
    requires Shape(headers, |entries|)
  {
    && (forall f, g :: 0 <= f <= g < |headers| ==> Divides(headers[f], headers[g]))
    && (forall g :: 0 <= g < |headers| - 1 ==> Full(headers[g], entries))
  }

  predicate Divides(f: Header, g: Header) { |f.index| > 0 && |g.index| % |f.index| == 0 }

  predicate Full(h: Header, entries: seq<Entry>)
    requires HeaderShape(h, |entries|)
  {
    forall j :: 0 <= j < |h.index| ==> entries[h.index[j]].key.Some?
  }

  // Which slots of the current header are in use, and how far back their keys reach.
  predicate Current(cur: Header, entries: seq<Entry>, n: nat)
    requires HeaderShape(cur, |entries|)
  {
    && (cur.origin < n || n == cur.origin == 0)
    && (forall j :: 0 <= j < |cur.index| ==> Filled(cur, entries, n, j))
    && (forall e :: 0 <= e < |entries| ==> e in cur.index)
  }

  predicate Filled(cur: Header, entries: seq<Entry>, n: nat, j: nat)
    requires HeaderShape(cur, |entries|) && j < |cur.index|
  {
    var key := entries[cur.index[j]].key;
    && (cur.origin + j < n ==> key.Some?)
    && (cur.origin + j > n ==> key == None)
    && (key.Some? ==> cur.origin <= key.value && n - |cur.index| <= key.value <= n)
  }

  // An entry whose key is the number of an inserted block holds that block until it is cleared.
  predicate Values(entries: seq<Entry>, blocks: seq<Block>, released: set<nat>) {
    forall e :: 0 <= e < |entries| && entries[e].key.Some? && entries[e].key.value < |blocks| ==>
      entries[e].value == if entries[e].key.value in released then Null else Ptr(blocks[entries[e].key.value])
  }

  // The heart: a live block is found in its slot of every header from the one it was inserted through.
  predicate Homes(s: State)
    requires Shape(s.headers, |s.entries|) && |s.born| == |s.blocks|
  {
    forall m, g :: 0 <= m < |s.blocks| && m !in s.released && s.born[m] <= g < |s.headers| ==>
      Home(s.headers[g], s.entries, m)
  }

  predicate Home(h: Header, entries: seq<Entry>, m: nat)
    requires HeaderShape(h, |entries|)
  {
    entries[h.index[SlotOf(h, m)]].key == Some(m)
  }

  predicate WriterOk(cur: Header, entries: seq<Entry>, n: nat, w: Writer)
    requires HeaderShape(cur, |entries|)
  {
    var mine := entries[cur.index[SlotOf(cur, n)]];
    match w
    case WIdle => SlotOf(cur, n - 1) == cur.tail && (mine.key == Some(n) ==> mine.value == Null)
    case WProbe => SlotOf(cur, n - 1) == cur.tail && (mine.key == Some(n) ==> mine.value == Null)
    case WGrow => SlotOf(cur, n - 1) == cur.tail && mine.key.Some? && mine.key != Some(n)
    case WKey(j) => j == SlotOf(cur, n) && SlotOf(cur, n - 1) == cur.tail && (mine.key == None || mine.value == Null)
    case WTail(j) => j == SlotOf(cur, n) && SlotOf(cur, n - 1) == cur.tail && mine.key == Some(n)
    case WBlock(j) => j == SlotOf(cur, n) == cur.tail && mine.key == Some(n)
    case WValue(j, _) => j == SlotOf(cur, n) == cur.tail && mine.key == Some(n)
    case WRewind(j) => j == SlotOf(cur, n) == cur.tail && mine.key == Some(n)
    case WNull(j) => j == SlotOf(cur, n) && SlotOf(cur, n - 1) == cur.tail && mine.key == Some(n)
  }

  // None of the blocks r still has to visit has been cleared, and h is recent enough to find them.
  predicate Pinned(s: State, r: Reader, h: nat) {
    && !r.RIdle? && r.cur < r.hi <= s.head
    && (forall m :: 0 <= m < |s.blocks| && Busy(r, m) ==> m !in s.released)
    && (forall m :: 0 <= m < |s.born| && Busy(r, m) ==> s.born[m] <= h)
  }

  predicate ReaderOk(s: State, r: Reader)
    requires Shape(s.headers, |s.entries|)
  {
    match r
    case RIdle => true
    case RClaimed(_, _) => Pinned(s, r, |s.headers| - 1)
    case RHeader(_, _, h) => h < |s.headers| && Pinned(s, r, h)
    case RTail(_, _, h, tail) =>
      h < |s.headers| && Pinned(s, r, h) && tail < |s.headers[h].index| && EntryAt(s, h, tail).key.Some?
    case RSlot(cur, _, h, slot) =>
      h < |s.headers| && Pinned(s, r, h) && slot == SlotOf(s.headers[h], cur / BLOCK_SIZE)
    case RBlock(cur, _, h, slot, v) =>
      && h < |s.headers| && Pinned(s, r, h) && slot == SlotOf(s.headers[h], cur / BLOCK_SIZE)
      && cur / BLOCK_SIZE < |s.blocks| && v == Ptr(s.blocks[cur / BLOCK_SIZE])
  }

  predicate Readers(s: State)
    requires Shape(s.headers, |s.entries|)
  {
    forall t :: t in s.readers ==> ReaderOk(s, s.readers[t])
  }

  predicate Counts(s: State) {
    && s.head <= s.tailIndex <= |s.blocks| * BLOCK_SIZE
    && |s.born| == |s.blocks|
    && (forall m :: 0 <= m < |s.born| ==> s.born[m] < |s.headers|)
    && (forall m :: m in s.released ==> m < |s.blocks| && (m + 1) * BLOCK_SIZE <= s.head)
  }

  predicate Inv(s: State) {
    && Shape(s.headers, |s.entries|)
    && Counts(s)
    && Residues(s.headers, s.entries)
    && Older(s.headers, s.entries)
    && Current(Last(s.headers), s.entries, |s.blocks|)
    && Values(s.entries, s.blocks, s.released)
    && Homes(s)
    && WriterOk(Last(s.headers), s.entries, |s.blocks|, s.writer)
    && Readers(s)
  }

  // ---------- slots ----------

  lemma SlotNext(h: Header, m: int)
    requires |h.index| > 0
    ensures (SlotOf(h, m) + 1) % |h.index| == SlotOf(h, m + 1)
    ensures (SlotOf(h, m + 1) + |h.index| - 1) % |h.index| == SlotOf(h, m)
  {
    var cap, x := |h.index|, m - h.origin;
    ModAbsorb(1, x, cap);
    assert SlotOf(h, m) == x % cap && SlotOf(h, m + 1) == (x + 1) % cap;
    assert (x % cap + 1) % cap == (x + 1) % cap;
    ModAbsorb(cap - 1, x + 1, cap);
    ModPlus(x, 1, cap);
    assert ((x + 1) % cap + (cap - 1)) % cap == (x + cap) % cap == x % cap;
  }

  lemma SlotSmall(h: Header, m: int)
    requires |h.index| > 0 && h.origin <= m
    ensures h.origin + SlotOf(h, m) <= m
    ensures m - h.origin < |h.index| ==> SlotOf(h, m) == m - h.origin
  {
    var cap := |h.index|;
    Multiple((m - h.origin) / cap, cap);
    if m - h.origin < cap { ModIs(m - h.origin, 0, m - h.origin, cap); }
  }

  lemma SlotUnique(h: Header, k: int, m: int)
    requires |h.index| > 0 && SlotOf(h, k) == SlotOf(h, m) && -(|h.index| as int) < k - m < |h.index|
    ensures k == m
  {
    ModUnique(k - h.origin, m - h.origin, |h.index|);
  }

  // Numbers that share a slot of a header share one of every header whose capacity divides it.
  lemma SlotCoarser(cur: Header, old_: Header, k: int, m: int)
    requires |cur.index| > 0 && |old_.index| > 0 && |cur.index| % |old_.index| == 0
    requires SlotOf(cur, k) == SlotOf(cur, m)
    ensures SlotOf(old_, k) == SlotOf(old_, m)
  {
    ModCoarser(k - cur.origin, m - cur.origin, |cur.index|, |old_.index|);
    ModShift(k - cur.origin, m - cur.origin, cur.origin - old_.origin, |old_.index|);
  }

  /** What get_block_index_index_for_index computes from any valid key k in slot T: the slot of m. */
  lemma LookupSlot(h: Header, k: int, m: int)
    requires |h.index| > 0
    ensures (SlotOf(h, k) + (m - k)) % |h.index| == SlotOf(h, m)
  {
    ModAbsorb(m - k, k - h.origin, |h.index|);
  }

  // No two entries carry the same key.
  lemma KeyUnique(s: State, d: nat, e: nat)
    requires Inv(s) && d < |s.entries| && e < |s.entries|
    requires s.entries[d].key.Some? && s.entries[d].key == s.entries[e].key
    ensures d == e
  {
    var cur := Last(s.headers);
    assert d in cur.index && e in cur.index;
    var i :| 0 <= i < |cur.index| && cur.index[i] == d;
    var j :| 0 <= j < |cur.index| && cur.index[j] == e;
    assert InPlace(cur, s.entries, i) && InPlace(cur, s.entries, j);
  }

  // ---------- the producer's steps ----------

  lemma ProbeKeepsInv(s: State, got: Option<Block>)
    requires Inv(s) && Enabled(s, Write(got)) && s.writer == WProbe
    ensures Inv(WriterStep(s, got))
  {
    SlotNext(Last(s.headers), |s.blocks| - 1);
  }

  lemma KeyKeepsResidues(s: State, slot: nat)
    requires Inv(s) && s.writer == WKey(slot)
    ensures var e := Last(s.headers).index[slot];
            Residues(s.headers, s.entries[e := s.entries[e].(key := Some(|s.blocks|))])
  {
    var cur, n := Last(s.headers), |s.blocks|;
    var e := cur.index[slot];
    var entries' := s.entries[e := s.entries[e].(key := Some(n))];
    forall g, j | 0 <= g < |s.headers| && 0 <= j < |s.headers[g].index|
      ensures InPlace(s.headers[g], entries', j)
    {
      var h := s.headers[g];
      assert InPlace(h, s.entries, j);
      if h.index[j] == e && g < |s.headers| - 1 {
        assert Full(h, s.entries) && Divides(h, cur);
        assert InPlace(cur, s.entries, slot);
        SlotCoarser(cur, h, s.entries[e].key.value, n);
      }
    }
  }

  lemma KeyKeepsCurrent(s: State, slot: nat)
    requires Inv(s) && s.writer == WKey(slot)
    ensures var e := Last(s.headers).index[slot];
            Current(Last(s.headers), s.entries[e := s.entries[e].(key := Some(|s.blocks|))], |s.blocks|)
  {
    var cur, n := Last(s.headers), |s.blocks|;
    var e := cur.index[slot];
    var entries' := s.entries[e := s.entries[e].(key := Some(n))];
    SlotSmall(cur, n);
    forall j | 0 <= j < |cur.index| ensures Filled(cur, entries', n, j) {
      assert Filled(cur, s.entries, n, j);
    }
  }

  // The slot taken over holds no live block: its value is null.
  lemma KeyKeepsHomes(s: State, slot: nat)
    requires Inv(s) && s.writer == WKey(slot)
    ensures var e := Last(s.headers).index[slot];
            Homes(s.(entries := s.entries[e := s.entries[e].(key := Some(|s.blocks|))]))
  {
    var n := |s.blocks|;
    var e := Last(s.headers).index[slot];
    var entries' := s.entries[e := s.entries[e].(key := Some(n))];
    forall m, g | 0 <= m < n && m !in s.released && s.born[m] <= g < |s.headers|
      ensures Home(s.headers[g], entries', m)
    {
      assert Home(s.headers[g], s.entries, m);
    }
  }

  lemma KeyKeepsValues(s: State, slot: nat)
    requires Inv(s) && s.writer == WKey(slot)
    ensures var e := Last(s.headers).index[slot];
            Values(s.entries[e := s.entries[e].(key := Some(|s.blocks|))], s.blocks, s.released)
  {
  }

  lemma KeyKeepsOlder(s: State, slot: nat)
    requires Inv(s) && s.writer == WKey(slot)
    ensures var e := Last(s.headers).index[slot];
            Older(s.headers, s.entries[e := s.entries[e].(key := Some(|s.blocks|))])
  {
    forall g | 0 <= g < |s.headers| - 1
      ensures var e := Last(s.headers).index[slot];
              Full(s.headers[g], s.entries[e := s.entries[e].(key := Some(|s.blocks|))])
    {
      assert Full(s.headers[g], s.entries);
    }
  }

  // A state in which nothing a reader relies on has been taken away.
  predicate Kinder(s: State, s': State) {
    && Shape(s.headers, |s.entries|) && Shape(s'.headers, |s'.entries|)
    && Counts(s)
    && |s.headers| <= |s'.headers|
    && (forall g :: 0 <= g < |s.headers| ==>
          s'.headers[g].index == s.headers[g].index && s'.headers[g].origin == s.headers[g].origin)
    && |s.entries| <= |s'.entries|
    && (forall e :: 0 <= e < |s.entries| && s.entries[e].key.Some? ==> s'.entries[e].key.Some?)
    && s.blocks <= s'.blocks && s.born <= s'.born && |s'.born| == |s'.blocks|
    && s'.released == s.released && s.head <= s'.head
  }

  lemma ReaderStays(s: State, s': State, r: Reader)
    requires Kinder(s, s') && ReaderOk(s, r)
    ensures ReaderOk(s', r)
  {
    if !r.RIdle? {
      forall m | |s.blocks| <= m < |s'.blocks| ensures !Busy(r, m) {
        assert r.hi <= |s.blocks| * BLOCK_SIZE;
      }
    }
  }

  lemma ReadersStay(s: State, s': State)
    requires Kinder(s, s') && Readers(s) && s'.readers == s.readers
    ensures Readers(s')
  {
    forall t | t in s'.readers ensures ReaderOk(s', s'.readers[t]) {
      ReaderStays(s, s', s.readers[t]);
    }
  }

  lemma KeyKeepsInv(s: State, got: Option<Block>)
    requires Inv(s) && Enabled(s, Write(got)) && s.writer.WKey?
    ensures Inv(WriterStep(s, got))
  {
    hide Residues, Older, Current, Values, Homes, Readers;
    var slot := s.writer.slot;
    var s' := WriterStep(s, got);
    KeyKeepsResidues(s, slot);
    KeyKeepsCurrent(s, slot);
    KeyKeepsHomes(s, slot);
    KeyKeepsValues(s, slot);
    KeyKeepsOlder(s, slot);
    ReadersStay(s, s');
    HomesDepend(s.(entries := s'.entries), s');
  }

  lemma HomesDepend(s: State, s': State)
    requires Shape(s.headers, |s.entries|) && |s.born| == |s.blocks| && Homes(s)
    requires s'.headers == s.headers && s'.entries == s.entries && s'.blocks == s.blocks && s'.born == s.born
    requires s'.released == s.released
    ensures Homes(s')
  {
    forall m, g | 0 <= m < |s.blocks| && m !in s.released && s.born[m] <= g < |s.headers|
      ensures Home(s'.headers[g], s'.entries, m)
    {
      assert Home(s.headers[g], s.entries, m);
    }
  }

  // Everything but Values and WriterOk depends on the slots and the keys only.
  lemma KeysSame(s: State, s': State)
    requires Inv(s) && Shape(s'.headers, |s'.entries|)
    requires |s'.headers| == |s.headers| && |s'.entries| == |s.entries|
    requires forall g :: 0 <= g < |s.headers| ==>
               s'.headers[g].index == s.headers[g].index && s'.headers[g].origin == s.headers[g].origin
    requires forall e :: 0 <= e < |s.entries| ==> s'.entries[e].key == s.entries[e].key
    requires s'.blocks == s.blocks && s'.born == s.born && s.released <= s'.released
    ensures Residues(s'.headers, s'.entries) && Older(s'.headers, s'.entries)
    ensures Current(Last(s'.headers), s'.entries, |s'.blocks|) && Homes(s')
  {
    forall g, j | 0 <= g < |s'.headers| && 0 <= j < |s'.headers[g].index|
      ensures InPlace(s'.headers[g], s'.entries, j)
    {
      assert InPlace(s.headers[g], s.entries, j);
    }
    forall m, g | 0 <= m < |s.blocks| && m !in s'.released && s.born[m] <= g < |s.headers|
      ensures Home(s'.headers[g], s'.entries, m)
    {
      assert Home(s.headers[g], s.entries, m);
    }
    forall j | 0 <= j < |Last(s'.headers).index| ensures Filled(Last(s'.headers), s'.entries, |s.blocks|, j) {
      assert Filled(Last(s.headers), s.entries, |s.blocks|, j);
    }
    forall f, g | 0 <= f <= g < |s'.headers| ensures Divides(s'.headers[f], s'.headers[g]) {
      assert Divides(s.headers[f], s.headers[g]);
    }
    forall g | 0 <= g < |s'.headers| - 1 ensures Full(s'.headers[g], s'.entries) {
      assert Full(s.headers[g], s.entries);
    }
  }

  // Moving the tail of the current header changes nobody's slots.
  lemma TailKeepsInv(s: State, s': State, x: nat)
    requires Inv(s) && x < |Last(s.headers).index|
    requires s' == s.(headers := s.headers[|s.headers| - 1 := Last(s.headers).(tail := x)], writer := s'.writer)
    requires WriterOk(Last(s'.headers), s.entries, |s.blocks|, s'.writer)
    ensures Inv(s')
  {
    hide Residues, Older, Current, Values, Homes, Readers;
    KeysSame(s, s');
    ReadersStay(s, s');
  }

  lemma TailStepKeepsInv(s: State, got: Option<Block>)
    requires Inv(s) && Enabled(s, Write(got)) && (s.writer.WTail? || s.writer.WRewind?)
    ensures Inv(WriterStep(s, got))
  {
    hide Residues, Older, Current, Values, Homes, Readers;
    SlotNext(Last(s.headers), |s.blocks| - 1);
    var s' := WriterStep(s, got);
    TailKeepsInv(s, s', Last(s'.headers).tail);
  }

  lemma WriterMoveKeepsInv(s: State, w: Writer)
    requires Inv(s) && WriterOk(Last(s.headers), s.entries, |s.blocks|, w)
    ensures Inv(s.(writer := w))
  {
    hide Residues, Older, Current, Values;
    HomesDepend(s, s.(writer := w));
    ReadersStay(s, s.(writer := w));
  }

  // Clearing the value of the entry whose key is the next number, or of no inserted block.
  lemma ValueKeepsInv(s: State, slot: nat, v: Value, w: Writer)
    requires Inv(s) && slot == SlotOf(Last(s.headers), |s.blocks|)
    requires EntryAt(s, |s.headers| - 1, slot).key == Some(|s.blocks|)
    requires var s1 := SetEntry(s, |s.headers| - 1, slot, Entry(Some(|s.blocks|), v)).(writer := w);
             WriterOk(Last(s.headers), s1.entries, |s.blocks|, w)
    ensures Inv(SetEntry(s, |s.headers| - 1, slot, Entry(Some(|s.blocks|), v)).(writer := w))
  {
    var s' := SetEntry(s, |s.headers| - 1, slot, Entry(Some(|s.blocks|), v)).(writer := w);
    KeysSame(s, s');
    ReadersStay(s, s');
  }

  lemma NullKeepsInv(s: State, got: Option<Block>)
    requires Inv(s) && Enabled(s, Write(got)) && s.writer.WNull?
    ensures Inv(WriterStep(s, got))
  {
    hide Residues, Older, Current, Values, Homes, Readers;
    ValueKeepsInv(s, s.writer.slot, Null, WIdle);
  }

  // ---------- inserting the block ----------

  lemma InsertKeepsCurrent(s: State)
    requires Inv(s) && s.writer.WValue?
    ensures Current(Last(s.headers), s.entries, |s.blocks| + 1)
  {
    var cur, n := Last(s.headers), |s.blocks|;
    var next := n + 1;
    forall j | 0 <= j < |cur.index| ensures Filled(cur, s.entries, next, j) {
      assert Filled(cur, s.entries, n, j) && InPlace(cur, s.entries, j);
      if cur.origin + j == n { SlotSmall(cur, n); }
      if s.entries[cur.index[j]].key == Some(n - |cur.index|) {
        ModPlus(n - cur.origin, -1, |cur.index|);
      }
    }
  }

  lemma InsertKeepsValues(s: State, b: Block)
    requires Inv(s) && s.writer.WValue?
    ensures var e := Last(s.headers).index[s.writer.slot];
            Values(s.entries[e := s.entries[e].(value := Ptr(b))], s.blocks + [b], s.released)
  {
    var e := Last(s.headers).index[s.writer.slot];
    forall d | 0 <= d < |s.entries| && s.entries[d].key == Some(|s.blocks|) ensures d == e {
      KeyUnique(s, d, e);
    }
  }

  lemma InsertKeepsHomes(s: State, s': State, got: Option<Block>)
    requires Inv(s) && Enabled(s, Write(got)) && s.writer.WValue? && s' == WriterStep(s, got)
    ensures Shape(s'.headers, |s'.entries|) && Homes(s')
  {
    var n := |s.blocks|;
    forall m, g | 0 <= m < n + 1 && m !in s'.released && s'.born[m] <= g < |s'.headers|
      ensures Home(s'.headers[g], s'.entries, m)
    {
      if m < n { assert Home(s.headers[g], s.entries, m); }
    }
  }

  lemma InsertKeepsInv(s: State, got: Option<Block>)
    requires Inv(s) && Enabled(s, Write(got)) && s.writer.WValue?
    ensures Inv(WriterStep(s, got))
  {
    hide Residues, Older, Current, Values, Homes, Readers;
    var s' := WriterStep(s, got);
    var mid := s.(entries := s'.entries);
    KeysSame(s, mid);
    InsertKeepsCurrent(s);
    CurrentByKeys(Last(s.headers), s.entries, s'.entries, |s.blocks| + 1);
    InsertKeepsValues(s, s.writer.block);
    InsertKeepsHomes(s, s', got);
    ReadersStay(s, s');
    KeysBelow(s);
    NoNextKey(s', |s.blocks| + 1);
  }

  lemma CurrentByKeys(cur: Header, a: seq<Entry>, b: seq<Entry>, n: nat)
    requires |a| == |b| && forall e :: 0 <= e < |a| ==> a[e].key == b[e].key
    requires HeaderShape(cur, |a|) && Current(cur, a, n)
    ensures Current(cur, b, n)
  {
    forall j | 0 <= j < |cur.index| ensures Filled(cur, b, n, j) { assert Filled(cur, a, n, j); }
  }

  lemma KeysBelow(s: State)
    requires Inv(s)
    ensures forall e :: 0 <= e < |s.entries| && s.entries[e].key.Some? ==> s.entries[e].key.value <= |s.blocks|
  {
    var cur := Last(s.headers);
    forall e | 0 <= e < |s.entries| && s.entries[e].key.Some? ensures s.entries[e].key.value <= |s.blocks| {
      assert e in cur.index;
      var j :| 0 <= j < |cur.index| && cur.index[j] == e;
      assert Filled(cur, s.entries, |s.blocks|, j);
    }
  }

  // Right after an insertion the next slot cannot hold the next number yet.
  lemma NoNextKey(s: State, n: nat)
    requires Shape(s.headers, |s.entries|) && n > 0 && |s.blocks| == n
    requires forall e :: 0 <= e < |s.entries| && s.entries[e].key.Some? ==> s.entries[e].key.value < n
    ensures s.entries[Last(s.headers).index[SlotOf(Last(s.headers), n)]].key != Some(n)
  {
  }

  // ---------- doubling ----------

  // The index is full: slot by slot it holds the last |cur.index| numbers.
  lemma FullOrigin(s: State)
    requires Inv(s) && s.writer == WGrow
    ensures Last(s.headers).origin + |Last(s.headers).index| <= |s.blocks|
  {
    hide Older, Values, Homes, Readers;
    var cur, n := Last(s.headers), |s.blocks|;
    var mine := SlotOf(cur, n);
    assert Filled(cur, s.entries, n, mine) && InPlace(cur, s.entries, mine);
    var k := s.entries[cur.index[mine]].key.value;
    if k > n - |cur.index| { SlotUnique(cur, k, n); }
  }

  lemma FullIndex(s: State, i: nat)
    requires Inv(s) && s.writer == WGrow && i < |Last(s.headers).index|
    ensures var cur := Last(s.headers);
            var n, cap := |s.blocks|, |cur.index|;
            && cur.origin + cap <= n
            && s.entries[cur.index[(cur.tail + 1 + i) % cap]].key == Some(n - cap + i)
  {
    var cur, n := Last(s.headers), |s.blocks|;
    var cap := |cur.index|;
    FullOrigin(s);
    hide Older, Values, Homes, Readers;
    var p := (cur.tail + 1 + i) % cap;
    ModAbsorb(1 + i, n - 1 - cur.origin, cap);
    ModPlus(n - cap + i - cur.origin, 1, cap);
    assert p == SlotOf(cur, n - cap + i);
    assert Filled(cur, s.entries, n, p) && InPlace(cur, s.entries, p);
    SlotSmall(cur, n - cap + i);
    var q := s.entries[cur.index[p]].key.value;
    assert q != n;
    SlotUnique(cur, q, n - cap + i);
  }

  lemma Rotation(cap: nat, tail: nat, i: nat, j: nat)
    requires tail < cap && i < j < cap
    ensures (tail + 1 + i) % cap != (tail + 1 + j) % cap
  {
    if (tail + 1 + i) % cap == (tail + 1 + j) % cap { ModUnique(tail + 1 + i, tail + 1 + j, cap); }
  }

  lemma RotationOnto(cap: nat, tail: nat, p: nat) returns (i: nat)
    requires tail < cap && p < cap
    ensures i < cap && (tail + 1 + i) % cap == p
  {
    i := (p - tail - 1) % cap;
    ModAbsorb(tail + 1, p - tail - 1, cap);
    ModIs(p, 0, p, cap);
  }

  lemma GrownShape(s: State)
    requires Inv(s) && s.writer == WGrow
    ensures Shape(Grown(s).headers, |Grown(s).entries|)
  {
    var cur, s' := Last(s.headers), Grown(s);
    var new_ := Last(s'.headers);
    var cap := |cur.index|;
    forall i, j | 0 <= i < j < 2 * cap ensures new_.index[i] != new_.index[j] {
      if j < cap { Rotation(cap, cur.tail, i, j); }
    }
    forall g | 0 <= g < |s.headers| ensures HeaderShape(s'.headers[g], |s'.entries|) {
      assert HeaderShape(s.headers[g], |s.entries|);
    }
  }

  lemma GrownSlots(s: State, i: nat)
    requires Inv(s) && s.writer == WGrow && i < 2 * |Last(s.headers).index|
    ensures Shape(Grown(s).headers, |Grown(s).entries|)
    ensures var new_ := Last(Grown(s).headers);
            var n, cap := |s.blocks|, |Last(s.headers).index|;
            && |new_.index| == 2 * cap && new_.origin == n - cap
            && Grown(s).entries[new_.index[i]].key == (if i < cap then Some(n - cap + i) else None)
            && SlotOf(new_, n - cap + i) == i
  {
    GrownShape(s);
    var cap := |Last(s.headers).index|;
    if i < cap { FullIndex(s, i); } else { FullIndex(s, 0); }
    ModIs(i, 0, i, 2 * cap);
  }

  lemma GrownCurrent(s: State)
    requires Inv(s) && s.writer == WGrow
    ensures Shape(Grown(s).headers, |Grown(s).entries|)
    ensures Current(Last(Grown(s).headers), Grown(s).entries, |s.blocks|)
  {
    var cur, s' := Last(s.headers), Grown(s);
    var new_ := Last(s'.headers);
    var cap := |cur.index|;
    GrownShape(s);
    FullIndex(s, 0);
    forall j | 0 <= j < 2 * cap ensures Filled(new_, s'.entries, |s.blocks|, j) { GrownSlots(s, j); }
    forall e | 0 <= e < |s'.entries| ensures e in new_.index {
      if e < |s.entries| {
        assert e in cur.index;
        var p :| 0 <= p < cap && cur.index[p] == e;
        var i := RotationOnto(cap, cur.tail, p);
        assert new_.index[i] == e;
      } else {
        assert new_.index[cap + (e - |s.entries|)] == e;
      }
    }
  }

  lemma GrownResidues(s: State)
    requires Inv(s) && s.writer == WGrow
    ensures Shape(Grown(s).headers, |Grown(s).entries|)
    ensures Residues(Grown(s).headers, Grown(s).entries)
  {
    GrownShape(s);
    var s' := Grown(s);
    forall g, j | 0 <= g < |s'.headers| && 0 <= j < |s'.headers[g].index|
      ensures InPlace(s'.headers[g], s'.entries, j)
    {
      if g < |s.headers| { assert InPlace(s.headers[g], s.entries, j); } else { GrownSlots(s, j); }
    }
  }

  lemma GrownOlder(s: State)
    requires Inv(s) && s.writer == WGrow
    ensures Shape(Grown(s).headers, |Grown(s).entries|)
    ensures Older(Grown(s).headers, Grown(s).entries)
  {
    GrownShape(s);
    GrownFull(s);
    hide Current, Values, Homes, WriterOk, Readers;
    var s' := Grown(s);
    var cur := Last(s.headers);
    forall f, g | 0 <= f <= g < |s'.headers| ensures Divides(s'.headers[f], s'.headers[g]) {
      if g < |s.headers| {
        assert Divides(s.headers[f], s.headers[g]);
      } else if f < g {
        assert Divides(s.headers[f], cur);
        ModAbsorb(|cur.index|, |cur.index|, |s.headers[f].index|);
      }
    }
    forall g | 0 <= g < |s'.headers| - 1 ensures Full(s'.headers[g], s'.entries) {
      assert g < |s.headers| - 1 ==> Full(s.headers[g], s.entries);
    }
  }

  lemma GrownFull(s: State)
    requires Inv(s) && s.writer == WGrow
    ensures Full(Last(s.headers), s.entries)
  {
    FullIndex(s, 0);
    var cur := Last(s.headers);
    forall j | 0 <= j < |cur.index| ensures s.entries[cur.index[j]].key.Some? {
      assert Filled(cur, s.entries, |s.blocks|, j);
    }
  }

  // A live block's slot in the doubled index points to the entry it already had.
  lemma GrownHomes(s: State)
    requires Inv(s) && s.writer == WGrow
    ensures Shape(Grown(s).headers, |Grown(s).entries|)
    ensures Homes(Grown(s))
  {
    GrownShape(s);
    var s' := Grown(s);
    var cur, n := Last(s.headers), |s.blocks|;
    var cap := |cur.index|;
    forall m, g | 0 <= m < n && m !in s.released && s.born[m] <= g < |s'.headers|
      ensures Home(s'.headers[g], s'.entries, m)
    {
      if g < |s.headers| {
        assert Home(s.headers[g], s.entries, m);
      } else {
        assert Home(cur, s.entries, m);
        assert Filled(cur, s.entries, n, SlotOf(cur, m));
        GrownSlots(s, m - (n - cap));
      }
    }
  }

  lemma GrowKeepsInv(s: State, got: Option<Block>)
    requires Inv(s) && Enabled(s, Write(got)) && s.writer.WGrow? && got.Some?
    ensures Inv(WriterStep(s, got))
  {
    hide Residues, Older, Current, Values, Homes, Readers;
    var s1 := Grown(s);
    var s' := s1.(writer := WKey(|Last(s.headers).index|));
    GrownShape(s);
    GrownCurrent(s);
    GrownResidues(s);
    GrownOlder(s);
    GrownHomes(s);
    GrownValues(s);
    HomesDepend(s1, s');
    ReadersStay(s, s');
    GrownSlots(s, |Last(s.headers).index|);
    GrownSlots(s, |Last(s.headers).index| - 1);
  }

  lemma GrownValues(s: State)
    requires Inv(s) && s.writer == WGrow
    ensures Values(Grown(s).entries, s.blocks, s.released)
  {
  }

  // ---------- the consumers' steps ----------

  // Replacing one reader (and possibly claiming for it) leaves the index alone.
  lemma ReaderMoveKeepsInv(s: State, t: Thread, r: Reader, head: nat)
    requires Inv(s) && t in s.readers && s.head <= head <= s.tailIndex
    requires ReaderOk(s.(head := head), r)
    ensures Inv(s.(readers := s.readers[t := r], head := head))
  {
    hide Residues, Older, Current, Values;
    var s' := s.(readers := s.readers[t := r], head := head);
    HomesDepend(s, s');
    forall u | u in s'.readers ensures ReaderOk(s', s'.readers[u]) {
      if u == t {
        ReaderDepends(s.(head := head), s', r);
      } else {
        ReaderStays(s, s', s.readers[u]);
      }
    }
  }

  lemma ReaderDepends(s: State, s': State, r: Reader)
    requires Shape(s.headers, |s.entries|) && ReaderOk(s, r)
    requires s' == s.(readers := s'.readers)
    ensures ReaderOk(s', r)
  {
  }

  lemma ClaimKeepsInv(s: State, t: Thread, count: nat)
    requires Inv(s) && Enabled(s, Claim(t, count))
    ensures Inv(Apply(s, Claim(t, count)))
  {
    ReaderMoveKeepsInv(s, t, RClaimed(s.head, s.head + count), s.head + count);
  }

  // The slot a header's tail points to has a valid key once anything was enqueued.
  lemma TailKeyValid(s: State, h: nat)
    requires Inv(s) && h < |s.headers| && |s.blocks| > 0
    ensures EntryAt(s, h, s.headers[h].tail).key.Some?
  {
    if h < |s.headers| - 1 {
      assert Full(s.headers[h], s.entries);
    } else {
      var cur := Last(s.headers);
      SlotSmall(cur, |s.blocks| - 1);
      assert Filled(cur, s.entries, |s.blocks|, SlotOf(cur, |s.blocks| - 1));
    }
  }

  // A pinned block is where its slot says, in any header recent enough.
  lemma HomeFound(s: State, r: Reader, h: nat)
    requires Inv(s) && h < |s.headers| && Pinned(s, r, h)
    ensures var m := r.cur / BLOCK_SIZE;
            && m < |s.blocks| && m !in s.released
            && EntryAt(s, h, SlotOf(s.headers[h], m)) == Entry(Some(m), Ptr(s.blocks[m]))
  {
    var m := r.cur / BLOCK_SIZE;
    assert Busy(r, m);
    assert Home(s.headers[h], s.entries, m);
  }

  lemma ReadOk(s: State, r: Reader)
    requires Inv(s) && ReaderOk(s, r) && ReaderEnabled(s, r)
    ensures ReaderOk(s, ReaderStep(s, r))
  {
    hide Older, Current, Values, WriterOk, Readers;
    assert Pinned(s, r, |s.headers| - 1) by {
      forall m | 0 <= m < |s.born| && Busy(r, m) ensures s.born[m] <= |s.headers| - 1 {}
    }
    match r {
      case RClaimed(cur, hi) =>
      case RHeader(cur, hi, h) => TailKeyValid(s, h);
      case RTail(cur, hi, h, tail) =>
        assert InPlace(s.headers[h], s.entries, tail);
        LookupSlot(s.headers[h], EntryAt(s, h, tail).key.value, cur / BLOCK_SIZE);
      case RSlot(cur, hi, h, slot) => HomeFound(s, r, h);
    }
  }

  lemma ReadKeepsInv(s: State, t: Thread)
    requires Inv(s) && Enabled(s, Read(t))
    ensures Inv(Apply(s, Read(t)))
  {
    var r := s.readers[t];
    assert ReaderOk(s, r);
    ReadOk(s, r);
    hide Inv, ReaderOk, ReaderStep;
    assert s.(head := s.head) == s;
    ReaderMoveKeepsInv(s, t, ReaderStep(s, r), s.head);
  }

  lemma NextBlockOk(s: State, r: Reader)
    requires Inv(s) && r.RBlock? && ReaderOk(s, r)
    ensures ReaderOk(s, NextBlock(s, r))
    ensures !Busy(NextBlock(s, r), r.cur / BLOCK_SIZE)
  {
    SlotNext(s.headers[r.h], r.cur / BLOCK_SIZE);
    var end := (r.cur / BLOCK_SIZE + 1) * BLOCK_SIZE;
    assert end / BLOCK_SIZE == r.cur / BLOCK_SIZE + 1;
  }

  lemma ClearKeepsValues(s: State, t: Thread)
    requires Inv(s) && Enabled(s, Finish(t, true))
    ensures var r := s.readers[t];
            var e := s.headers[r.h].index[r.slot];
            var m := r.cur / BLOCK_SIZE;
            && s.entries[e].key == Some(m)
            && Values(s.entries[e := s.entries[e].(value := Null)], s.blocks, s.released + {m})
  {
    var r := s.readers[t];
    var e := s.headers[r.h].index[r.slot];
    assert ReaderOk(s, r);
    HomeFound(s, r, r.h);
    forall d | 0 <= d < |s.entries| && s.entries[d].key == s.entries[e].key ensures d == e { KeyUnique(s, d, e); }
  }

  lemma ClearKeepsReaders(s: State, t: Thread)
    requires Inv(s) && Enabled(s, Finish(t, true))
    requires ReaderOk(s, NextBlock(s, s.readers[t])) && !Busy(NextBlock(s, s.readers[t]), s.readers[t].cur / BLOCK_SIZE)
    ensures var s' := Apply(s, Finish(t, true));
            Shape(s'.headers, |s'.entries|) && Readers(s')
  {
    var s' := Apply(s, Finish(t, true));
    var m := s.readers[t].cur / BLOCK_SIZE;
    forall u | u in s'.readers ensures ReaderOk(s', s'.readers[u]) {
      var r := s'.readers[u];
      assert ReaderOk(s, r) && !Busy(r, m);
    }
  }

  lemma FinishKeepsInv(s: State, t: Thread, release: bool)
    requires Inv(s) && Enabled(s, Finish(t, release))
    ensures Inv(Apply(s, Finish(t, release)))
  {
    var r := s.readers[t];
    assert ReaderOk(s, r);
    NextBlockOk(s, r);
    if release { ClearKeepsInv(s, t); } else { PassKeepsInv(s, t); }
  }

  lemma PassKeepsInv(s: State, t: Thread)
    requires Inv(s) && Enabled(s, Finish(t, false)) && ReaderOk(s, NextBlock(s, s.readers[t]))
    ensures Inv(Apply(s, Finish(t, false)))
  {
    hide Residues, Older, Current, Values, Homes, Readers;
    ReaderMoveKeepsInv(s, t, NextBlock(s, s.readers[t]), s.head);
    assert Apply(s, Finish(t, false)) == s.(readers := s.readers[t := NextBlock(s, s.readers[t])], head := s.head);
  }

  lemma ClearKeepsInv(s: State, t: Thread)
    requires Inv(s) && Enabled(s, Finish(t, true)) && ReaderOk(s, s.readers[t])
    requires ReaderOk(s, NextBlock(s, s.readers[t])) && !Busy(NextBlock(s, s.readers[t]), s.readers[t].cur / BLOCK_SIZE)
    ensures Inv(Apply(s, Finish(t, true)))
  {
    hide Residues, Older, Current, Values, Homes, Readers;
    ClearKeepsValues(s, t);
    ClearKeepsReaders(s, t);
    KeysSame(s, Apply(s, Finish(t, true)));
  }

  /** Every step of the producer and of every consumer preserves the invariant. */
  lemma ActionKeepsInv(s: State, a: Action)
    requires Inv(s) && Enabled(s, a)
    ensures Inv(Apply(s, a))
  {
    match a
    case StartBlock => WriterMoveKeepsInv(s, WProbe);
    case Write(got) => WriteKeepsInv(s, got);
    case Publish(count) => PublishKeepsInv(s, count);
    case Claim(t, count) => ClaimKeepsInv(s, t, count);
    case Read(t) => ReadKeepsInv(s, t);
    case Finish(t, release) => FinishKeepsInv(s, t, release);
  }

  lemma PublishKeepsInv(s: State, count: nat)
    requires Inv(s) && Enabled(s, Publish(count))
    ensures Inv(Apply(s, Publish(count)))
  {
    hide Residues, Older, Current, Values, Homes, Readers;
    var s' := Apply(s, Publish(count));
    HomesDepend(s, s');
    ReadersStay(s, s');
  }

  lemma WriteKeepsInv(s: State, got: Option<Block>)
    requires Inv(s) && Enabled(s, Write(got))
    ensures Inv(Apply(s, Write(got)))
  {
    hide Residues, Older, Current, Values, Homes, Readers;
    match s.writer
    case WProbe => ProbeKeepsInv(s, got);
    case WGrow =>
      if got.Some? { GrowKeepsInv(s, got); } else { GiveUp(s); }
    case WKey(_) => KeyKeepsInv(s, got);
    case WTail(_) => TailStepKeepsInv(s, got);
    case WBlock(slot) => WriterMoveKeepsInv(s, if got == None then WRewind(slot) else WValue(slot, got.value));
    case WValue(_, _) => InsertKeepsInv(s, got);
    case WRewind(_) => TailStepKeepsInv(s, got);
    case WNull(_) => NullKeepsInv(s, got);
  }

  lemma GiveUp(s: State)
    requires Inv(s) && s.writer == WGrow
    ensures Inv(s.(writer := WIdle))
  {
    WriterMoveKeepsInv(s, WIdle);
  }

  lemma InitialInv(s: State)
    requires Initial(s)
    ensures Inv(s)
  {
    var cur := s.headers[0];
    ModIs(-1, -1, INITIAL_CAPACITY - 1, INITIAL_CAPACITY);
    assert |cur.index| == INITIAL_CAPACITY;
    forall e | 0 <= e < |s.entries| ensures e in cur.index { assert cur.index[e] == e; }
  }

  lemma {:induction false} RunInv(run: seq<State>, acts: seq<Action>, i: nat)
    requires IsRun(run, acts) && i < |run|
    ensures Inv(run[i])
  {
    if i == 0 {
      InitialInv(run[0]);
    } else {
      RunInv(run, acts, i - 1);
      ActionKeepsInv(run[i - 1], acts[i - 1]);
    }
  }

  // ---------- what the index guarantees ----------

  /** In every reachable state a consumer that has computed a slot, through whichever header it loaded,
      points at the entry whose key is the block of its next element and whose value is that block: the
      two assertions of get_block_index_index_for_index.  Wrap-around, reuse of slots, blocks released out
      of order, doubling and rewinding have all been allowed for. */
  lemma LookupCorrect(run: seq<State>, acts: seq<Action>, i: nat, t: Thread)
    requires IsRun(run, acts) && i < |run| && t in run[i].readers
    requires run[i].readers[t].RSlot? || run[i].readers[t].RBlock?
    ensures var s := run[i];
            var r := s.readers[t];
            var m := r.cur / BLOCK_SIZE;
            && Shape(s.headers, |s.entries|) && r.h < |s.headers| && r.slot < |s.headers[r.h].index|
            && m < |s.blocks|
            && EntryAt(s, r.h, r.slot) == Entry(Some(m), Ptr(s.blocks[m]))
            && (r.RBlock? ==> r.value == Ptr(s.blocks[m]))
  {
    RunInv(run, acts, i);
    var r := run[i].readers[t];
    assert ReaderOk(run[i], r);
    HomeFound(run[i], r, r.h);
  }

  /** A consumer's next look-up step is always possible: it never meets INVALID_BLOCK_BASE in the tail slot. */
  lemma LookupNeverStuck(run: seq<State>, acts: seq<Action>, i: nat, t: Thread)
    requires IsRun(run, acts) && i < |run| && t in run[i].readers
    requires !run[i].readers[t].RIdle? && !run[i].readers[t].RBlock?
    ensures Enabled(run[i], Read(t))
  {
    RunInv(run, acts, i);
    assert ReaderOk(run[i], run[i].readers[t]);
  }

  /** No block is cleared twice, and none is cleared while an element of it is still to be fetched. */
  lemma ClearedOnce(run: seq<State>, acts: seq<Action>, i: nat, t: Thread)
    requires IsRun(run, acts) && i < |acts| && acts[i] == Finish(t, true)
    ensures var s := run[i];
            t in s.readers && s.readers[t].RBlock? && s.readers[t].cur / BLOCK_SIZE !in s.released
  {
    RunInv(run, acts, i);
    var r := run[i].readers[t];
    assert ReaderOk(run[i], r);
    HomeFound(run[i], r, r.h);
  }
}
