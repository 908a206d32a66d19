/**
 The life of a block and of the elements in it, for one implicit producer among others that share the
 block pools: requisition from the initial pool, the free list or the allocator, filling, fetching by
 any number of consumers, counting completed elements, release.

 Two results of other modules are used as single actions: a consumer claims the next indices below the
 tail (module Dequeue), and looks up the block of an index (module BlockIndex, LookupCorrect); the free
 list adds and removes atomically (module FreeList).  In return `ClearAllowed` below discharges the
 condition under which BlockIndex lets an entry be cleared.

 `elems`, `blocks`, `delivered`, `marked`, `owner` and `phase` are history, except that `blocks`
 stands for what the block index returns.
 */
module BlockLife {
  import BlockIndex

  type Thread = nat
  type Block = nat
  type Elem = int

  const BLOCK_SIZE: nat := BlockIndex.BLOCK_SIZE

  datatype Producer =
    | PIdle
    | PPool               // saw room in the initial pool, about to fetch_add its index
    | PFree               // about to try the free list
    | PHas(block: Block)  // got a block, about to reset_empty it
    | PReset(block: Block)

  datatype Consumer =
    | CIdle
    | CFetch(start: nat, cur: nat, hi: nat)   // fetching start .. hi; start .. cur already moved out
    | CMark(start: nat, cur: nat, hi: nat)    // end of this block's share: set_many_empty
    | CClear(n: nat, cur: nat, hi: nat)       // completed block n: clear its index entry
    | CFree(n: nat, cur: nat, hi: nat)        // then hand it to the free list

  datatype Phase = Live | Full(who: Thread) | Freed

  datatype State = State(
    tail: nat,                       // tailIndex
    head: nat,                       // headIndex
    elems: seq<Elem>,                // every element written, in order
    blocks: seq<Block>,              // the block of each block number
    mem: map<(Block, nat), Elem>,    // constructed elements, by block and offset
    counter: map<Block, nat>,        // elementsCompletelyDequeued
    producer: Producer,
    consumers: map<Thread, Consumer>,
    poolSize: nat, poolNext: nat,    // initialBlockPoolSize, initialBlockPoolIndex
    made: nat,                       // blocks allocated beyond the pool
    free: set<Block>,
    elsewhere: set<Block>,           // in the hands of other producers
    delivered: map<nat, Elem>,
    marked: set<nat>,                // indices counted by set_empty / set_many_empty
    owner: seq<Thread>,              // who claimed each index
    phase: seq<Phase>)

  datatype Action =
    | NeedBlock                      // the producer reached the end of its last block
    | Produce(pick: Block, canAlloc: bool)   // its next step; the free list yields `pick`, or null when it is not in it
    | Write(x: Elem)                 // construct the next element in place
    | Publish                        // store to tailIndex
    | Claim(t: Thread, count: nat)
    | Consume(t: Thread)
    | OthersPool | OthersFree(b: Block) | OthersMake | OthersReturn(b: Block)

  function Counter(s: State, b: Block): nat { if b in s.counter then s.counter[b] else 0 }

  function Place(s: State, i: nat): (Block, nat)
    requires i / BLOCK_SIZE < |s.blocks|
  {
    (s.blocks[i / BLOCK_SIZE], i % BLOCK_SIZE)
  }

  function End(i: nat): nat { (i / BLOCK_SIZE + 1) * BLOCK_SIZE }

  predicate ConsumerEnabled(s: State, c: Consumer) {
    match c
    case CIdle => false
    case CFetch(_, cur, _) => cur / BLOCK_SIZE < |s.blocks| && Place(s, cur) in s.mem
    case CMark(start, cur, _) => start < cur && start / BLOCK_SIZE < |s.blocks| && start / BLOCK_SIZE < |s.phase|
    case CClear(n, _, _) => n < |s.blocks|
    case CFree(n, _, _) => n < |s.blocks| && n < |s.phase|
  }

  predicate Enabled(s: State, a: Action) {
    match a
    case NeedBlock => s.producer == PIdle && |s.elems| == |s.blocks| * BLOCK_SIZE
    case Produce(pick, _) => s.producer != PIdle
    case Write(_) => s.producer == PIdle && |s.elems| < |s.blocks| * BLOCK_SIZE
    case Publish => s.producer == PIdle
    case Claim(t, count) =>
      t in s.consumers && s.consumers[t] == CIdle && count > 0 && s.head + count <= s.tail
    case Consume(t) => t in s.consumers && ConsumerEnabled(s, s.consumers[t])
    case OthersPool => true
    case OthersFree(b) => b in s.free
    case OthersMake => true
    case OthersReturn(b) => b in s.elsewhere
  }

  function ProducerStep(s: State, pick: Block, canAlloc: bool): State
    requires Enabled(s, Produce(pick, canAlloc))
  {
    match s.producer
    case PPool =>
      s.(poolNext := s.poolNext + 1, producer := if s.poolNext < s.poolSize then PHas(s.poolNext) else PFree)
    case PFree =>
      if pick in s.free then s.(free := s.free - {pick}, producer := PHas(pick))
      else if canAlloc then s.(made := s.made + 1, producer := PHas(s.poolSize + s.made))
      else s.(producer := PIdle)
    case PHas(b) => s.(counter := s.counter[b := 0], producer := PReset(b))
    case PReset(b) => s.(blocks := s.blocks + [b], phase := s.phase + [Live], producer := PIdle)
  }

  // After a block's share: done, or on to the next block.
  function Onward(cur: nat, hi: nat): Consumer {
    if cur < hi then CFetch(cur, cur, hi) else CIdle
  }

  function Put(s: State, t: Thread, c: Consumer): State { s.(consumers := s.consumers[t := c]) }

  function ConsumerStep(s: State, t: Thread): State
    requires Enabled(s, Consume(t))
  {
    match s.consumers[t]
    case CFetch(start, cur, hi) =>
      var next := if cur + 1 < hi && cur + 1 < End(start) then CFetch(start, cur + 1, hi) else CMark(start, cur + 1, hi);
      Put(s, t, next).(mem := s.mem - {Place(s, cur)}, delivered := s.delivered[cur := s.mem[Place(s, cur)]])
    case CMark(start, cur, hi) =>
      var n := start / BLOCK_SIZE;
      var b := s.blocks[n];
      var s' := s.(counter := s.counter[b := Counter(s, b) + (cur - start)],
                   marked := s.marked + Range(start, cur));
      if Counter(s, b) + (cur - start) == BLOCK_SIZE
      then Put(s', t, CClear(n, cur, hi)).(phase := s.phase[n := Full(t)])
      else Put(s', t, Onward(cur, hi))
    case CClear(n, cur, hi) => Put(s, t, CFree(n, cur, hi))
    case CFree(n, cur, hi) =>
      Put(s, t, Onward(cur, hi)).(free := s.free + {s.blocks[n]}, phase := s.phase[n := Freed])
  }

  function Range(a: nat, b: nat): (r: set<nat>)
    ensures forall i :: i in r <==> a <= i < b
  {
    if b <= a then {} else Range(a, b - 1) + {b - 1}
  }

  function Repeat(n: nat, t: Thread): (r: seq<Thread>)
    ensures |r| == n && forall i :: 0 <= i < n ==> r[i] == t
  {
    seq(n, i => t)
  }

  function Apply(s: State, a: Action): State
    requires Enabled(s, a)
  {
    match a
    case NeedBlock => s.(producer := if s.poolNext < s.poolSize then PPool else PFree)
    case Produce(pick, canAlloc) => ProducerStep(s, pick, canAlloc)
    case Write(x) => s.(elems := s.elems + [x], mem := s.mem[Place(s, |s.elems|) := x])
    case Publish => s.(tail := |s.elems|)
    case Claim(t, count) =>
      Put(s, t, CFetch(s.head, s.head, s.head + count)).(head := s.head + count, owner := s.owner + Repeat(count, t))
    case Consume(t) => ConsumerStep(s, t)
    case OthersPool =>
      s.(poolNext := s.poolNext + 1, elsewhere := s.elsewhere + if s.poolNext < s.poolSize then {s.poolNext} else {})
    case OthersFree(b) => s.(free := s.free - {b}, elsewhere := s.elsewhere + {b})
    case OthersMake => s.(made := s.made + 1, elsewhere := s.elsewhere + {s.poolSize + s.made})
    case OthersReturn(b) => s.(elsewhere := s.elsewhere - {b}, free := s.free + {b})
  }

  predicate Initial(s: State) {
    && s.tail == s.head == s.poolNext == s.made == 0
    && s.elems == [] && s.blocks == [] && s.mem == map[] && s.counter == map[] && s.producer == PIdle
    && (forall t :: t in s.consumers ==> s.consumers[t] == CIdle)
    && s.free == {} && s.elsewhere == {} && s.delivered == map[] && s.marked == {}
    && s.owner == [] && s.phase == []
  }

  predicate IsRun(run: seq<State>, acts: seq<Action>) {
    && |run| == |acts| + 1
    && Initial(run[0])
    && forall i :: 0 <= i < |acts| ==> Enabled(run[i], acts[i]) && run[i + 1] == Apply(run[i], acts[i])
  }

  // ---------- counting marks ----------

  // How many of the first k indices from lo are marked.
  function Marks(marked: set<nat>, lo: nat, k: nat): (c: nat)
    ensures c <= k
    ensures c == k <==> forall i :: lo <= i < lo + k ==> i in marked
  {
    if k == 0 then 0 else Marks(marked, lo, k - 1) + if lo + k - 1 in marked then 1 else 0
  }

  function Min(a: int, b: int): int { if a < b then a else b }
  function Max(a: int, b: int): int { if a > b then a else b }

  lemma {:induction false} MarksAdd(marked: set<nat>, a: nat, b: nat, lo: nat, k: nat)
    requires a <= b && forall i :: a <= i < b ==> i !in marked
    ensures Marks(marked + Range(a, b), lo, k) == Marks(marked, lo, k) + Max(0, Min(b, lo + k) - Max(a, lo))
  {
    if k > 0 { MarksAdd(marked, a, b, lo, k - 1); }
  }

  // ---------- the invariant ----------

  predicate Counts(s: State) {
    && s.head <= s.tail <= |s.elems| <= |s.blocks| * BLOCK_SIZE
    && |s.owner| == s.head && |s.phase| == |s.blocks|
  }

  predicate InPool(s: State, b: Block) { s.poolNext <= b < s.poolSize }

  predicate InHand(s: State, b: Block) { s.producer == PHas(b) || s.producer == PReset(b) }

  predicate InUse(s: State, n: nat) { n < |s.blocks| && n < |s.phase| && s.phase[n] != Freed }

  // A block in one of the shared places is not in another, nor in the producer's hand.
  predicate Apart(s: State, b: Block) {
    && (b in s.free ==> b < s.poolSize + s.made && !InPool(s, b) && b !in s.elsewhere && !InHand(s, b))
    && (b in s.elsewhere ==> b < s.poolSize + s.made && !InPool(s, b) && !InHand(s, b))
    && (InHand(s, b) ==> b < s.poolSize + s.made && !InPool(s, b))
  }

  // Nor is a block in use by the producer, and it is in use only once.
  predicate Kept(s: State, n: nat)
    requires n < |s.blocks|
  {
    var b := s.blocks[n];
    b < s.poolSize + s.made && !InPool(s, b) && b !in s.free && b !in s.elsewhere && !InHand(s, b)
  }

  ghost predicate Places(s: State) {
    && (forall b :: b in s.free ==> Apart(s, b))
    && (forall b :: b in s.elsewhere ==> Apart(s, b))
    && (s.producer.PHas? || s.producer.PReset? ==> Apart(s, s.producer.block))
    && (forall n: nat :: InUse(s, n) ==> Kept(s, n))
    && (forall m: nat, n: nat :: InUse(s, m) && InUse(s, n) && m != n ==> s.blocks[m] != s.blocks[n])
  }

  predicate ElemOk(s: State, i: nat) {
    && i < |s.elems| && i / BLOCK_SIZE < |s.blocks|
    && if i in s.delivered
       then i < s.head && s.delivered[i] == s.elems[i]
       else Place(s, i) in s.mem && s.mem[Place(s, i)] == s.elems[i]
  }

  predicate Memory(s: State) {
    && (forall i :: 0 <= i < |s.elems| ==> ElemOk(s, i))
    && (forall i :: i in s.delivered ==> i < s.head)
    && (forall i :: i in s.marked ==> i in s.delivered)
  }

  predicate CounterOk(s: State, n: nat)
    requires n < |s.blocks| && n < |s.phase|
  {
    var marks := Marks(s.marked, n * BLOCK_SIZE, BLOCK_SIZE);
    if s.phase[n] == Live then marks < BLOCK_SIZE && Counter(s, s.blocks[n]) == marks else marks == BLOCK_SIZE
  }

  predicate Counters(s: State)
    requires |s.phase| == |s.blocks|
  {
    && (forall n :: 0 <= n < |s.blocks| ==> CounterOk(s, n))
    && (s.producer.PReset? ==> Counter(s, s.producer.block) == 0)
  }

  // The indices a consumer still owes a mark for are First(c) .. c.hi.
  function First(c: Consumer): nat
    requires !c.CIdle?
  {
    if c.CFetch? || c.CMark? then c.start else c.cur
  }

  predicate Owes(c: Consumer, i: nat) { !c.CIdle? && First(c) <= i < c.hi }

  // t owes lo .. hi, of which lo .. cur have been moved out.
  predicate Due(s: State, t: Thread, lo: nat, cur: nat, hi: nat) {
    && lo <= cur <= hi <= s.head && s.head <= |s.owner|
    && (forall i :: lo <= i < hi ==> s.owner[i] == t && i !in s.marked)
    && (forall i :: lo <= i < hi ==> (i in s.delivered <==> i < cur))
  }

  predicate Releasing(s: State, t: Thread, n: nat, cur: nat, hi: nat) {
    && Due(s, t, cur, cur, hi) && n < |s.phase| && s.phase[n] == Full(t)
    && (n + 1) * BLOCK_SIZE <= s.head
    && (cur < hi ==> cur == (n + 1) * BLOCK_SIZE) && hi > n * BLOCK_SIZE && (cur == hi ==> hi <= (n + 1) * BLOCK_SIZE)
  }

  predicate ConsumerOk(s: State, t: Thread, c: Consumer) {
    match c
    case CIdle => true
    case CFetch(start, cur, hi) => Due(s, t, start, cur, hi) && cur < hi && cur < End(start)
    case CMark(start, cur, hi) =>
      Due(s, t, start, cur, hi) && start < cur <= End(start) && (cur == hi || cur == End(start))
    case CClear(n, cur, hi) => Releasing(s, t, n, cur, hi)
    case CFree(n, cur, hi) => Releasing(s, t, n, cur, hi)
  }

  predicate Consumers(s: State) { forall t :: t in s.consumers ==> ConsumerOk(s, t, s.consumers[t]) }

  // Every claimed index that is not marked is owed by the thread that claimed it.
  predicate OwedAt(s: State, i: nat) {
    i < |s.owner| && s.owner[i] in s.consumers && Owes(s.consumers[s.owner[i]], i)
  }

  // Every full block is in the hands of the one consumer that completed it.
  predicate HeldFull(s: State, n: nat)
    requires n < |s.phase|
  {
    s.phase[n].Full? ==>
      && s.phase[n].who in s.consumers
      && (s.consumers[s.phase[n].who].CClear? || s.consumers[s.phase[n].who].CFree?)
      && s.consumers[s.phase[n].who].n == n
  }

  predicate Owed(s: State) {
    && (forall i :: 0 <= i < s.head && i !in s.marked ==> OwedAt(s, i))
    && (forall n :: 0 <= n < |s.phase| ==> HeldFull(s, n))
  }

  ghost predicate Inv(s: State) {
    Counts(s) && Places(s) && Memory(s) && Counters(s) && Consumers(s) && Owed(s)
  }

  // ---------- frames: what each part of the invariant depends on ----------

  lemma MemoryFrame(s: State, s': State)
    requires Memory(s) && s'.elems == s.elems && s'.mem == s.mem && s'.delivered == s.delivered && s'.marked == s.marked
    requires s.head <= s'.head && s.blocks <= s'.blocks
    ensures Memory(s')
  {
    forall i | 0 <= i < |s.elems| ensures ElemOk(s', i) { assert ElemOk(s, i); }
  }

  lemma ConsumersFrame(s: State, s': State)
    requires Consumers(s) && s'.consumers == s.consumers && s'.marked == s.marked && s'.delivered == s.delivered
    requires s'.head == s.head && s'.owner == s.owner && s.phase <= s'.phase
    ensures Consumers(s')
  {
    forall t | t in s'.consumers ensures ConsumerOk(s', t, s'.consumers[t]) { assert ConsumerOk(s, t, s.consumers[t]); }
  }

  lemma OwedFrame(s: State, s': State)
    requires Owed(s) && s'.consumers == s.consumers && s'.marked == s.marked && s'.head == s.head && s'.owner == s.owner
    requires s'.phase == s.phase || s'.phase == s.phase + [Live]
    ensures Owed(s')
  {
    forall i | 0 <= i < s'.head && i !in s'.marked ensures OwedAt(s', i) { assert OwedAt(s, i); }
    forall n | 0 <= n < |s'.phase| ensures HeldFull(s', n) { if n < |s.phase| { assert HeldFull(s, n); } }
  }

  lemma CountersFrame(s: State, s': State)
    requires |s.phase| == |s.blocks| && Counters(s)
    requires s'.blocks == s.blocks && s'.phase == s.phase && s'.marked == s.marked && s'.counter == s.counter
    requires s'.producer.PReset? ==> s'.producer == s.producer
    ensures Counters(s')
  {
    forall n | 0 <= n < |s'.blocks| ensures CounterOk(s', n) { assert CounterOk(s, n); }
  }

  // Steps that leave the elements, the counters and the consumers alone.
  predicate Elsewhere(s: State, s': State) {
    && s'.elems == s.elems && s'.mem == s.mem && s'.delivered == s.delivered && s'.marked == s.marked
    && s'.blocks == s.blocks && s'.phase == s.phase && s'.counter == s.counter
    && s'.consumers == s.consumers && s'.owner == s.owner && s'.head == s.head
    && (s'.producer.PReset? ==> s'.producer == s.producer)
  }

  lemma ElsewhereKeeps(s: State, s': State)
    requires Inv(s) && Elsewhere(s, s') && Counts(s') && Places(s')
    ensures Inv(s')
  {
    hide Memory, Consumers, Owed, Places;
    MemoryFrame(s, s');
    ConsumersFrame(s, s');
    OwedFrame(s, s');
    CountersFrame(s, s');
  }

  // ---------- the shared places ----------

  lemma PoolKeepsPlaces(s: State, a: Action)
    requires Places(s) && Enabled(s, a)
    requires a.OthersPool? || a.OthersFree? || a.OthersMake? || a.OthersReturn? || a.NeedBlock? || a.Publish?
    ensures Places(Apply(s, a))
  {
    var s' := Apply(s, a);
    forall b | b in s'.free ensures Apart(s', b) { assert b in s.free ==> Apart(s, b); }
    forall b | b in s'.elsewhere ensures Apart(s', b) { assert b in s.elsewhere ==> Apart(s, b); }
    forall n: nat | InUse(s', n) ensures Kept(s', n) { assert InUse(s, n); assert Kept(s, n); }
    assert forall n: nat :: InUse(s', n) ==> InUse(s, n);
  }

  lemma PoolKeepsInv(s: State, a: Action)
    requires Inv(s) && Enabled(s, a)
    requires a.OthersPool? || a.OthersFree? || a.OthersMake? || a.OthersReturn? || a.NeedBlock? || a.Publish?
    ensures Inv(Apply(s, a))
  {
    hide Memory, Consumers, Owed, Places, Counters;
    PoolKeepsPlaces(s, a);
    ElsewhereKeeps(s, Apply(s, a));
  }

  lemma PlacesFrame(s: State, s': State)
    requires Places(s) && s'.free == s.free && s'.elsewhere == s.elsewhere && (s'.producer == s.producer || (s.producer.PHas? && s'.producer == PReset(s.producer.block)))
    requires s'.poolNext == s.poolNext && s'.poolSize == s.poolSize && s'.made == s.made && s'.blocks == s.blocks
    requires |s.phase| == |s'.phase|
    requires forall n :: 0 <= n < |s.phase| ==> (s'.phase[n] == Freed <==> s.phase[n] == Freed)
    ensures Places(s')
  {
    forall b | b in s'.free ensures Apart(s', b) { assert Apart(s, b); }
    forall b | b in s'.elsewhere ensures Apart(s', b) { assert Apart(s, b); }
    assert forall n: nat :: InUse(s', n) ==> InUse(s, n);
    forall n: nat | InUse(s', n) ensures Kept(s', n) { assert Kept(s, n); }
  }

  // Taking a block: from the initial pool, from the free list, or freshly allocated.  Stated for any move
  // of one block into the producer's hand out of one of these places.
  lemma TakeKeepsPlaces(s: State, s': State)
    requires Places(s) && s'.blocks == s.blocks && s'.phase == s.phase && s'.elsewhere == s.elsewhere
    requires s'.poolSize == s.poolSize && s.poolNext <= s'.poolNext && s.made <= s'.made && s'.free <= s.free
    requires !s.producer.PHas? && !s.producer.PReset? && !s'.producer.PReset?
    requires s'.producer.PHas? ==>
               var b := s'.producer.block;
               || (InPool(s, b) && !InPool(s', b))
               || (b in s.free && b !in s'.free)
               || s.poolSize + s.made <= b < s.poolSize + s'.made
    ensures Places(s')
  {
    forall b | b in s'.free ensures Apart(s', b) { assert Apart(s, b); }
    forall b | b in s'.elsewhere ensures Apart(s', b) { assert Apart(s, b); }
    if s'.producer.PHas? { assert Apart(s, s'.producer.block) || s'.producer.block !in s.free; }
    assert forall n: nat :: InUse(s', n) ==> InUse(s, n);
    forall n: nat | InUse(s', n) ensures Kept(s', n) { assert Kept(s, n); }
  }

  lemma ProduceKeepsPlaces(s: State, pick: Block, canAlloc: bool)
    requires Places(s) && Enabled(s, Produce(pick, canAlloc)) && |s.phase| == |s.blocks|
    ensures Places(ProducerStep(s, pick, canAlloc))
  {
    hide Places;
    if s.producer.PReset? {
      InsertKeepsPlaces(s, pick, canAlloc);
    } else if s.producer.PHas? {
      PlacesFrame(s, ProducerStep(s, pick, canAlloc));
    } else {
      TakeKeepsPlaces(s, ProducerStep(s, pick, canAlloc));
    }
  }

  // Putting the block in use.
  lemma InsertKeepsPlaces(s: State, pick: Block, canAlloc: bool)
    requires Places(s) && s.producer.PReset? && |s.phase| == |s.blocks|
    ensures Places(ProducerStep(s, pick, canAlloc))
  {
    var s' := ProducerStep(s, pick, canAlloc);
    forall b | b in s'.free ensures Apart(s', b) { assert Apart(s, b); }
    forall b | b in s'.elsewhere ensures Apart(s', b) { assert Apart(s, b); }
    assert Apart(s, s.producer.block);
    assert forall n: nat :: InUse(s', n) ==> InUse(s, n) || n == |s.blocks|;
    forall n: nat | InUse(s', n) ensures Kept(s', n) { if n < |s.blocks| { assert Kept(s, n); } }
    forall n: nat | InUse(s, n) ensures s.blocks[n] != s.producer.block { assert Kept(s, n); }
  }

  lemma MarksNone(marked: set<nat>, lo: nat, k: nat)
    requires forall i :: i in marked ==> i < lo
    ensures Marks(marked, lo, k) == 0
  {
    if k > 0 { MarksNone(marked, lo, k - 1); }
  }

  lemma ProduceKeepsCounters(s: State, pick: Block, canAlloc: bool)
    requires Inv(s) && Enabled(s, Produce(pick, canAlloc))
    ensures var s' := ProducerStep(s, pick, canAlloc); |s'.phase| == |s'.blocks| && Counters(s')
  {
    hide Consumers, Owed;
    var s' := ProducerStep(s, pick, canAlloc);
    MarksNone(s.marked, |s.blocks| * BLOCK_SIZE, BLOCK_SIZE);
    forall n | 0 <= n < |s'.blocks| ensures CounterOk(s', n) {
      if n < |s.blocks| {
        assert CounterOk(s, n);
        assert InUse(s, n) ==> Kept(s, n);
      }
    }
  }

  lemma ProduceKeepsInv(s: State, pick: Block, canAlloc: bool)
    requires Inv(s) && Enabled(s, Produce(pick, canAlloc))
    ensures Inv(ProducerStep(s, pick, canAlloc))
  {
    hide Memory, Consumers, Owed, Places, Counters;
    var s' := ProducerStep(s, pick, canAlloc);
    ProduceKeepsPlaces(s, pick, canAlloc);
    ProduceKeepsCounters(s, pick, canAlloc);
    MemoryFrame(s, s');
    ConsumersFrame(s, s');
    OwedFrame(s, s');
  }

  // ---------- elements ----------

  // Two indices with work left never share a cell.
  lemma PlacesDiffer(s: State, i: nat, j: nat)
    requires Counts(s) && Places(s) && Memory(s) && Counters(s)
    requires i != j && i / BLOCK_SIZE < |s.blocks| && j / BLOCK_SIZE < |s.blocks|
    requires i !in s.delivered && j !in s.delivered
    ensures Place(s, i) != Place(s, j)
  {
    var m, n := i / BLOCK_SIZE, j / BLOCK_SIZE;
    assert CounterOk(s, m) && CounterOk(s, n);
    assert i !in s.marked && j !in s.marked;
    assert m * BLOCK_SIZE <= i < m * BLOCK_SIZE + BLOCK_SIZE;
    assert n * BLOCK_SIZE <= j < n * BLOCK_SIZE + BLOCK_SIZE;
    assert InUse(s, m) && InUse(s, n);
  }

  lemma WriteKeepsInv(s: State, x: Elem)
    requires Inv(s) && Enabled(s, Write(x))
    ensures Inv(Apply(s, Write(x)))
  {
    hide Consumers, Owed;
    var s' := Apply(s, Write(x));
    var k := |s.elems|;
    assert k / BLOCK_SIZE < |s.blocks|;
    forall i | 0 <= i < |s'.elems| ensures ElemOk(s', i) {
      if i < k {
        assert ElemOk(s, i);
        if i !in s.delivered { PlacesDiffer(s, i, k); }
      }
    }
    PlacesFrame(s, s');
    ConsumersFrame(s, s');
    OwedFrame(s, s');
    CountersFrame(s, s');
  }

  lemma ClaimKeepsConsumers(s: State, t: Thread, count: nat)
    requires Counts(s) && Memory(s) && Consumers(s) && Enabled(s, Claim(t, count))
    ensures Consumers(Apply(s, Claim(t, count)))
  {
    hide ElemOk;
    var s' := Apply(s, Claim(t, count));
    forall u | u in s'.consumers ensures ConsumerOk(s', u, s'.consumers[u]) {
      if u != t { assert ConsumerOk(s, u, s.consumers[u]); }
    }
  }

  lemma ClaimKeepsInv(s: State, t: Thread, count: nat)
    requires Inv(s) && Enabled(s, Claim(t, count))
    ensures Inv(Apply(s, Claim(t, count)))
  {
    hide Places, Counters, Memory, Consumers;
    var s' := Apply(s, Claim(t, count));
    PlacesFrame(s, s');
    MemoryFrame(s, s');
    CountersFrame(s, s');
    ClaimKeepsConsumers(s, t, count);
    hide ConsumerOk;
    forall i | 0 <= i < s'.head && i !in s'.marked ensures OwedAt(s', i) {
      if i < s.head { assert OwedAt(s, i); }
    }
    forall n | 0 <= n < |s'.phase| ensures HeldFull(s', n) { assert HeldFull(s, n); }
  }

  // A consumer is unaffected when another one moves out or marks indices that this one does not owe.
  lemma OthersOk(s: State, s': State, t: Thread)
    requires Consumers(s) && t in s.consumers && t in s'.consumers && s'.consumers == s.consumers[t := s'.consumers[t]]
    requires s'.head == s.head && s'.owner == s.owner && |s'.phase| == |s.phase|
    requires forall n :: 0 <= n < |s.phase| ==> s'.phase[n] == s.phase[n] || !s.phase[n].Full? || s.phase[n].who == t
    requires forall i :: 0 <= i < s.head && i < |s.owner| && s.owner[i] != t ==> (i in s'.marked <==> i in s.marked)
    requires forall i :: 0 <= i < s.head && i < |s.owner| && s.owner[i] != t ==> (i in s'.delivered <==> i in s.delivered)
    ensures forall u :: u in s.consumers && u != t ==> ConsumerOk(s', u, s'.consumers[u])
  {
    hide ConsumerOk;
    forall u | u in s.consumers && u != t ensures ConsumerOk(s', u, s'.consumers[u]) {
      assert ConsumerOk(s, u, s.consumers[u]);
      OtherOk(s, s', t, u, s.consumers[u]);
    }
  }

  lemma OtherOk(s: State, s': State, t: Thread, u: Thread, c: Consumer)
    requires u != t && ConsumerOk(s, u, c)
    requires s'.head == s.head && s'.owner == s.owner && |s'.phase| == |s.phase|
    requires forall n :: 0 <= n < |s.phase| ==> s'.phase[n] == s.phase[n] || !s.phase[n].Full? || s.phase[n].who == t
    requires forall i :: 0 <= i < s.head && i < |s.owner| && s.owner[i] != t ==> (i in s'.marked <==> i in s.marked)
    requires forall i :: 0 <= i < s.head && i < |s.owner| && s.owner[i] != t ==> (i in s'.delivered <==> i in s.delivered)
    ensures ConsumerOk(s', u, c)
  {
  }

  lemma FetchKeepsMemory(s: State, t: Thread)
    requires Inv(s) && Enabled(s, Consume(t)) && s.consumers[t].CFetch?
    ensures Memory(ConsumerStep(s, t))
  {
    var s' := ConsumerStep(s, t);
    var c := s.consumers[t];
    assert ConsumerOk(s, t, c);
    forall i | 0 <= i < |s'.elems| ensures ElemOk(s', i) {
      assert ElemOk(s, i) && ElemOk(s, c.cur);
      if i !in s'.delivered { PlacesDiffer(s, i, c.cur); }
    }
  }

  lemma FetchKeepsConsumers(s: State, t: Thread)
    requires Consumers(s) && Enabled(s, Consume(t)) && s.consumers[t].CFetch?
    ensures Consumers(ConsumerStep(s, t))
  {
    FetchKeepsSelf(s, t);
    FetchKeepsOthers(s, t);
    hide ConsumerOk;
    assert ConsumerStep(s, t).consumers.Keys == s.consumers.Keys;
  }

  lemma FetchKeepsSelf(s: State, t: Thread)
    requires Consumers(s) && Enabled(s, Consume(t)) && s.consumers[t].CFetch?
    ensures ConsumerOk(ConsumerStep(s, t), t, ConsumerStep(s, t).consumers[t])
  {
    assert ConsumerOk(s, t, s.consumers[t]);
    hide Consumers;
  }

  lemma FetchKeepsOthers(s: State, t: Thread)
    requires Consumers(s) && Enabled(s, Consume(t)) && s.consumers[t].CFetch?
    ensures forall u :: u in s.consumers && u != t ==> ConsumerOk(ConsumerStep(s, t), u, ConsumerStep(s, t).consumers[u])
  {
    assert ConsumerOk(s, t, s.consumers[t]);
    OthersOk(s, ConsumerStep(s, t), t);
  }

  lemma FetchKeepsOwed(s: State, t: Thread)
    requires Owed(s) && Enabled(s, Consume(t)) && s.consumers[t].CFetch?
    ensures Owed(ConsumerStep(s, t))
  {
    var s' := ConsumerStep(s, t);
    forall i | 0 <= i < s'.head && i !in s'.marked ensures OwedAt(s', i) { assert OwedAt(s, i); }
    forall n | 0 <= n < |s'.phase| ensures HeldFull(s', n) { assert HeldFull(s, n); }
  }

  lemma FetchKeepsInv(s: State, t: Thread)
    requires Inv(s) && Enabled(s, Consume(t)) && s.consumers[t].CFetch?
    ensures Inv(ConsumerStep(s, t))
  {
    hide Places, Memory, Counters, Consumers, Owed;
    var s' := ConsumerStep(s, t);
    FetchKeepsMemory(s, t);
    FetchKeepsConsumers(s, t);
    FetchKeepsOwed(s, t);
    PlacesFrame(s, s');
    CountersFrame(s, s');
  }

  // The block a consumer is about to mark a share of is live, so its counter is the number of marks.
  lemma MarkLive(s: State, t: Thread)
    requires Inv(s) && Enabled(s, Consume(t)) && s.consumers[t].CMark?
    ensures var c := s.consumers[t];
            var n := c.start / BLOCK_SIZE;
            && s.phase[n] == Live && CounterOk(s, n) && InUse(s, n) && Kept(s, n)
            && n * BLOCK_SIZE <= c.start < c.cur <= n * BLOCK_SIZE + BLOCK_SIZE
            && (forall i :: c.start <= i < c.cur ==> i !in s.marked && i in s.delivered)
  {
    var c := s.consumers[t];
    var n := c.start / BLOCK_SIZE;
    assert ConsumerOk(s, t, c);
    assert n * BLOCK_SIZE <= c.start < n * BLOCK_SIZE + BLOCK_SIZE;
    assert c.start !in s.marked && CounterOk(s, n);
    assert InUse(s, n);
  }

  // The count a consumer adds is exact, and it brings the counter to BLOCK_SIZE exactly when the whole
  // block is marked.
  lemma MarkKeepsCounter(s: State, t: Thread, m: nat)
    requires Inv(s) && Enabled(s, Consume(t)) && s.consumers[t].CMark? && m < |s.blocks|
    ensures CounterOk(ConsumerStep(s, t), m)
  {
    hide Consumers, Owed, Memory;
    var c := s.consumers[t];
    var n := c.start / BLOCK_SIZE;
    MarkLive(s, t);
    assert CounterOk(s, m);
    MarksAdd(s.marked, c.start, c.cur, m * BLOCK_SIZE, BLOCK_SIZE);
    if m == n {
    } else {
      assert InUse(s, m) ==> s.blocks[m] != s.blocks[n];
      assert m < n || n < m;
    }
  }

  lemma MarkKeepsCounters(s: State, t: Thread)
    requires Inv(s) && Enabled(s, Consume(t)) && s.consumers[t].CMark?
    ensures Counters(ConsumerStep(s, t))
  {
    hide Consumers, Owed, Memory, CounterOk;
    var s' := ConsumerStep(s, t);
    MarkLive(s, t);
    forall m | 0 <= m < |s'.blocks| ensures CounterOk(s', m) { MarkKeepsCounter(s, t, m); }
  }

  lemma MarkKeepsSelf(s: State, t: Thread)
    requires Inv(s) && Enabled(s, Consume(t)) && s.consumers[t].CMark?
    ensures ConsumerOk(ConsumerStep(s, t), t, ConsumerStep(s, t).consumers[t])
  {
    hide Places, Counters, Owed, Consumers;
    var s' := ConsumerStep(s, t);
    var c := s.consumers[t];
    var n := c.start / BLOCK_SIZE;
    MarkLive(s, t);
    assert ConsumerOk(s, t, c) by { assert Consumers(s); InstanceOf(s, t); }
    if Counter(s, s.blocks[n]) + (c.cur - c.start) == BLOCK_SIZE {
      MarksAdd(s.marked, c.start, c.cur, n * BLOCK_SIZE, BLOCK_SIZE);
      var last: nat := n * BLOCK_SIZE + BLOCK_SIZE - 1;
      assert last in s'.marked;
    }
  }

  lemma InstanceOf(s: State, t: Thread)
    requires Consumers(s) && t in s.consumers
    ensures ConsumerOk(s, t, s.consumers[t])
  {
  }

  lemma MarkKeepsOthers(s: State, t: Thread)
    requires Consumers(s) && Enabled(s, Consume(t)) && s.consumers[t].CMark?
    requires s.phase[s.consumers[t].start / BLOCK_SIZE] == Live
    ensures forall u :: u in s.consumers && u != t ==> ConsumerOk(ConsumerStep(s, t), u, ConsumerStep(s, t).consumers[u])
  {
    var s' := ConsumerStep(s, t);
    assert ConsumerOk(s, t, s.consumers[t]);
    OthersOk(s, s', t);
  }

  lemma MarkKeepsConsumers(s: State, t: Thread)
    requires Inv(s) && Enabled(s, Consume(t)) && s.consumers[t].CMark?
    ensures Consumers(ConsumerStep(s, t))
  {
    hide Places, Memory, Counters, Owed, ConsumerOk;
    MarkLive(s, t);
    MarkKeepsSelf(s, t);
    MarkKeepsOthers(s, t);
    assert ConsumerStep(s, t).consumers.Keys == s.consumers.Keys;
  }

  lemma MarkKeepsMemory(s: State, t: Thread)
    requires Inv(s) && Enabled(s, Consume(t)) && s.consumers[t].CMark?
    ensures Memory(ConsumerStep(s, t))
  {
    hide Places, Counters, Owed, Consumers;
    var s' := ConsumerStep(s, t);
    MarkLive(s, t);
    forall i | 0 <= i < |s.elems| ensures ElemOk(s', i) { assert ElemOk(s, i); }
  }

  lemma MarkKeepsOwed(s: State, t: Thread)
    requires Owed(s) && |s.phase| == |s.blocks| && Enabled(s, Consume(t)) && s.consumers[t].CMark?
    requires s.phase[s.consumers[t].start / BLOCK_SIZE] == Live
    ensures Owed(ConsumerStep(s, t))
  {
    var s' := ConsumerStep(s, t);
    forall i | 0 <= i < s'.head && i !in s'.marked ensures OwedAt(s', i) { assert OwedAt(s, i); }
    forall n | 0 <= n < |s'.phase| ensures HeldFull(s', n) { assert HeldFull(s, n); }
  }

  lemma MarkKeepsInv(s: State, t: Thread)
    requires Inv(s) && Enabled(s, Consume(t)) && s.consumers[t].CMark?
    ensures Inv(ConsumerStep(s, t))
  {
    hide Places, Memory, Counters, Consumers, Owed;
    var s' := ConsumerStep(s, t);
    MarkLive(s, t);
    MarkKeepsMemory(s, t);
    MarkKeepsCounters(s, t);
    MarkKeepsConsumers(s, t);
    MarkKeepsOwed(s, t);
    PlacesFrame(s, s');
  }

  lemma ClearKeepsInv(s: State, t: Thread)
    requires Inv(s) && Enabled(s, Consume(t)) && s.consumers[t].CClear?
    ensures Inv(ConsumerStep(s, t))
  {
    hide Places, Memory, Counters;
    var s' := ConsumerStep(s, t);
    assert ConsumerOk(s, t, s.consumers[t]);
    PlacesFrame(s, s');
    MemoryFrame(s, s');
    CountersFrame(s, s');
    OthersOk(s, s', t);
    forall i | 0 <= i < s'.head && i !in s'.marked ensures OwedAt(s', i) { assert OwedAt(s, i); }
    forall n | 0 <= n < |s'.phase| ensures HeldFull(s', n) { assert HeldFull(s, n); }
  }

  lemma FreeKeepsPlaces(s: State, t: Thread)
    requires Places(s) && Consumers(s) && |s.phase| == |s.blocks| && Enabled(s, Consume(t)) && s.consumers[t].CFree?
    ensures Places(ConsumerStep(s, t))
  {
    var s' := ConsumerStep(s, t);
    var n := s.consumers[t].n;
    assert ConsumerOk(s, t, s.consumers[t]);
    assert InUse(s, n);
    assert Kept(s, n);
    forall b | b in s'.free ensures Apart(s', b) { assert Apart(s, b); }
    forall b | b in s'.elsewhere ensures Apart(s', b) { assert Apart(s, b); }
    assert forall m: nat :: InUse(s', m) ==> InUse(s, m) && m != n;
    forall m: nat | InUse(s', m) ensures Kept(s', m) { assert Kept(s, m); }
  }

  lemma FreeKeepsInv(s: State, t: Thread)
    requires Inv(s) && Enabled(s, Consume(t)) && s.consumers[t].CFree?
    ensures Inv(ConsumerStep(s, t))
  {
    hide Places, Memory;
    var s' := ConsumerStep(s, t);
    assert ConsumerOk(s, t, s.consumers[t]);
    FreeKeepsPlaces(s, t);
    MemoryFrame(s, s');
    forall n | 0 <= n < |s'.blocks| ensures CounterOk(s', n) { assert CounterOk(s, n); }
    OthersOk(s, s', t);
    forall i | 0 <= i < s'.head && i !in s'.marked ensures OwedAt(s', i) { assert OwedAt(s, i); }
    forall n | 0 <= n < |s'.phase| ensures HeldFull(s', n) { assert HeldFull(s, n); }
  }

  // ---------- every run ----------

  lemma ActionKeepsInv(s: State, a: Action)
    requires Inv(s) && Enabled(s, a)
    ensures Inv(Apply(s, a))
  {
    hide Inv, Places, Memory, Counters, Consumers, Owed;
    match a
    case Produce(pick, canAlloc) => ProduceKeepsInv(s, pick, canAlloc);
    case Write(x) => WriteKeepsInv(s, x);
    case Claim(t, count) => ClaimKeepsInv(s, t, count);
    case Consume(t) =>
      match s.consumers[t] {
        case CFetch(_, _, _) => FetchKeepsInv(s, t);
        case CMark(_, _, _) => MarkKeepsInv(s, t);
        case CClear(_, _, _) => ClearKeepsInv(s, t);
        case CFree(_, _, _) => FreeKeepsInv(s, t);
      }
    case NeedBlock => PoolKeepsInv(s, a);
    case Publish => PoolKeepsInv(s, a);
    case OthersPool => PoolKeepsInv(s, a);
    case OthersFree(_) => PoolKeepsInv(s, a);
    case OthersMake => PoolKeepsInv(s, a);
    case OthersReturn(_) => PoolKeepsInv(s, a);
  }

  lemma {:induction false} RunInv(run: seq<State>, acts: seq<Action>, i: nat)
    requires IsRun(run, acts) && i < |run|
    ensures Inv(run[i])
  {
    if i > 0 {
      RunInv(run, acts, i - 1);
      ActionKeepsInv(run[i - 1], acts[i - 1]);
    }
  }

  /** Delivery: the step that moves an element out of index i is made by the thread that claimed i, i has
      not been moved out before, and what comes out is the i-th element enqueued. */
  lemma Delivery(run: seq<State>, acts: seq<Action>, i: nat, t: Thread)
    requires IsRun(run, acts) && i < |acts| && acts[i] == Consume(t) && run[i].consumers[t].CFetch?
    ensures var cur := run[i].consumers[t].cur;
            && cur < |run[i].elems| && cur < |run[i].owner| && run[i].owner[cur] == t
            && cur !in run[i].delivered
            && run[i + 1].delivered == run[i].delivered[cur := run[i].elems[cur]]
  {
    RunInv(run, acts, i);
    var s := run[i];
    assert ConsumerOk(s, t, s.consumers[t]) && ElemOk(s, s.consumers[t].cur);
  }

  predicate Extends(s: State, s': State) {
    && s.elems <= s'.elems && s.owner <= s'.owner && s.blocks <= s'.blocks
    && |s.phase| <= |s'.phase| && (forall n :: 0 <= n < |s.phase| && s.phase[n] == Freed ==> s'.phase[n] == Freed)
    && forall k :: k in s.delivered ==> k in s'.delivered && s'.delivered[k] == s.delivered[k]
  }

  lemma ConsumeExtends(s: State, t: Thread)
    requires Enabled(s, Consume(t))
    requires s.consumers[t].CFetch? ==> s.consumers[t].cur !in s.delivered
    requires s.consumers[t].CMark? ==> s.phase[s.consumers[t].start / BLOCK_SIZE] == Live
    ensures Extends(s, ConsumerStep(s, t))
  {
  }

  lemma StepExtends(s: State, a: Action)
    requires Inv(s) && Enabled(s, a)
    ensures Extends(s, Apply(s, a))
  {
    hide Places, Memory, Counters, Owed, Consumers;
    if a.Consume? {
      hide Extends;
      InstanceOf(s, a.t);
      if s.consumers[a.t].CMark? { MarkLive(s, a.t); }
      ConsumeExtends(s, a.t);
    }
  }

  /** History never changes: what has been enqueued, claimed or delivered at an index stays so, and a use
      of a block once released is over for good. */
  lemma {:induction false} HistoryGrows(run: seq<State>, acts: seq<Action>, i: nat, j: nat)
    requires IsRun(run, acts) && i <= j < |run|
    ensures Extends(run[i], run[j])
  {
    if i < j {
      HistoryGrows(run, acts, i, j - 1);
      RunInv(run, acts, j - 1);
      StepExtends(run[j - 1], acts[j - 1]);
    }
  }

  /** A consumer that has claimed indices can always take its next step: the block of its next element is
      in the index, and the element is there. */
  lemma NeverStuck(run: seq<State>, acts: seq<Action>, i: nat, t: Thread)
    requires IsRun(run, acts) && i < |run| && t in run[i].consumers && run[i].consumers[t] != CIdle
    ensures Enabled(run[i], Consume(t))
  {
    RunInv(run, acts, i);
    var s := run[i];
    var c := s.consumers[t];
    assert ConsumerOk(s, t, c);
    if c.CFetch? {
      assert ElemOk(s, c.cur);
    } else if c.CMark? {
      assert ElemOk(s, c.start);
    }
  }

  /** When every consumer is idle, exactly the indices below headIndex have been delivered, each with the
      element enqueued there. */
  lemma QuietDelivered(run: seq<State>, acts: seq<Action>, i: nat)
    requires IsRun(run, acts) && i < |run| && (forall t :: t in run[i].consumers ==> run[i].consumers[t] == CIdle)
    ensures var s := run[i];
            && s.head <= |s.elems|
            && (forall k :: 0 <= k < s.head ==> k in s.delivered && s.delivered[k] == s.elems[k])
            && (forall k :: k in s.delivered ==> k < s.head)
  {
    RunInv(run, acts, i);
    var s := run[i];
    forall k | 0 <= k < s.head ensures k in s.delivered && s.delivered[k] == s.elems[k] {
      assert k in s.marked;
      assert ElemOk(s, k);
    }
  }

  /** A block goes to the free list once per use (HistoryGrows), from the one thread that completed it, only after every
      element in it has been moved out, and while it is in no other place. */
  lemma ReleaseSafe(run: seq<State>, acts: seq<Action>, i: nat, t: Thread)
    requires IsRun(run, acts) && i < |acts| && acts[i] == Consume(t) && run[i].consumers[t].CFree?
    ensures var s := run[i];
            var n := s.consumers[t].n;
            && n < |s.phase| && n < |s.blocks| && s.phase[n] == Full(t) && run[i + 1].phase[n] == Freed
            && (forall k :: n * BLOCK_SIZE <= k < (n + 1) * BLOCK_SIZE ==> k in s.delivered)
            && s.blocks[n] !in s.free && s.blocks[n] !in s.elsewhere && !InPool(s, s.blocks[n]) && !InHand(s, s.blocks[n])
            && (forall m: nat :: InUse(s, m) && m != n ==> s.blocks[m] != s.blocks[n])
  {
    RunInv(run, acts, i);
    var s := run[i];
    var n := s.consumers[t].n;
    assert ConsumerOk(s, t, s.consumers[t]);
    assert InUse(s, n) && CounterOk(s, n);
    assert Kept(s, n);
  }

  /** At most one of: the initial pool, the free list, another producer's hands, this producer's hand, in
      use at some block number. */
  lemma OneOwner(run: seq<State>, acts: seq<Action>, i: nat, b: Block)
    requires IsRun(run, acts) && i < |run|
    ensures var s := run[i];
            && (InPool(s, b) ==> b !in s.free && b !in s.elsewhere && !InHand(s, b))
            && (b in s.free ==> b !in s.elsewhere && !InHand(s, b))
            && (b in s.elsewhere ==> !InHand(s, b))
            && (forall n: nat :: InUse(s, n) && s.blocks[n] == b ==>
                  !InPool(s, b) && b !in s.free && b !in s.elsewhere && !InHand(s, b))
            && (forall m: nat, n: nat :: InUse(s, m) && InUse(s, n) && s.blocks[m] == s.blocks[n] ==> m == n)
  {
    RunInv(run, acts, i);
    var s := run[i];
    assert b in s.free ==> Apart(s, b);
    assert b in s.elsewhere ==> Apart(s, b);
    forall n: nat | InUse(s, n) ensures Kept(s, n) {}
  }

  // ---------- the link to the block index ----------

  // The same consumers, as the block index sees them: left with cur .. hi, the block in hand included.
  predicate Matches(s: State, x: BlockIndex.State) {
    && x.head == s.head && x.readers.Keys == s.consumers.Keys
    && forall t :: t in s.consumers ==>
         var c, r := s.consumers[t], x.readers[t];
         if c.CIdle? then r.RIdle?
         else !r.RIdle? && r.hi == c.hi &&
              if c.CFetch? || c.CMark? then r.cur == c.start else r.cur / BLOCK_SIZE == c.n
  }

  /** When a consumer is about to clear the entry of a block, the condition module BlockIndex puts on
      clearing holds: the block is used up and no other consumer has an element of it left to fetch. */
  lemma ClearAllowed(run: seq<State>, acts: seq<Action>, i: nat, t: Thread, x: BlockIndex.State)
    requires IsRun(run, acts) && i < |run| && t in run[i].consumers && run[i].consumers[t].CClear?
    requires Matches(run[i], x)
    ensures BlockIndex.MayClear(x, t, run[i].consumers[t].n)
  {
    RunInv(run, acts, i);
    var s := run[i];
    var n := s.consumers[t].n;
    assert ConsumerOk(s, t, s.consumers[t]) && CounterOk(s, n);
    forall u | u in x.readers && u != t ensures !BlockIndex.Busy(x.readers[u], n) {
      var c := s.consumers[u];
      assert ConsumerOk(s, u, c);
      if !c.CIdle? && BlockIndex.Busy(x.readers[u], n) { NotBusy(s, u, n); }
    }
  }

  // No consumer owes an index of a block that is marked throughout.
  lemma NotBusy(s: State, u: Thread, n: nat)
    requires u in s.consumers && ConsumerOk(s, u, s.consumers[u]) && !s.consumers[u].CIdle?
    requires Marks(s.marked, n * BLOCK_SIZE, BLOCK_SIZE) == BLOCK_SIZE
    ensures var c := s.consumers[u];
            var at := if c.CFetch? || c.CMark? then c.start / BLOCK_SIZE else c.n;
            at <= n <= (c.hi - 1) / BLOCK_SIZE ==> (c.CClear? || c.CFree?) && c.n == n
  {
    var c := s.consumers[u];
    var first := n * BLOCK_SIZE;
    var k := Max(First(c), first);
    assert k in s.marked || first + BLOCK_SIZE <= k;
  }
}