/**
 The reference-counted lock-free free list.

 Each atomic operation of add, try_get and add_knowing_refcount_is_zero is one action; any number of
 threads interleave.  `list` and `phase` are history: no branch of `StepOf` reads them.
 A reference word keeps its 32 bits: the low 31 count references, the top bit is
 SHOULD_BE_ON_FREELIST.
 */
module FreeList {
  type Thread = nat
  type Node = nat

  datatype Option<+T> = None | Some(value: T)

  const SHOULD_BE_ON_FREELIST: nat := 0x8000_0000
  const WORD: nat := 0x1_0000_0000

  // Where add_knowing_refcount_is_zero returns to: add(), or try_get() with the head it last saw.
  datatype Return = ToAdd | ToTryGet(head: Option<Node>)

  datatype Pc =
    | Idle(got: Option<Node>)                       // `got`: what the last try_get returned
    // try_get
    | LoadHead
    | HasHead(head: Option<Node>)
    | HasRefs(node: Node, refs: nat)
    | Referenced(node: Node)
    | HasNext(node: Node, next: Option<Node>)
    | Taken(node: Node)                             // the CAS on the head succeeded
    | Dropping(node: Node, head: Option<Node>)      // it failed
    // add
    | Adding(node: Node)
    | Link(node: Node, ret: Return)
    | LinkStore(node: Node, head: Option<Node>, ret: Return)
    | Publish(node: Node, head: Option<Node>, ret: Return)
    | LinkCas(node: Node, head: Option<Node>, ret: Return)
    | Repay(node: Node, head: Option<Node>, ret: Return)

  datatype Phase =
    | Out                     // in a client's hands
    | Returning(who: Thread)   // add() called, bit not yet set
    | Wanted                  // bit set, but somebody still holds a reference
    | Linking(who: Thread)     // bit set, no references, being linked
    | Published(who: Thread)   // list reference stored, CAS on the head pending
    | Listed
    | Removed(who: Thread)     // unlinked by a try_get that still has to give back two references

  // freeListRefs, freeListNext, and the node's history
  datatype Cell = Cell(refs: nat, next: Option<Node>, phase: Phase)

  datatype State = State(
    head: Option<Node>,          // freeListHead
    cells: map<Node, Cell>,
    threads: map<Thread, Pc>,
    list: seq<Node>)

  datatype Action =
    | CallAdd(t: Thread, n: Node)
    | CallTryGet(t: Thread)
    | Step(t: Thread)

  function FetchAdd(word: nat, delta: int): nat { (word + delta) % WORD }

  function NodeOf(pc: Pc): Option<Node> {
    match pc
    case Idle(_) => None
    case LoadHead => None
    case HasHead(h) => h
    case HasRefs(n, _) => Some(n)
    case Referenced(n) => Some(n)
    case HasNext(n, _) => Some(n)
    case Taken(n) => Some(n)
    case Dropping(n, _) => Some(n)
    case Adding(n) => Some(n)
    case Link(n, _) => Some(n)
    case LinkStore(n, _, _) => Some(n)
    case Publish(n, _, _) => Some(n)
    case LinkCas(n, _, _) => Some(n)
    case Repay(n, _, _) => Some(n)
  }

  predicate Enabled(s: State, a: Action) {
    match a
    case CallAdd(t, n) => t in s.threads && s.threads[t].Idle? && n in s.cells && s.cells[n].phase == Out
    case CallTryGet(t) => t in s.threads && s.threads[t].Idle?
    case Step(t) =>
      && t in s.threads && !s.threads[t].Idle?
      && (NodeOf(s.threads[t]).Some? ==> NodeOf(s.threads[t]).value in s.cells)
  }

  function Move(s: State, t: Thread, pc: Pc): State { s.(threads := s.threads[t := pc]) }

  function Resume(ret: Return): Pc {
    match ret
    case ToAdd => Idle(None)
    case ToTryGet(head) => HasHead(head)
  }

  function Put(s: State, t: Thread, pc: Pc, n: Node, c: Cell): State {
    s.(threads := s.threads[t := pc], cells := s.cells[n := c])
  }

  function StepOf(s: State, t: Thread): State
    requires Enabled(s, Step(t))
  {
    match s.threads[t]
    case LoadHead => Move(s, t, HasHead(s.head))
    case HasHead(h) =>
      if h == None then Move(s, t, Idle(None))
      else
        var r := s.cells[h.value].refs;
        if r % SHOULD_BE_ON_FREELIST == 0 then Move(s, t, LoadHead) else Move(s, t, HasRefs(h.value, r))
    case HasRefs(n, r) =>
      if s.cells[n].refs == r
      then Put(s, t, Referenced(n), n, s.cells[n].(refs := FetchAdd(r, 1)))
      else Move(s, t, LoadHead)
    case Referenced(n) => Move(s, t, HasNext(n, s.cells[n].next))
    case HasNext(n, nx) =>
      if s.head == Some(n)
      then Put(s, t, Taken(n), n, s.cells[n].(phase := Removed(t)))
             .(head := nx, list := if s.list == [] then [] else s.list[1..])
      else Move(s, t, Dropping(n, s.head))
    case Taken(n) =>
      Put(s, t, Idle(Some(n)), n, s.cells[n].(refs := FetchAdd(s.cells[n].refs, -2), phase := Out))
    case Dropping(n, h) =>
      var c := s.cells[n].(refs := FetchAdd(s.cells[n].refs, -1));
      if s.cells[n].refs == SHOULD_BE_ON_FREELIST + 1
      then Put(s, t, Link(n, ToTryGet(h)), n, c.(phase := Linking(t)))
      else Put(s, t, HasHead(h), n, c)
    case Adding(n) =>
      var c := s.cells[n].(refs := FetchAdd(s.cells[n].refs, SHOULD_BE_ON_FREELIST));
      if s.cells[n].refs == 0
      then Put(s, t, Link(n, ToAdd), n, c.(phase := Linking(t)))
      else Put(s, t, Idle(None), n, c.(phase := Wanted))
    case Link(n, ret) => Move(s, t, LinkStore(n, s.head, ret))
    case LinkStore(n, h, ret) => Put(s, t, Publish(n, h, ret), n, s.cells[n].(next := h))
    case Publish(n, h, ret) => Put(s, t, LinkCas(n, h, ret), n, s.cells[n].(refs := 1, phase := Published(t)))
    case LinkCas(n, h, ret) =>
      if s.head == h
      then Put(s, t, Resume(ret), n, s.cells[n].(phase := Listed)).(head := Some(n), list := [n] + s.list)
      else Move(s, t, Repay(n, s.head, ret))
    case Repay(n, h, ret) =>
      var c := s.cells[n].(refs := FetchAdd(s.cells[n].refs, SHOULD_BE_ON_FREELIST - 1));
      if s.cells[n].refs == 1
      then Put(s, t, LinkStore(n, h, ret), n, c.(phase := Linking(t)))
      else Put(s, t, Resume(ret), n, c.(phase := Wanted))
  }

  function Apply(s: State, a: Action): State
    requires Enabled(s, a)
  {
    match a
    case CallAdd(t, n) => Put(s, t, Adding(n), n, s.cells[n].(phase := Returning(t)))
    case CallTryGet(t) => Move(s, t, LoadHead)
    case Step(t) => StepOf(s, t)
  }

  // Every node starts in a client's hands; the counter has room for one reference per thread.
  predicate Initial(s: State) {
    && s.head == None && s.list == []
    && |s.threads| + 2 < SHOULD_BE_ON_FREELIST
    && (forall n :: n in s.cells ==> s.cells[n] == Cell(0, None, Out))
    && (forall t :: t in s.threads ==> s.threads[t] == Idle(None))
  }

  predicate IsRun(run: seq<State>, acts: seq<Action>) {
    && |run| == |acts| + 1
    && Initial(run[0])
    && forall i :: 0 <= i < |acts| ==> Enabled(run[i], acts[i]) && run[i + 1] == Apply(run[i], acts[i])
  }

  // ---------- references ----------

  predicate Holds(pc: Pc, n: Node) {
    match pc
    case Referenced(m) => m == n
    case HasNext(m, _) => m == n
    case Taken(m) => m == n
    case Dropping(m, _) => m == n
    case _ => false
  }

  function Holders(threads: map<Thread, Pc>, n: Node): set<Thread> {
    set t | t in threads && Holds(threads[t], n)
  }

  // The part of the word that is not held by threads in try_get.
  function BaseRefs(p: Phase): nat {
    match p
    case Out => 0
    case Returning(_) => 0
    case Wanted => SHOULD_BE_ON_FREELIST
    case Linking(_) => SHOULD_BE_ON_FREELIST
    case Published(_) => 1
    case Listed => 1
    case Removed(_) => 1
  }

  lemma HoldersMove(threads: map<Thread, Pc>, t: Thread, pc: Pc, n: Node)
    requires t in threads
    ensures |Holders(threads[t := pc], n)| ==
            |Holders(threads, n)| - (if Holds(threads[t], n) then 1 else 0) + (if Holds(pc, n) then 1 else 0)
    ensures |Holders(threads[t := pc], n)| <= |threads|
  {
    var before, after := Holders(threads, n), Holders(threads[t := pc], n);
    assert after == before - {t} + (if Holds(pc, n) then {t} else {});
    assert threads[t := pc].Keys == threads.Keys;
    Subset(after, threads.Keys);
  }

  lemma {:induction false} Subset(a: set<Thread>, b: set<Thread>)
    requires a <= b
    ensures |a| <= |b|
    decreases a
  {
    if a != {} {
      var x :| x in a;
      Subset(a - {x}, b - {x});
    }
  }

  // ---------- the invariant ----------

  // The reference word of a node, and the phases that need (or forbid) holders.
  predicate CellOk(c: Cell, held: nat) {
    && c.refs == BaseRefs(c.phase) + held
    && (c.phase.Linking? ==> held == 0)
    && (c.phase == Wanted ==> held > 0)
  }

  // A phase that names a thread is what that thread is doing.
  predicate OwnerOk(threads: map<Thread, Pc>, n: Node, p: Phase) {
    match p
    case Returning(t) => t in threads && threads[t] == Adding(n)
    case Linking(t) =>
      && t in threads && (threads[t].Link? || threads[t].LinkStore? || threads[t].Publish?) && threads[t].node == n
    case Published(t) => t in threads && (threads[t].LinkCas? || threads[t].Repay?) && threads[t].node == n
    case Removed(t) => t in threads && threads[t] == Taken(n)
    case Out => true
    case Wanted => true
    case Listed => true
  }

  predicate KnownHead(cells: map<Node, Cell>, h: Option<Node>) { h.Some? ==> h.value in cells }

  predicate KnownReturn(cells: map<Node, Cell>, ret: Return) { ret.ToTryGet? ==> KnownHead(cells, ret.head) }

  predicate PcOk(cells: map<Node, Cell>, t: Thread, pc: Pc) {
    match pc
    case Idle(_) => true
    case LoadHead => true
    case HasHead(h) => KnownHead(cells, h)
    case HasRefs(n, r) => n in cells && r % SHOULD_BE_ON_FREELIST != 0
    case Referenced(n) => n in cells
    case HasNext(n, nx) => n in cells && cells[n].next == nx
    case Taken(n) => n in cells && cells[n].phase == Removed(t)
    case Dropping(n, h) => n in cells && KnownHead(cells, h)
    case Adding(n) => n in cells && cells[n].phase == Returning(t)
    case Link(n, ret) => n in cells && cells[n].phase == Linking(t) && KnownReturn(cells, ret)
    case LinkStore(n, h, ret) =>
      n in cells && cells[n].phase == Linking(t) && KnownHead(cells, h) && KnownReturn(cells, ret)
    case Publish(n, h, ret) =>
      n in cells && cells[n].phase == Linking(t) && cells[n].next == h && KnownReturn(cells, ret)
    case LinkCas(n, h, ret) =>
      n in cells && cells[n].phase == Published(t) && cells[n].next == h && KnownReturn(cells, ret)
    case Repay(n, h, ret) =>
      n in cells && cells[n].phase == Published(t) && KnownHead(cells, h) && KnownReturn(cells, ret)
  }

  predicate LinkAt(cells: map<Node, Cell>, list: seq<Node>, i: nat)
    requires i < |list|
  {
    list[i] in cells && cells[list[i]].next == (if i + 1 < |list| then Some(list[i + 1]) else None)
  }

  // Following next from the head visits exactly `list`, without repetition.
  predicate Chain(head: Option<Node>, cells: map<Node, Cell>, list: seq<Node>) {
    && head == (if list == [] then None else Some(list[0]))
    && (forall i, j :: 0 <= i < j < |list| ==> list[i] != list[j])
    && (forall i :: 0 <= i < |list| ==> LinkAt(cells, list, i))
  }

  predicate Closed(cells: map<Node, Cell>) { forall n :: n in cells ==> KnownHead(cells, cells[n].next) }

  predicate ListedOk(cells: map<Node, Cell>, list: seq<Node>) {
    forall n :: n in cells ==> (cells[n].phase == Listed <==> n in list)
  }

  predicate CellsOk(cells: map<Node, Cell>, threads: map<Thread, Pc>) {
    forall n :: n in cells ==> CellOk(cells[n], |Holders(threads, n)|)
  }

  predicate OwnersOk(cells: map<Node, Cell>, threads: map<Thread, Pc>) {
    forall n :: n in cells ==> OwnerOk(threads, n, cells[n].phase)
  }

  predicate PcsOk(cells: map<Node, Cell>, threads: map<Thread, Pc>) {
    forall t :: t in threads ==> PcOk(cells, t, threads[t])
  }

  predicate Inv(s: State) {
    && |s.threads| + 2 < SHOULD_BE_ON_FREELIST
    && Closed(s.cells)
    && Chain(s.head, s.cells, s.list)
    && ListedOk(s.cells, s.list)
    && CellsOk(s.cells, s.threads)
    && OwnersOk(s.cells, s.threads)
    && PcsOk(s.cells, s.threads)
  }

  // The thread a phase names.
  function Owner(p: Phase): Option<Thread> {
    match p
    case Returning(t) => Some(t)
    case Linking(t) => Some(t)
    case Published(t) => Some(t)
    case Removed(t) => Some(t)
    case Out => None
    case Wanted => None
    case Listed => None
  }

  // ---------- framing ----------

  // Another thread u is unaffected by a change of one cell that is not u's, whose link moves only
  // when u holds no reference.
  lemma PcStays(cells: map<Node, Cell>, n: Node, c: Cell, u: Thread, pc: Pc)
    requires n in cells && PcOk(cells, u, pc)
    requires c.phase == cells[n].phase || Owner(cells[n].phase) != Some(u)
    requires c.next == cells[n].next || (Owner(cells[n].phase) != Some(u) && !Holds(pc, n))
    ensures PcOk(cells[n := c], u, pc)
  {
    assert cells[n := c].Keys == cells.Keys;
  }

  lemma OthersStay(s: State, t: Thread, pc: Pc, n: Node, c: Cell)
    requires PcsOk(s.cells, s.threads) && t in s.threads && n in s.cells
    requires c.phase == s.cells[n].phase || Owner(s.cells[n].phase) in {None, Some(t)}
    requires c.next == s.cells[n].next || (Owner(s.cells[n].phase) == Some(t) && |Holders(s.threads, n)| == 0)
    requires PcOk(s.cells[n := c], t, pc)
    ensures PcsOk(s.cells[n := c], s.threads[t := pc])
  {
    var s' := Put(s, t, pc, n, c);
    forall u | u in s'.threads ensures PcOk(s'.cells, u, s'.threads[u]) {
      if u != t {
        if Holds(s.threads[u], n) { assert u in Holders(s.threads, n); }
        PcStays(s.cells, n, c, u, s.threads[u]);
      }
    }
  }

  lemma OwnersStay(s: State, t: Thread, pc: Pc, n: Node, c: Cell)
    requires OwnersOk(s.cells, s.threads) && t in s.threads && n in s.cells
    requires NodeOf(s.threads[t]) in {None, Some(n)}
    requires OwnerOk(s.threads[t := pc], n, c.phase)
    ensures OwnersOk(s.cells[n := c], s.threads[t := pc])
  {
    var s' := Put(s, t, pc, n, c);
    forall m | m in s'.cells ensures OwnerOk(s'.threads, m, s'.cells[m].phase) {
      assert m in s.cells && OwnerOk(s.threads, m, s.cells[m].phase);
    }
  }

  lemma CellsStay(s: State, t: Thread, pc: Pc, n: Node, c: Cell)
    requires CellsOk(s.cells, s.threads) && t in s.threads && n in s.cells
    requires forall m :: m != n ==> (Holds(s.threads[t], m) <==> Holds(pc, m))
    requires CellOk(c, |Holders(s.threads[t := pc], n)|)
    ensures CellsOk(s.cells[n := c], s.threads[t := pc])
  {
    var s' := Put(s, t, pc, n, c);
    forall m | m in s'.cells ensures CellOk(s'.cells[m], |Holders(s'.threads, m)|) {
      assert m in s.cells && CellOk(s.cells[m], |Holders(s.threads, m)|);
      HoldersMove(s.threads, t, pc, m);
    }
  }

  // What must be shown of a step of t on node n that leaves the list alone.
  ghost predicate GoodStep(s: State, t: Thread, pc: Pc, n: Node, c: Cell) {
    && t in s.threads && n in s.cells && NodeOf(s.threads[t]) in {None, Some(n)}
    && (forall m :: m != n ==> (Holds(s.threads[t], m) <==> Holds(pc, m)))
    && (c.phase == s.cells[n].phase || Owner(s.cells[n].phase) in {None, Some(t)})
    && (c.next == s.cells[n].next || (Owner(s.cells[n].phase) == Some(t) && |Holders(s.threads, n)| == 0))
    && KnownHead(s.cells, c.next)
    && PcOk(s.cells[n := c], t, pc)
    && OwnerOk(s.threads[t := pc], n, c.phase)
    && CellOk(c, |Holders(s.threads[t := pc], n)|)
  }

  lemma KeysCount(threads: map<Thread, Pc>, t: Thread, pc: Pc)
    requires t in threads
    ensures |threads[t := pc]| == |threads|
  {
    assert threads[t := pc].Keys == threads.Keys;
    assert |threads[t := pc].Keys| == |threads[t := pc]| && |threads.Keys| == |threads|;
  }

  lemma Preserved(s: State, t: Thread, pc: Pc, n: Node, c: Cell)
    requires Inv(s) && GoodStep(s, t, pc, n, c)
    ensures var s' := Put(s, t, pc, n, c);
            |s'.threads| == |s.threads| && Closed(s'.cells) && CellsOk(s'.cells, s'.threads) && OwnersOk(s'.cells, s'.threads) && PcsOk(s'.cells, s'.threads)
  {
    hide Chain, ListedOk, CellsOk, OwnersOk, PcsOk;
    KeysCount(s.threads, t, pc);
    OthersStay(s, t, pc, n, c);
    OwnersStay(s, t, pc, n, c);
    CellsStay(s, t, pc, n, c);
  }

  lemma ListStays(head: Option<Node>, cells: map<Node, Cell>, list: seq<Node>, n: Node, c: Cell)
    requires Chain(head, cells, list) && ListedOk(cells, list) && n in cells
    requires c.phase == Listed <==> cells[n].phase == Listed
    requires c.next == cells[n].next || cells[n].phase != Listed
    ensures Chain(head, cells[n := c], list) && ListedOk(cells[n := c], list)
  {
    var cells' := cells[n := c];
    forall i | 0 <= i < |list| ensures LinkAt(cells', list, i) { assert LinkAt(cells, list, i); }
  }

  // What the invariant says about the thread that moves and the node it moves on.
  lemma Facts(s: State, t: Thread, pc: Pc, n: Node)
    requires Inv(s) && t in s.threads && n in s.cells
    ensures PcOk(s.cells, t, s.threads[t])
    ensures CellOk(s.cells[n], |Holders(s.threads, n)|)
    ensures OwnerOk(s.threads, n, s.cells[n].phase)
    ensures KnownHead(s.cells, s.cells[n].next)
    ensures (if Holds(s.threads[t], n) then 1 else 0) <= |Holders(s.threads, n)| <= |s.threads|
    ensures |Holders(s.threads[t := pc], n)| <= |s.threads|
    ensures |Holders(s.threads[t := pc], n)| ==
            |Holders(s.threads, n)| - (if Holds(s.threads[t], n) then 1 else 0) + (if Holds(pc, n) then 1 else 0)
  {
    HoldersMove(s.threads, t, pc, n);
    HoldersMove(s.threads, t, s.threads[t], n);
    assert s.threads[t := s.threads[t]] == s.threads;
    if Holds(s.threads[t], n) { assert t in Holders(s.threads, n); }
  }

  // A step on a node that neither enters nor leaves the list.
  lemma OffListStep(s: State, t: Thread, pc: Pc, n: Node, c: Cell)
    requires Inv(s) && GoodStep(s, t, pc, n, c) && n in s.cells
    requires c.phase == Listed <==> s.cells[n].phase == Listed
    requires c.next == s.cells[n].next || s.cells[n].phase != Listed
    ensures Inv(Put(s, t, pc, n, c))
  {
    hide Chain, ListedOk, CellsOk, OwnersOk, PcsOk, GoodStep;
    Preserved(s, t, pc, n, c);
    ListStays(s.head, s.cells, s.list, n, c);
  }

  // A step that touches no node.
  lemma PureStep(s: State, t: Thread, pc: Pc)
    requires Inv(s) && t in s.threads
    requires forall m :: m in s.cells ==> (Holds(s.threads[t], m) <==> Holds(pc, m))
    requires forall m :: m in s.cells && Owner(s.cells[m].phase) == Some(t) ==> OwnerOk(s.threads[t := pc], m, s.cells[m].phase)
    requires PcOk(s.cells, t, pc)
    ensures Inv(Move(s, t, pc))
  {
    var s' := Move(s, t, pc);
    forall m | m in s'.cells
      ensures CellOk(s'.cells[m], |Holders(s'.threads, m)|) && OwnerOk(s'.threads, m, s'.cells[m].phase)
    {
      HoldersMove(s.threads, t, pc, m);
      assert CellOk(s.cells[m], |Holders(s.threads, m)|) && OwnerOk(s.threads, m, s.cells[m].phase);
    }
    assert s.threads[t := pc].Keys == s.threads.Keys;
    assert |s.threads[t := pc].Keys| == |s.threads[t := pc]| && |s.threads.Keys| == |s.threads|;
  }

  predicate Unowning(pc: Pc) {
    pc.Idle? || pc.LoadHead? || pc.HasHead? || pc.HasRefs? || pc.Referenced? || pc.HasNext? || pc.Dropping?
  }

  lemma OwnsNone(s: State, t: Thread)
    requires OwnersOk(s.cells, s.threads) && t in s.threads && Unowning(s.threads[t])
    ensures forall m :: m in s.cells ==> Owner(s.cells[m].phase) != Some(t)
  {
    forall m | m in s.cells ensures Owner(s.cells[m].phase) != Some(t) {
      assert OwnerOk(s.threads, m, s.cells[m].phase);
    }
  }

  lemma OwnsOne(s: State, t: Thread, n: Node)
    requires OwnersOk(s.cells, s.threads) && t in s.threads && NodeOf(s.threads[t]) == Some(n)
    ensures forall m :: m in s.cells && m != n ==> Owner(s.cells[m].phase) != Some(t)
  {
    forall m | m in s.cells && m != n ensures Owner(s.cells[m].phase) != Some(t) {
      assert OwnerOk(s.threads, m, s.cells[m].phase);
    }
  }

  // ---------- one lemma per kind of step ----------

  lemma EnabledFromInv(s: State, t: Thread)
    requires Inv(s) && t in s.threads && !s.threads[t].Idle?
    ensures Enabled(s, Step(t))
  {
    assert PcOk(s.cells, t, s.threads[t]);
  }

  lemma CallsKeepInv(s: State, a: Action)
    requires Inv(s) && Enabled(s, a) && !a.Step?
    ensures Inv(Apply(s, a))
  {
    hide Chain, ListedOk, CellsOk, OwnersOk, PcsOk, Closed;
    OwnsNone(s, a.t);
    if a.CallAdd? {
      Facts(s, a.t, Adding(a.n), a.n);
      OffListStep(s, a.t, Adding(a.n), a.n, s.cells[a.n].(phase := Returning(a.t)));
    } else {
      PureStep(s, a.t, LoadHead);
    }
  }

  lemma LookKeepsInv(s: State, t: Thread)
    requires Inv(s) && Enabled(s, Step(t))
    requires s.threads[t].LoadHead? || s.threads[t].HasHead? || s.threads[t].Referenced?
    ensures Inv(StepOf(s, t))
  {
    OwnsNone(s, t);
    HeadKnown(s);
    assert PcOk(s.cells, t, s.threads[t]);
    PureStep(s, t, StepOf(s, t).threads[t]);
  }

  lemma AcquireKeepsInv(s: State, t: Thread)
    requires Inv(s) && Enabled(s, Step(t)) && s.threads[t].HasRefs?
    ensures Inv(StepOf(s, t))
  {
    hide Chain, ListedOk, CellsOk, OwnersOk, PcsOk, Closed;
    var n := s.threads[t].node;
    OwnsNone(s, t);
    Facts(s, t, Referenced(n), n);
    if s.cells[n].refs == s.threads[t].refs {
      OffListStep(s, t, Referenced(n), n, StepOf(s, t).cells[n]);
    } else {
      PureStep(s, t, LoadHead);
    }
  }

  // The CAS on the head can only take a node that is on the list, with the link it was read with.
  lemma UnlinkKeepsInv(s: State, t: Thread)
    requires Inv(s) && Enabled(s, Step(t)) && s.threads[t].HasNext?
    ensures Inv(StepOf(s, t))
  {
    hide CellsOk, OwnersOk, PcsOk, Closed;
    var n := s.threads[t].node;
    OwnsNone(s, t);
    HeadKnown(s);
    Facts(s, t, Taken(n), n);
    if s.head == Some(n) {
      var c := s.cells[n].(phase := Removed(t));
      Preserved(s, t, Taken(n), n, c);
      HeadLeaves(s.head, s.cells, s.list, n, c);
    } else {
      PureStep(s, t, Dropping(n, s.head));
    }
  }

  lemma HeadLeaves(head: Option<Node>, cells: map<Node, Cell>, list: seq<Node>, n: Node, c: Cell)
    requires Chain(head, cells, list) && ListedOk(cells, list) && head == Some(n)
    requires n in cells && c.next == cells[n].next && c.phase != Listed
    ensures list != [] && Chain(cells[n].next, cells[n := c], list[1..]) && ListedOk(cells[n := c], list[1..])
    ensures cells[n].phase == Listed
  {
    var list', cells' := list[1..], cells[n := c];
    assert list == [n] + list';
    assert LinkAt(cells, list, 0);
    forall i | 0 <= i < |list'| ensures LinkAt(cells', list', i) {
      assert LinkAt(cells, list, i + 1) && list[i + 1] != list[0];
    }
  }

  lemma HeadEnters(head: Option<Node>, cells: map<Node, Cell>, list: seq<Node>, n: Node, c: Cell)
    requires Chain(head, cells, list) && ListedOk(cells, list)
    requires n in cells && c.next == head && c.phase == Listed && cells[n].phase != Listed
    ensures Chain(Some(n), cells[n := c], [n] + list) && ListedOk(cells[n := c], [n] + list)
  {
    var list', cells' := [n] + list, cells[n := c];
    forall i | 0 <= i < |list'| ensures LinkAt(cells', list', i) {
      if i > 0 { assert LinkAt(cells, list, i - 1); }
    }
  }

  lemma GiveBackKeepsInv(s: State, t: Thread)
    requires Inv(s) && Enabled(s, Step(t)) && (s.threads[t].Taken? || s.threads[t].Dropping?)
    ensures Inv(StepOf(s, t))
  {
    hide Chain, ListedOk, CellsOk, OwnersOk, PcsOk, Closed;
    var n := s.threads[t].node;
    var s' := StepOf(s, t);
    Facts(s, t, s'.threads[t], n);
    OffListStep(s, t, s'.threads[t], n, s'.cells[n]);
  }

  lemma AddKeepsInv(s: State, t: Thread)
    requires Inv(s) && Enabled(s, Step(t)) && (s.threads[t].Adding? || s.threads[t].Repay?)
    ensures Inv(StepOf(s, t))
  {
    hide Chain, ListedOk, CellsOk, OwnersOk, PcsOk, Closed;
    var n := s.threads[t].node;
    var s' := StepOf(s, t);
    Facts(s, t, s'.threads[t], n);
    OffListStep(s, t, s'.threads[t], n, s'.cells[n]);
  }

  lemma LinkKeepsInv(s: State, t: Thread)
    requires Inv(s) && Enabled(s, Step(t)) && (s.threads[t].LinkStore? || s.threads[t].Publish?)
    ensures Inv(StepOf(s, t))
  {
    hide Chain, ListedOk, CellsOk, OwnersOk, PcsOk, Closed;
    var n := s.threads[t].node;
    var s' := StepOf(s, t);
    Facts(s, t, s'.threads[t], n);
    OffListStep(s, t, s'.threads[t], n, s'.cells[n]);
  }

  lemma HeadKnown(s: State)
    requires Inv(s)
    ensures KnownHead(s.cells, s.head)
    ensures s.head.Some? ==> s.cells[s.head.value].phase == Listed
  {
    if s.list != [] { assert LinkAt(s.cells, s.list, 0); }
  }

  lemma ReadHeadKeepsInv(s: State, t: Thread)
    requires Inv(s) && Enabled(s, Step(t)) && s.threads[t].Link?
    ensures Inv(StepOf(s, t))
  {
    hide Chain, ListedOk, CellsOk, OwnersOk, PcsOk, Closed;
    var Link(n, ret) := s.threads[t];
    HeadKnown(s);
    OwnsOne(s, t, n);
    Facts(s, t, LinkStore(n, s.head, ret), n);
    PureStep(s, t, LinkStore(n, s.head, ret));
  }

  lemma EnlistKeepsInv(s: State, t: Thread)
    requires Inv(s) && Enabled(s, Step(t)) && s.threads[t].LinkCas?
    ensures Inv(StepOf(s, t))
  {
    var LinkCas(n, h, ret) := s.threads[t];
    hide Chain, ListedOk, CellsOk, OwnersOk, PcsOk, Closed;
    HeadKnown(s);
    OwnsOne(s, t, n);
    Facts(s, t, StepOf(s, t).threads[t], n);
    if s.head == h {
      var c := s.cells[n].(phase := Listed);
      Preserved(s, t, Resume(ret), n, c);
      HeadEnters(s.head, s.cells, s.list, n, c);
    } else {
      PureStep(s, t, Repay(n, s.head, ret));
    }
  }

  /** Every atomic operation of every thread preserves the invariant. */
  lemma ActionKeepsInv(s: State, a: Action)
    requires Inv(s) && Enabled(s, a)
    ensures Inv(Apply(s, a))
  {
    if !a.Step? {
      CallsKeepInv(s, a);
    } else {
      match s.threads[a.t]
      case LoadHead => LookKeepsInv(s, a.t);
      case HasHead(_) => LookKeepsInv(s, a.t);
      case HasRefs(_, _) => AcquireKeepsInv(s, a.t);
      case Referenced(_) => LookKeepsInv(s, a.t);
      case HasNext(_, _) => UnlinkKeepsInv(s, a.t);
      case Taken(_) => GiveBackKeepsInv(s, a.t);
      case Dropping(_, _) => GiveBackKeepsInv(s, a.t);
      case Adding(_) => AddKeepsInv(s, a.t);
      case Link(_, _) => ReadHeadKeepsInv(s, a.t);
      case LinkStore(_, _, _) => LinkKeepsInv(s, a.t);
      case Publish(_, _, _) => LinkKeepsInv(s, a.t);
      case LinkCas(_, _, _) => EnlistKeepsInv(s, a.t);
      case Repay(_, _, _) => AddKeepsInv(s, a.t);
    }
  }

  lemma {:induction false} RunInv(run: seq<State>, acts: seq<Action>, i: nat)
    requires IsRun(run, acts) && i < |run|
    ensures Inv(run[i])
  {
    if i == 0 {
      var s := run[0];
      forall n | n in s.cells ensures |Holders(s.threads, n)| == 0 { assert Holders(s.threads, n) == {}; }
    } else {
      RunInv(run, acts, i - 1);
      ActionKeepsInv(run[i - 1], acts[i - 1]);
    }
  }

  // ---------- what the protocol guarantees ----------

  /** In every reachable state a thread inside a call has a step to take: none waits for another. */
  lemma NeverStuck(run: seq<State>, acts: seq<Action>, i: nat, t: Thread)
    requires IsRun(run, acts) && i < |run| && t in run[i].threads && !run[i].threads[t].Idle?
    ensures Enabled(run[i], Step(t))
  {
    RunInv(run, acts, i);
    EnabledFromInv(run[i], t);
  }

  /** In every reachable state: following freeListNext from the head visits every node at most once; the
      source's assertion holds where a try_get has just unlinked its node (SHOULD_BE_ON_FREELIST is
      clear); and no reference word has overflowed into or out of that bit. */
  lemma Safety(run: seq<State>, acts: seq<Action>, i: nat)
    requires IsRun(run, acts) && i < |run|
    ensures Chain(run[i].head, run[i].cells, run[i].list)
    ensures forall t :: t in run[i].threads && run[i].threads[t].Taken? ==>
              && run[i].threads[t].node in run[i].cells
              && run[i].cells[run[i].threads[t].node].refs < SHOULD_BE_ON_FREELIST
    ensures forall n :: n in run[i].cells ==>
              run[i].cells[n].refs % SHOULD_BE_ON_FREELIST == BaseRefs(run[i].cells[n].phase) % SHOULD_BE_ON_FREELIST + |Holders(run[i].threads, n)|
  {
    var s := run[i];
    RunInv(run, acts, i);
    forall t | t in s.threads && s.threads[t].Taken?
      ensures s.threads[t].node in s.cells && s.cells[s.threads[t].node].refs < SHOULD_BE_ON_FREELIST
    {
      var n := s.threads[t].node;
      assert PcOk(s.cells, t, s.threads[t]);
      Facts(s, t, s.threads[t], n);
    }
    forall n | n in s.cells
      ensures s.cells[n].refs % SHOULD_BE_ON_FREELIST == BaseRefs(s.cells[n].phase) % SHOULD_BE_ON_FREELIST + |Holders(s.threads, n)|
    {
      Subset(Holders(s.threads, n), s.threads.Keys);
      assert |s.threads.Keys| == |s.threads|;
      assert CellOk(s.cells[n], |Holders(s.threads, n)|);
    }
  }

  /** freeListNext of a node does not change while anybody holds a reference to it. */
  lemma LinkStable(run: seq<State>, acts: seq<Action>, i: nat, n: Node, t: Thread)
    requires IsRun(run, acts) && i < |acts|
    requires n in run[i].cells && t in run[i].threads && Holds(run[i].threads[t], n)
    ensures n in run[i + 1].cells && run[i + 1].cells[n].next == run[i].cells[n].next
  {
    var s := run[i];
    RunInv(run, acts, i);
    assert run[i + 1] == Apply(s, acts[i]);
    assert CellOk(s.cells[n], |Holders(s.threads, n)|);
    assert t in Holders(s.threads, n);
    if acts[i].Step? { assert PcOk(s.cells, acts[i].t, s.threads[acts[i].t]); }
  }

  // try_get hands n out in this action
  predicate Gives(s: State, a: Action, n: Node) {
    a.Step? && a.t in s.threads && s.threads[a.t] == Taken(n)
  }

  // A client calls add(n) in this action
  predicate Gets(a: Action, n: Node) { a.CallAdd? && a.n == n }

  // Whether n is in a client's hands after the first i actions, from the calls and returns alone.
  predicate Lent(run: seq<State>, acts: seq<Action>, i: nat, n: Node)
    requires i < |run| && i <= |acts|
  {
    if i == 0 then true
    else if Gives(run[i - 1], acts[i - 1], n) then true
    else if Gets(acts[i - 1], n) then false
    else Lent(run, acts, i - 1, n)
  }

  lemma OutChanges(s: State, a: Action, n: Node)
    requires Enabled(s, a) && n in s.cells
    requires a.Step? ==> PcOk(s.cells, a.t, s.threads[a.t])
    requires s.head == Some(n) ==> s.cells[n].phase == Listed
    requires s.cells[n].phase == Out ==> s.cells[n].refs <= SHOULD_BE_ON_FREELIST
    ensures n in Apply(s, a).cells
    ensures Apply(s, a).cells[n].phase == Out <==> Gives(s, a, n) || (s.cells[n].phase == Out && !Gets(a, n))
  {
  }

  lemma {:induction false} LentIsOut(run: seq<State>, acts: seq<Action>, i: nat, n: Node)
    requires IsRun(run, acts) && i < |run| && n in run[0].cells
    ensures n in run[i].cells && (Lent(run, acts, i, n) <==> run[i].cells[n].phase == Out)
  {
    if i > 0 {
      LentIsOut(run, acts, i - 1, n);
      RunInv(run, acts, i - 1);
      Facts(run[i - 1], acts[i - 1].t, run[i - 1].threads[acts[i - 1].t], n);
      HeadKnown(run[i - 1]);
      OutChanges(run[i - 1], acts[i - 1], n);
    }
  }

  /** No node goes to two getters without an add between: a try_get only ever returns a node that is in
      no client's hands, and add is only ever called on one that is. */
  lemma NoDoubleGet(run: seq<State>, acts: seq<Action>, i: nat, n: Node)
    requires IsRun(run, acts) && i < |acts| && n in run[0].cells
    ensures Gives(run[i], acts[i], n) ==> !Lent(run, acts, i, n) && Lent(run, acts, i + 1, n)
    ensures Gets(acts[i], n) ==> Lent(run, acts, i, n) && !Lent(run, acts, i + 1, n)
  {
    LentIsOut(run, acts, i, n);
    LentIsOut(run, acts, i + 1, n);
    RunInv(run, acts, i);
    if acts[i].Step? { assert PcOk(run[i].cells, acts[i].t, run[i].threads[acts[i].t]); }
  }

  // t is inside add() or try_get() with node n in its care
  predicate Carries(pc: Pc, n: Node) {
    match pc
    case Taken(m) => m == n
    case Adding(m) => m == n
    case Link(m, _) => m == n
    case LinkStore(m, _, _) => m == n
    case Publish(m, _, _) => m == n
    case LinkCas(m, _, _) => m == n
    case Repay(m, _, _) => m == n
    case _ => false
  }

  /** No added node is lost.  A node in no client's hands is in exactly one of three places: on the list;
      in the care of exactly one thread; or nowhere yet, with its bit set and at least one reference out,
      whose last holder (the one that sees SHOULD_BE_ON_FREELIST + 1) must link it. */
  lemma NoneLost(run: seq<State>, acts: seq<Action>, i: nat, n: Node)
    requires IsRun(run, acts) && i < |run| && n in run[0].cells && !Lent(run, acts, i, n)
    ensures n in run[i].cells
    ensures var s := run[i];
            var carriers := set t | t in s.threads && Carries(s.threads[t], n);
            || (n in s.list && carriers == {})
            || (n !in s.list && exists t :: carriers == {t})
            || (n !in s.list && carriers == {} && |Holders(s.threads, n)| > 0
                && s.cells[n].refs == SHOULD_BE_ON_FREELIST + |Holders(s.threads, n)|)
  {
    LentIsOut(run, acts, i, n);
    RunInv(run, acts, i);
    var s := run[i];
    var carriers := set t | t in s.threads && Carries(s.threads[t], n);
    assert OwnerOk(s.threads, n, s.cells[n].phase);
    assert CellOk(s.cells[n], |Holders(s.threads, n)|);
    forall t | t in carriers ensures Owner(s.cells[n].phase) == Some(t) { assert PcOk(s.cells, t, s.threads[t]); }
    if Owner(s.cells[n].phase).Some? {
      assert carriers == {Owner(s.cells[n].phase).value};
    } else {
      assert carriers == {};
    }
  }

  /** Once every call has returned, each node that was added back and not taken again is on the list. */
  lemma QuietListComplete(run: seq<State>, acts: seq<Action>, i: nat, n: Node)
    requires IsRun(run, acts) && i < |run| && n in run[0].cells
    requires forall t :: t in run[i].threads ==> run[i].threads[t].Idle?
    ensures Lent(run, acts, i, n) <==> n !in run[i].list
  {
    LentIsOut(run, acts, i, n);
    RunInv(run, acts, i);
    if !Lent(run, acts, i, n) {
      NoneLost(run, acts, i, n);
      assert Holders(run[i].threads, n) == {};
    }
  }
}
