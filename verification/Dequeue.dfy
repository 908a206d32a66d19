/**
 The optimistic-count / overcommit dequeue protocol of one sub-queue.

 Every atomic load, fetch_add or store of the source is one action of an interleaving machine;
 any number of consumers run against the one producer.  Indices are unbounded here; module
 CircularIndex relates them to the wrapping words of the source.

 `ledger` and `claims` are history: no branch of `Step` reads them.
   ledger[x]  what became of the x-th optimistic ticket (the x-th unit ever added to
              dequeueOptimisticCount);
   claims     the index ranges handed out by fetch_add on headIndex, in order.
 */
module Dequeue {
  type Thread = nat

  datatype Ticket = Pending(owner: Thread) | Won | Lost

  datatype Claim = Claim(taker: Thread, lo: nat, hi: nat)

  // Where a consumer stands in dequeue / dequeue_bulk, with its live locals.
  // dequeue() is dequeue_bulk() with max == 1: same loads, same comparisons.
  datatype Pc =
    | Idle
    | Called(max: nat)
    | HasTail(max: nat, tail: nat)
    | HasOvercommit(max: nat, tail: nat, over: nat)
    | Desiring(desired: nat, over: nat)                // guard passed, about to fetch_add the optimistic count
    | Joined(desired: nat, over: nat, my: nat)         // owns tickets my .. my + desired
    | Trimming(desired: nat, my: nat, actual: nat)     // some of its tickets are too many: return them first
    | Claiming(my: nat, actual: nat)                   // about to fetch_add headIndex
    | Failing(desired: nat, my: nat)                   // about to return all its tickets
    | Done(first: nat, count: nat)

  datatype State = State(
    tail: nat,            // tailIndex
    head: nat,            // headIndex
    optimistic: nat,      // dequeueOptimisticCount
    over: nat,            // dequeueOvercommit
    threads: map<Thread, Pc>,
    ledger: seq<Ticket>,
    claims: seq<Claim>)

  datatype Action =
    | Enqueue(count: nat)            // the producer's store to tailIndex
    | Call(t: Thread, max: nat)      // t enters dequeue_bulk
    | Step(t: Thread)                // t performs its next atomic operation

  function Min(a: int, b: int): int { if a < b then a else b }

  function Repeat<T>(n: nat, x: T): (r: seq<T>)
    ensures |r| == n && forall i :: 0 <= i < n ==> r[i] == x
  {
    seq(n, i => x)
  }

  function Mark(l: seq<Ticket>, lo: nat, n: nat, k: Ticket): (r: seq<Ticket>)
    requires lo + n <= |l|
    ensures |r| == |l|
    ensures forall x :: 0 <= x < |l| ==> r[x] == if lo <= x < lo + n then k else l[x]
  {
    l[..lo] + Repeat(n, k) + l[lo + n..]
  }

  predicate AtRest(pc: Pc) { pc.Idle? || pc.Done? }

  // t's tickets, while unresolved
  predicate InHand(pc: Pc, x: nat) {
    match pc
    case Joined(d, _, my) => my <= x < my + d
    case Trimming(d, my, _) => my <= x < my + d
    case Claiming(my, a) => my <= x < my + a
    case Failing(d, my) => my <= x < my + d
    case _ => false
  }

  predicate Enabled(s: State, a: Action) {
    match a
    case Enqueue(_) => true
    case Call(t, _) => t in s.threads && AtRest(s.threads[t])
    case Step(t) => t in s.threads && !AtRest(s.threads[t]) && TicketsAllocated(s, s.threads[t])
  }

  // The fetch_add results a thread holds are values the counter has passed; every reachable state has it.
  predicate TicketsAllocated(s: State, pc: Pc) {
    match pc
    case Joined(d, _, my) => my + d <= |s.ledger|
    case Trimming(d, my, a) => a < d && my + d <= |s.ledger|
    case Claiming(my, a) => my + a <= |s.ledger|
    case Failing(d, my) => my + d <= |s.ledger|
    case _ => true
  }

  function Move(s: State, t: Thread, pc: Pc): State { s.(threads := s.threads[t := pc]) }

  // One atomic operation of thread t, branch by branch as in the source.
  function StepOf(s: State, t: Thread): State
    requires Enabled(s, Step(t))
  {
    match s.threads[t]
    case Called(max) => Move(s, t, HasTail(max, s.tail))
    case HasTail(max, tail) => Move(s, t, HasOvercommit(max, tail, s.over))
    case HasOvercommit(max, tail, over) =>
      var desired := tail - (s.optimistic - over);
      if 0 < desired then Move(s, t, Desiring(Min(desired, max), over)) else Move(s, t, Done(0, 0))
    case Desiring(desired, over) =>
      Move(s, t, Joined(desired, over, s.optimistic))
        .(optimistic := s.optimistic + desired, ledger := s.ledger + Repeat(desired, Pending(t)))
    case Joined(desired, over, my) =>
      var actual := s.tail - (my - over);
      if 0 < actual then
        var got := Min(desired, actual);
        if got < desired then Move(s, t, Trimming(desired, my, got)) else Move(s, t, Claiming(my, got))
      else
        Move(s, t, Failing(desired, my))
    case Trimming(desired, my, actual) =>
      Move(s, t, Claiming(my, actual))
        .(over := s.over + (desired - actual), ledger := Mark(s.ledger, my + actual, desired - actual, Lost))
    case Claiming(my, actual) =>
      Move(s, t, Done(s.head, actual))
        .(head := s.head + actual, ledger := Mark(s.ledger, my, actual, Won),
          claims := s.claims + [Claim(t, s.head, s.head + actual)])
    case Failing(desired, my) =>
      Move(s, t, Done(0, 0)).(over := s.over + desired, ledger := Mark(s.ledger, my, desired, Lost))
  }

  function Apply(s: State, a: Action): State
    requires Enabled(s, a)
  {
    match a
    case Enqueue(count) => s.(tail := s.tail + count)
    case Call(t, max) => Move(s, t, Called(max))
    case Step(t) => StepOf(s, t)
  }

  predicate Initial(s: State) {
    && s.tail == s.head == s.optimistic == s.over == 0
    && s.ledger == [] && s.claims == []
    && forall t :: t in s.threads ==> s.threads[t] == Idle
  }

  // Reachable by some interleaving: run[0] is initial and every state follows from the one before.
  predicate IsRun(run: seq<State>, acts: seq<Action>) {
    && |run| == |acts| + 1
    && Initial(run[0])
    && forall i :: 0 <= i < |acts| ==> Enabled(run[i], acts[i]) && run[i + 1] == Apply(run[i], acts[i])
  }

  // ---------- counting resolved tickets ----------

  function Count(l: seq<Ticket>, k: Ticket): (n: nat)
    ensures n <= |l|
  {
    if l == [] then 0 else Count(l[..|l| - 1], k) + if l[|l| - 1] == k then 1 else 0
  }

  lemma {:induction false} CountAppend(a: seq<Ticket>, b: seq<Ticket>, k: Ticket)
    ensures Count(a + b, k) == Count(a, k) + Count(b, k)
  {
    if b == [] {
      assert a + b == a;
    } else {
      CountAppend(a, b[..|b| - 1], k);
      assert (a + b)[..|a + b| - 1] == a + b[..|b| - 1];
    }
  }

  lemma {:induction false} CountRepeat(n: nat, x: Ticket, k: Ticket)
    ensures Count(Repeat(n, x), k) == if x == k then n else 0
  {
    if n > 0 {
      CountRepeat(n - 1, x, k);
      assert Repeat(n, x)[..n - 1] == Repeat(n - 1, x);
    }
  }

  // Resolving n pending tickets adds exactly n to the count of the verdict.
  lemma CountMark(l: seq<Ticket>, lo: nat, n: nat, t: Thread, verdict: Ticket, k: Ticket)
    requires lo + n <= |l|
    requires forall x :: lo <= x < lo + n ==> l[x] == Pending(t)
    requires k != Pending(t)
    ensures Count(Mark(l, lo, n, verdict), k) == Count(l, k) + if verdict == k then n else 0
  {
    assert l == l[..lo] + Repeat(n, Pending(t)) + l[lo + n..];
    CountAppend(l[..lo] + Repeat(n, Pending(t)), l[lo + n..], k);
    CountAppend(l[..lo], Repeat(n, Pending(t)), k);
    CountRepeat(n, Pending(t), k);
    CountAppend(l[..lo] + Repeat(n, verdict), l[lo + n..], k);
    CountAppend(l[..lo], Repeat(n, verdict), k);
    CountRepeat(n, verdict, k);
  }

  // A later ledger: longer, and differing only where tickets were pending.
  predicate Later(l: seq<Ticket>, m: seq<Ticket>) {
    |l| <= |m| && forall x :: 0 <= x < |l| ==> l[x].Pending? || m[x] == l[x]
  }

  lemma {:induction false} CountGrows(l: seq<Ticket>, m: seq<Ticket>, k: Ticket)
    requires Later(l, m) && !k.Pending?
    ensures Count(l, k) <= Count(m[..|l|], k)
  {
    if l != [] {
      var n := |l| - 1;
      CountGrows(l[..n], m, k);
      assert m[..n + 1][..n] == m[..n];
    }
  }

  lemma {:induction false} DistinctCounts(l: seq<Ticket>)
    ensures Count(l, Won) + Count(l, Lost) <= |l|
    ensures (forall x :: 0 <= x < |l| ==> !l[x].Pending?) ==> Count(l, Won) + Count(l, Lost) == |l|
  {
    if l != [] { DistinctCounts(l[..|l| - 1]); }
  }

  // ---------- the invariant ----------

  // Ticket x may win: discounting the tickets below it known to be lost, it lies below the tail.
  predicate Justified(l: seq<Ticket>, tail: nat, x: nat)
    requires x < |l|
  {
    x - Count(l[..x], Lost) < tail
  }

  predicate Owns(l: seq<Ticket>, t: Thread, lo: nat, n: nat) {
    lo + n <= |l| && forall x :: lo <= x < lo + n ==> l[x] == Pending(t)
  }

  predicate AllJustified(l: seq<Ticket>, tail: nat, lo: nat, n: nat)
    requires lo + n <= |l|
  {
    forall x :: lo <= x < lo + n ==> Justified(l, tail, x)
  }

  predicate ThreadOk(s: State, t: Thread, pc: Pc) {
    match pc
    case Idle => true
    case Called(_) => true
    case HasTail(_, tail) => tail <= s.tail
    case HasOvercommit(_, tail, over) => tail <= s.tail && over <= s.over
    case Desiring(_, over) => over <= s.over
    case Joined(d, over, my) => Owns(s.ledger, t, my, d) && over <= Count(s.ledger[..my], Lost)
    case Trimming(d, my, a) => a < d && Owns(s.ledger, t, my, d) && AllJustified(s.ledger, s.tail, my, a)
    case Claiming(my, a) => Owns(s.ledger, t, my, a) && AllJustified(s.ledger, s.tail, my, a)
    case Failing(d, my) => Owns(s.ledger, t, my, d)
    case Done(first, count) => count > 0 ==> Claim(t, first, first + count) in s.claims
  }

  predicate Tiles(claims: seq<Claim>, head: nat) {
    && (forall i :: 0 <= i < |claims| ==> claims[i].lo <= claims[i].hi)
    && (forall i :: 0 < i < |claims| ==> claims[i].lo == claims[i - 1].hi)
    && (if claims == [] then head == 0 else claims[0].lo == 0 && claims[|claims| - 1].hi == head)
  }

  predicate LedgerOk(s: State) {
    && |s.ledger| == s.optimistic
    && Count(s.ledger, Lost) == s.over
    && Count(s.ledger, Won) == s.head
    && (forall x :: 0 <= x < |s.ledger| && s.ledger[x] == Won ==> Justified(s.ledger, s.tail, x))
    && (forall x :: 0 <= x < |s.ledger| && s.ledger[x].Pending? ==>
          s.ledger[x].owner in s.threads && InHand(s.threads[s.ledger[x].owner], x))
  }

  predicate Inv(s: State) {
    && LedgerOk(s)
    && (forall t :: t in s.threads ==> ThreadOk(s, t, s.threads[t]))
    && Tiles(s.claims, s.head)
  }

  lemma JustifiedStays(l: seq<Ticket>, m: seq<Ticket>, tail: nat, tail': nat, x: nat)
    requires Later(l, m) && tail <= tail' && x < |l| && Justified(l, tail, x)
    ensures Justified(m, tail', x)
  {
    CountGrows(l[..x], m, Lost);
  }

  // A ledger that moved on, while t's pending tickets were left alone.
  predicate Untouched(l: seq<Ticket>, m: seq<Ticket>, t: Thread) {
    Later(l, m) && forall x :: 0 <= x < |l| && l[x] == Pending(t) ==> m[x] == l[x]
  }

  // What one thread knows survives anything the others do.
  lemma Stable(s: State, s': State, t: Thread, pc: Pc)
    requires ThreadOk(s, t, pc)
    requires Untouched(s.ledger, s'.ledger, t)
    requires s.tail <= s'.tail && s.over <= s'.over && s.claims <= s'.claims
    ensures ThreadOk(s', t, pc)
  {
    if pc.Joined? { CountGrows(s.ledger[..pc.my], s'.ledger, Lost); }
    if pc.Trimming? || pc.Claiming? {
      forall x | pc.my <= x < pc.my + pc.actual ensures Justified(s'.ledger, s'.tail, x) {
        JustifiedStays(s.ledger, s'.ledger, s.tail, s'.tail, x);
      }
    }
  }

  lemma OthersStable(s: State, s': State, t: Thread)
    requires Inv(s) && s'.threads.Keys == s.threads.Keys
    requires forall u :: u in s.threads && u != t ==> s'.threads[u] == s.threads[u] && Untouched(s.ledger, s'.ledger, u)
    requires s.tail <= s'.tail && s.over <= s'.over && s.claims <= s'.claims
    ensures forall u :: u in s'.threads && u != t ==> ThreadOk(s', u, s'.threads[u])
  {
    forall u | u in s'.threads && u != t ensures ThreadOk(s', u, s'.threads[u]) {
      Stable(s, s', u, s.threads[u]);
    }
  }

  lemma WonStaysJustified(s: State, s': State)
    requires LedgerOk(s)
    requires Later(s.ledger, s'.ledger) && s.tail <= s'.tail
    ensures forall x :: 0 <= x < |s.ledger| && s.ledger[x] == Won ==> Justified(s'.ledger, s'.tail, x)
  {
    forall x | 0 <= x < |s.ledger| && s.ledger[x] == Won ensures Justified(s'.ledger, s'.tail, x) {
      JustifiedStays(s.ledger, s'.ledger, s.tail, s'.tail, x);
    }
  }

  lemma EnabledFromInv(s: State, t: Thread)
    requires Inv(s) && t in s.threads && !AtRest(s.threads[t])
    ensures Enabled(s, Step(t))
  {
    assert ThreadOk(s, t, s.threads[t]);
  }

  lemma LoadKeepsInv(s: State, t: Thread)
    requires Inv(s) && Enabled(s, Step(t))
    requires s.threads[t].Called? || s.threads[t].HasTail? || s.threads[t].HasOvercommit?
    ensures Inv(StepOf(s, t))
  {
    assert ThreadOk(s, t, s.threads[t]);
    OthersStable(s, StepOf(s, t), t);
  }

  lemma JoinKeepsInv(s: State, t: Thread)
    requires Inv(s) && Enabled(s, Step(t)) && s.threads[t].Desiring?
    ensures Inv(StepOf(s, t))
  {
    var s' := StepOf(s, t);
    var d := s.threads[t].desired;
    assert ThreadOk(s, t, s.threads[t]);
    CountAppend(s.ledger, Repeat(d, Pending(t)), Lost);
    CountAppend(s.ledger, Repeat(d, Pending(t)), Won);
    CountRepeat(d, Pending(t), Lost);
    CountRepeat(d, Pending(t), Won);
    assert s'.ledger[..s.optimistic] == s.ledger;
    WonStaysJustified(s, s');
    OthersStable(s, s', t);
  }

  // The test on the reloaded tail is what justifies the tickets it lets through.
  lemma TestJustifies(l: seq<Ticket>, tail: nat, over: nat, my: nat, x: nat)
    requires my <= x < |l| && over <= Count(l[..my], Lost) && x - over < tail
    ensures Justified(l, tail, x)
  {
    CountAppend(l[..my], l[my..x], Lost);
    assert l[..x] == l[..my] + l[my..x];
  }

  lemma DecideKeepsInv(s: State, t: Thread)
    requires Inv(s) && Enabled(s, Step(t)) && s.threads[t].Joined?
    ensures Inv(StepOf(s, t))
  {
    var s' := StepOf(s, t);
    var Joined(d, over, my) := s.threads[t];
    assert ThreadOk(s, t, s.threads[t]);
    forall x | my <= x < my + d && x - over < s.tail ensures Justified(s.ledger, s.tail, x) {
      TestJustifies(s.ledger, s.tail, over, my, x);
    }
    OthersStable(s, s', t);
  }

  // A thread resolving its own tickets lo .. lo + n leaves the rest of the ledger sound.
  lemma ResolveKeepsLedger(s: State, s': State, t: Thread, lo: nat, n: nat, verdict: Ticket)
    requires LedgerOk(s) && t in s.threads && s'.threads.Keys == s.threads.Keys
    requires Owns(s.ledger, t, lo, n) && verdict in {Won, Lost}
    requires s'.ledger == Mark(s.ledger, lo, n, verdict) && s'.tail == s.tail && s'.optimistic == s.optimistic
    requires s'.over == s.over + (if verdict == Lost then n else 0)
    requires s'.head == s.head + (if verdict == Won then n else 0)
    requires verdict == Won ==> AllJustified(s.ledger, s.tail, lo, n)
    requires forall u :: u in s.threads && u != t ==> s'.threads[u] == s.threads[u]
    requires forall x :: 0 <= x < |s.ledger| && InHand(s.threads[t], x) ==> lo <= x < lo + n || InHand(s'.threads[t], x)
    ensures LedgerOk(s')
    ensures forall u :: u in s.threads && u != t ==> Untouched(s.ledger, s'.ledger, u)
    ensures Later(s.ledger, s'.ledger)
  {
    CountMark(s.ledger, lo, n, t, verdict, Won);
    CountMark(s.ledger, lo, n, t, verdict, Lost);
    WonStaysJustified(s, s');
    forall x | lo <= x < lo + n && verdict == Won ensures Justified(s'.ledger, s'.tail, x) {
      JustifiedStays(s.ledger, s'.ledger, s.tail, s'.tail, x);
    }
  }

  lemma TrimKeepsInv(s: State, t: Thread)
    requires Inv(s) && Enabled(s, Step(t)) && s.threads[t].Trimming?
    ensures Inv(StepOf(s, t))
  {
    var s' := StepOf(s, t);
    var Trimming(d, my, a) := s.threads[t];
    assert ThreadOk(s, t, s.threads[t]);
    ResolveKeepsLedger(s, s', t, my + a, d - a, Lost);
    forall x | my <= x < my + a ensures Justified(s'.ledger, s'.tail, x) {
      JustifiedStays(s.ledger, s'.ledger, s.tail, s'.tail, x);
    }
    OthersStable(s, s', t);
  }

  lemma ClaimKeepsInv(s: State, t: Thread)
    requires Inv(s) && Enabled(s, Step(t)) && s.threads[t].Claiming?
    ensures Inv(StepOf(s, t))
  {
    var s' := StepOf(s, t);
    assert ThreadOk(s, t, s.threads[t]);
    ResolveKeepsLedger(s, s', t, s.threads[t].my, s.threads[t].actual, Won);
    assert s'.claims[|s.claims|] == Claim(t, s.head, s'.head);
    OthersStable(s, s', t);
  }

  lemma FailKeepsInv(s: State, t: Thread)
    requires Inv(s) && Enabled(s, Step(t)) && s.threads[t].Failing?
    ensures Inv(StepOf(s, t))
  {
    var s' := StepOf(s, t);
    assert ThreadOk(s, t, s.threads[t]);
    ResolveKeepsLedger(s, s', t, s.threads[t].my, s.threads[t].desired, Lost);
    OthersStable(s, s', t);
  }

  lemma EntryKeepsInv(s: State, a: Action)
    requires Inv(s) && Enabled(s, a) && !a.Step?
    ensures Inv(Apply(s, a))
  {
    var s' := Apply(s, a);
    WonStaysJustified(s, s');
    forall u | u in s'.threads ensures ThreadOk(s', u, s'.threads[u]) {
      if s'.threads[u] == s.threads[u] { Stable(s, s', u, s.threads[u]); }
    }
  }

  /** Every atomic action of every thread preserves the invariant. */
  lemma ActionKeepsInv(s: State, a: Action)
    requires Inv(s) && Enabled(s, a)
    ensures Inv(Apply(s, a))
  {
    if !a.Step? {
      EntryKeepsInv(s, a);
    } else {
      match s.threads[a.t]
      case Called(_) => LoadKeepsInv(s, a.t);
      case HasTail(_, _) => LoadKeepsInv(s, a.t);
      case HasOvercommit(_, _, _) => LoadKeepsInv(s, a.t);
      case Desiring(_, _) => JoinKeepsInv(s, a.t);
      case Joined(_, _, _) => DecideKeepsInv(s, a.t);
      case Trimming(_, _, _) => TrimKeepsInv(s, a.t);
      case Claiming(_, _) => ClaimKeepsInv(s, a.t);
      case Failing(_, _) => FailKeepsInv(s, a.t);
    }
  }

  lemma {:induction false} RunInv(run: seq<State>, acts: seq<Action>, i: nat)
    requires IsRun(run, acts) && i < |run|
    ensures Inv(run[i])
  {
    if i > 0 {
      RunInv(run, acts, i - 1);
      ActionKeepsInv(run[i - 1], acts[i - 1]);
    }
  }

  // ---------- what the protocol guarantees ----------

  // Of the winning tickets, take the largest: enough losers lie below it.
  lemma {:induction false} WinsBound(l: seq<Ticket>, tail: nat)
    requires forall x :: 0 <= x < |l| && l[x] == Won ==> Justified(l, tail, x)
    ensures Count(l, Won) <= tail
  {
    if l != [] {
      var n := |l| - 1;
      var p := l[..n];
      if l[n] == Won {
        assert Justified(l, tail, n);
        DistinctCounts(p);
      } else {
        forall x | 0 <= x < |p| && p[x] == Won ensures Justified(p, tail, x) {
          assert Justified(l, tail, x);
          assert l[..x] == p[..x];
        }
        WinsBound(p, tail);
      }
    }
  }

  lemma {:induction false} ClaimsOrdered(claims: seq<Claim>, head: nat, i: nat, j: nat)
    requires Tiles(claims, head) && i < j < |claims|
    ensures claims[i].hi <= claims[j].lo
    decreases j
  {
    if i < j - 1 { ClaimsOrdered(claims, head, i, j - 1); }
  }

  lemma {:induction false} ClaimsBelowHead(claims: seq<Claim>, head: nat, i: nat)
    requires Tiles(claims, head) && i < |claims|
    ensures claims[i].hi <= head
    decreases |claims| - i
  {
    if i + 1 < |claims| { ClaimsBelowHead(claims, head, i + 1); }
  }

  /** In every reachable state of every interleaving headIndex has not passed tailIndex, the claimed
      ranges are pairwise disjoint and hold only enqueued indices, and the overcommit count a consumer
      loaded is at most its ticket (the source's assertion). */
  lemma Safety(run: seq<State>, acts: seq<Action>, i: nat)
    requires IsRun(run, acts) && i < |run|
    ensures run[i].head <= run[i].tail
    ensures forall j, k :: 0 <= j < k < |run[i].claims| ==> run[i].claims[j].hi <= run[i].claims[k].lo
    ensures forall j :: 0 <= j < |run[i].claims| ==> run[i].claims[j].hi <= run[i].tail
    ensures forall t :: t in run[i].threads && run[i].threads[t].Joined? ==>
              run[i].threads[t].over <= run[i].threads[t].my
  {
    var s := run[i];
    RunInv(run, acts, i);
    WinsBound(s.ledger, s.tail);
    forall j, k | 0 <= j < k < |s.claims| ensures s.claims[j].hi <= s.claims[k].lo {
      ClaimsOrdered(s.claims, s.head, j, k);
    }
    forall j | 0 <= j < |s.claims| ensures s.claims[j].hi <= s.tail {
      ClaimsBelowHead(s.claims, s.head, j);
    }
    forall t | t in s.threads && s.threads[t].Joined? ensures s.threads[t].over <= s.threads[t].my {
      assert ThreadOk(s, t, s.threads[t]);
    }
  }

  // The number of elements t's last call returned.
  function Taken(s: State, t: Thread): nat
    requires t in s.threads && s.threads[t].Done?
  {
    s.threads[t].count
  }

  /** Two different consumers that have returned never hold the same element, in any interleaving. */
  lemma NoElementTwice(run: seq<State>, acts: seq<Action>, i: nat, t: Thread, u: Thread)
    requires IsRun(run, acts) && i < |run| && t != u
    requires t in run[i].threads && u in run[i].threads
    requires run[i].threads[t].Done? && run[i].threads[u].Done?
    requires Taken(run[i], t) > 0 && Taken(run[i], u) > 0
    ensures (run[i].threads[t].first + Taken(run[i], t) <= run[i].threads[u].first)
         || (run[i].threads[u].first + Taken(run[i], u) <= run[i].threads[t].first)
  {
    var s := run[i];
    RunInv(run, acts, i);
    var Done(ft, ct) := s.threads[t];
    var Done(fu, cu) := s.threads[u];
    assert ThreadOk(s, t, s.threads[t]) && ThreadOk(s, u, s.threads[u]);
    var j :| 0 <= j < |s.claims| && s.claims[j] == Claim(t, ft, ft + ct);
    var k :| 0 <= k < |s.claims| && s.claims[k] == Claim(u, fu, fu + cu);
    if j < k { ClaimsOrdered(s.claims, s.head, j, k); }
    if k < j { ClaimsOrdered(s.claims, s.head, k, j); }
  }

  predicate Quiet(s: State) { forall t :: t in s.threads ==> AtRest(s.threads[t]) }

  lemma QuietTally(s: State)
    requires Inv(s) && Quiet(s)
    ensures s.optimistic - s.over == s.head <= s.tail
  {
    DistinctCounts(s.ledger);
    WinsBound(s.ledger, s.tail);
  }

  /** Whenever no consumer is mid-call, dequeueOptimisticCount - dequeueOvercommit is exactly headIndex:
      every failed attempt has been paid back. */
  lemma QuietBalance(run: seq<State>, acts: seq<Action>, i: nat)
    requires IsRun(run, acts) && i < |run| && Quiet(run[i])
    ensures run[i].optimistic - run[i].over == run[i].head
  {
    RunInv(run, acts, i);
    QuietTally(run[i]);
  }

  // A number of elements that a lone dequeue of up to max may take: at least what was there at the call, at
  // most what is there now.
  predicate Goal(q: State, s: State, max: nat, n: nat) {
    Min(max, q.tail - q.head) <= n <= Min(max, s.tail - q.head)
  }

  // Where t can be, and what the counters are, while t alone runs a call started in the quiet state q and the
  // producer goes on.
  predicate SoloOk(q: State, s: State, t: Thread, max: nat)
    requires t in s.threads
  {
    && q.tail <= s.tail && s.over == q.over
    && match s.threads[t]
       case Idle => false
       case Called(m) => m == max && s.optimistic == q.optimistic && s.head == q.head
       case HasTail(m, tail) => m == max && q.tail <= tail <= s.tail && s.optimistic == q.optimistic && s.head == q.head
       case HasOvercommit(m, tail, over) =>
         m == max && q.tail <= tail <= s.tail && over == q.over && s.optimistic == q.optimistic && s.head == q.head
       case Desiring(d, over) =>
         Goal(q, s, max, d) && s.tail > q.head && over == q.over && s.optimistic == q.optimistic && s.head == q.head
       case Joined(d, over, my) =>
         Goal(q, s, max, d) && s.tail > q.head && over == q.over && my == q.optimistic && s.head == q.head
       case Trimming(_, _, _) => false
       case Claiming(_, a) => Goal(q, s, max, a) && s.head == q.head
       case Failing(_, _) => false
       case Done(first, n) => Goal(q, s, max, n) && s.head == q.head + n && (n > 0 ==> first == q.head)
  }

  lemma SoloStep(q: State, s: State, t: Thread, max: nat)
    requires q.optimistic - q.over == q.head <= q.tail
    requires t in s.threads && SoloOk(q, s, t, max) && Enabled(s, Step(t))
    ensures t in StepOf(s, t).threads && SoloOk(q, StepOf(s, t), t, max)
  {
  }

  lemma SoloCall(q: State, t: Thread, max: nat)
    requires Enabled(q, Call(t, max))
    ensures t in Apply(q, Call(t, max)).threads && SoloOk(q, Apply(q, Call(t, max)), t, max)
  {
  }

  lemma SoloEnqueue(q: State, s: State, t: Thread, max: nat, count: nat)
    requires t in s.threads && SoloOk(q, s, t, max)
    ensures t in Apply(s, Enqueue(count)).threads && SoloOk(q, Apply(s, Enqueue(count)), t, max)
  {
  }

  /** A dequeue that meets no other consumer, while the producer goes on enqueuing: it takes elements from the
      head, at least min(max, size at the call) and at most min(max, size now) of them, so it fails only on a
      sub-queue that was empty at the call; it returns no ticket to the overcommit count. */
  lemma LoneDequeue(run: seq<State>, acts: seq<Action>, i: nat, j: nat, t: Thread, max: nat)
    requires IsRun(run, acts) && i < j < |run|
    requires Quiet(run[i]) && acts[i] == Call(t, max)
    requires forall k :: i < k < j ==> acts[k] == Step(t) || acts[k].Enqueue?
    ensures t in run[j].threads && SoloOk(run[i], run[j], t, max)
    ensures run[j].threads[t].Done? ==>
              && Min(max, run[i].tail - run[i].head) <= Taken(run[j], t) <= Min(max, run[j].tail - run[i].head)
              && (max > 0 && Taken(run[j], t) == 0 ==> run[i].head == run[i].tail)
              && (max > 0 && run[j].tail == run[i].tail ==> (Taken(run[j], t) == 0 <==> run[i].head == run[i].tail))
  {
    RunInv(run, acts, i);
    QuietTally(run[i]);
    LoneRun(run, acts, i, j, t, max);
    hide Inv, Quiet, IsRun;
  }

  lemma {:induction false} LoneRun(run: seq<State>, acts: seq<Action>, i: nat, j: nat, t: Thread, max: nat)
    requires IsRun(run, acts) && i < j < |run| && run[i].optimistic - run[i].over == run[i].head <= run[i].tail
    requires acts[i] == Call(t, max) && forall k :: i < k < j ==> acts[k] == Step(t) || acts[k].Enqueue?
    ensures t in run[j].threads && SoloOk(run[i], run[j], t, max)
    decreases j
  {
    hide SoloOk, StepOf, Initial;
    if i + 1 < j {
      LoneRun(run, acts, i, j - 1, t, max);
      if acts[j - 1].Step? {
        SoloStep(run[i], run[j - 1], t, max);
      } else {
        SoloEnqueue(run[i], run[j - 1], t, max, acts[j - 1].count);
      }
    } else {
      SoloCall(run[i], t, max);
    }
  }

  function Rank(pc: Pc): nat {
    match pc
    case Called(_) => 7
    case HasTail(_, _) => 6
    case HasOvercommit(_, _, _) => 5
    case Desiring(_, _) => 4
    case Joined(_, _, _) => 3
    case Trimming(_, _, _) => 2
    case Claiming(_, _) => 1
    case Failing(_, _) => 1
    case Idle => 0
    case Done(_, _) => 0
  }

  /** Wait-freedom: in every reachable state a consumer that is mid-call has a step to take, and at most
      seven steps of its own bring it back, whatever the others do. */
  lemma WaitFree(run: seq<State>, acts: seq<Action>, i: nat, t: Thread)
    requires IsRun(run, acts) && i < |run|
    requires t in run[i].threads && !AtRest(run[i].threads[t])
    ensures Enabled(run[i], Step(t))
    ensures Rank(StepOf(run[i], t).threads[t]) < Rank(run[i].threads[t]) <= 7
    ensures forall a :: Enabled(run[i], a) && a != Step(t) ==> Apply(run[i], a).threads[t] == run[i].threads[t]
  {
    RunInv(run, acts, i);
    hide Inv;
    EnabledFromInv(run[i], t);
    RankDrops(run[i], t);
    forall a | Enabled(run[i], a) && a != Step(t) ensures Apply(run[i], a).threads[t] == run[i].threads[t] {
      OthersWait(run[i], a, t);
    }
  }

  lemma RankDrops(s: State, t: Thread)
    requires t in s.threads && Enabled(s, Step(t))
    ensures Rank(StepOf(s, t).threads[t]) < Rank(s.threads[t]) <= 7
  {
  }

  lemma OthersWait(s: State, a: Action, t: Thread)
    requires t in s.threads && !AtRest(s.threads[t]) && Enabled(s, a) && a != Step(t)
    ensures Apply(s, a).threads[t] == s.threads[t]
  {
  }
}
