/**
 LightweightSemaphore and the blocking queue built on it.

 Each load, compare-exchange, fetch_add and fetch_sub of m_count, and each operation of the kernel
 semaphore, is one action; the threads are 0 .. |threads|.  A kernel signal of several posts may post them
 one at a time or all together, which covers both platforms.  tryWait() and wait() are the calls with
 max == 1.

 `avail` counts the elements of the inner queue that no dequeue has claimed; an inner dequeue may fail at
 will but takes no more than there are.  `initial`, `signalled` and `acquired` are history.
 */
module BlockingQueue {

  const SPINS: nat := 10000

  // A call: try only, or wait, and then with or without a timeout.
  datatype Call = Try(max: nat) | Wait(max: nat, timed: bool)

  datatype Thread =
    | Idle
    // tryWaitMany, as the call itself, as the first part of a wait, or (extra) after one was acquired
    | TryLoad(call: Call, extra: bool)
    | TryCas(call: Call, extra: bool, seen: int)
    // the slow path
    | SpinLoad(call: Call, spin: nat)
    | SpinCas(call: Call, spin: nat, seen: int)
    | Subtract(call: Call)
    | Sleep(call: Call)
    | RepairLoad(call: Call)
    | RepairTry(call: Call)
    | RepairCas(call: Call, seen: int)
    // returned with `got`; `left` elements still to dequeue
    | Holding(call: Call, got: nat, left: nat)
    // enqueue has succeeded, the semaphore is to be signalled; then posts are left to do
    | Signal(count: nat)
    | Posting(posts: nat)

  datatype State = State(
    count: int,          // m_count
    kernel: nat,         // m_sema
    threads: seq<Thread>,
    avail: nat,
    initial: nat, signalled: nat, acquired: nat)

  datatype Action =
    | Start(t: nat, call: Call)
    | Step(t: nat, spurious: bool)       // the thread's next step; a weak compare-exchange may fail spuriously
    | TimeOut(t: nat)
    | Enqueue(t: nat, count: nat)        // the inner enqueue succeeds
    | Post(t: nat, posts: nat)
    | Take(t: nat, count: nat)           // the inner dequeue yields `count`
    | Finish(t: nat)

  // ---------- steps ----------

  // What a greedy acquisition of up to max leaves.
  function Remaining(seen: int, max: nat): int { if seen > max then seen - max else 0 }

  // After tryWaitMany: a wait that got nothing goes on to spin.
  function AfterTry(call: Call, extra: bool, got: nat): Thread {
    if extra then Holding(call, 1 + got, 1 + got)
    else if got == 0 && call.Wait? && call.max > 0 then SpinLoad(call, SPINS)
    else Holding(call, got, got)
  }

  // After one permit of the slow path.
  function AfterOne(call: Call): Thread {
    if call.max > 1 then TryLoad(call, true) else Holding(call, 1, 1)
  }

  function More(call: Call, extra: bool): nat {
    if extra then if call.max > 0 then call.max - 1 else 0 else call.max
  }

  predicate StepEnabled(s: State, p: Thread) {
    match p
    case Idle => false
    case TryLoad(_, _) => true
    case TryCas(_, _, seen) => seen > 0
    case SpinLoad(_, _) => true
    case SpinCas(_, _, seen) => seen > 0
    case Subtract(_) => true
    case Sleep(_) => s.kernel > 0
    case RepairLoad(_) => true
    case RepairTry(_) => true
    case RepairCas(_, seen) => seen < 0
    case Holding(_, _, _) => false
    case Signal(_) => true
    case Posting(_) => false
  }

  predicate Enabled(s: State, a: Action) {
    && a.t < |s.threads|
    && var p := s.threads[a.t];
       match a
       case Start(_, _) => p == Idle
       case Step(_, _) => StepEnabled(s, p)
       case TimeOut(_) => p.Sleep? && p.call.Wait? && p.call.timed
       case Enqueue(_, _) => p == Idle
       case Post(_, posts) => p.Posting? && 0 < posts <= p.posts
       case Take(_, count) => p.Holding? && count <= p.left && count <= s.avail
       case Finish(_) => (p.Holding? && p.left == 0) || (p.Posting? && p.posts == 0)
  }

  function Put(s: State, t: nat, p: Thread): State
    requires t < |s.threads|
  {
    s.(threads := s.threads[t := p])
  }

  // The value loaded or handed back by a failed compare-exchange decides whether tryWaitMany goes on.
  function Seen(call: Call, extra: bool, value: int): Thread {
    if value > 0 then TryCas(call, extra, value) else AfterTry(call, extra, 0)
  }

  function Spin(call: Call, spin: nat): Thread {
    if spin > 0 then SpinLoad(call, spin) else Subtract(call)
  }

  function ThreadStep(s: State, t: nat, spurious: bool): State
    requires Enabled(s, Step(t, spurious))
  {
    match s.threads[t]
    case TryLoad(call, extra) => Put(s, t, Seen(call, extra, s.count))
    case TryCas(call, extra, seen) =>
      if s.count != seen || spurious then Put(s, t, Seen(call, extra, s.count))
      else
        var got := seen - Remaining(seen, More(call, extra));
        Put(s, t, AfterTry(call, extra, got)).(count := seen - got, acquired := s.acquired + got)
    case SpinLoad(call, spin) =>
      if spin == 0 then Put(s, t, Subtract(call))
      else if s.count > 0 then Put(s, t, SpinCas(call, spin - 1, s.count))
      else Put(s, t, Spin(call, spin - 1))
    case SpinCas(call, spin, seen) =>
      if s.count != seen then Put(s, t, Spin(call, spin))
      else
        var got := seen - Remaining(seen, call.max);
        Put(s, t, Holding(call, got, got)).(count := seen - got, acquired := s.acquired + got)
    case Subtract(call) =>
      if s.count > 0 then Put(s, t, AfterOne(call)).(count := s.count - 1, acquired := s.acquired + 1)
      else Put(s, t, Sleep(call)).(count := s.count - 1)
    case Sleep(call) => Put(s, t, AfterOne(call)).(kernel := s.kernel - 1, acquired := s.acquired + 1)
    case RepairLoad(call) => Put(s, t, if s.count >= 0 then RepairTry(call) else RepairCas(call, s.count))
    case RepairTry(call) =>
      if s.kernel > 0 then Put(s, t, AfterOne(call)).(kernel := s.kernel - 1, acquired := s.acquired + 1)
      else Put(s, t, RepairLoad(call))
    case RepairCas(call, seen) =>
      if s.count == seen then Put(s, t, Holding(call, 0, 0)).(count := seen + 1)
      else Put(s, t, RepairLoad(call))
    case Signal(count) =>
      var release := if -s.count < count then -s.count else count;
      Put(s, t, Posting(if release > 0 then release else 0)).(count := s.count + count, signalled := s.signalled + count)
  }

  function Apply(s: State, a: Action): State
    requires Enabled(s, a)
  {
    match a
    case Start(t, call) => Put(s, t, TryLoad(call, false))
    case Step(t, spurious) => ThreadStep(s, t, spurious)
    case TimeOut(t) => Put(s, t, RepairLoad(s.threads[t].call))
    case Enqueue(t, count) => Put(s, t, Signal(count)).(avail := s.avail + count)
    case Post(t, posts) => Put(s, t, Posting(s.threads[t].posts - posts)).(kernel := s.kernel + posts)
    case Take(t, count) =>
      var p := s.threads[t];
      Put(s, t, p.(left := p.left - count)).(avail := s.avail - count)
    case Finish(t) => Put(s, t, Idle)
  }

  predicate Initial(s: State) {
    && s.count == s.initial == s.avail && s.kernel == s.signalled == s.acquired == 0
    && forall t :: 0 <= t < |s.threads| ==> s.threads[t] == Idle
  }

  predicate IsRun(run: seq<State>, acts: seq<Action>) {
    && |run| == |acts| + 1
    && Initial(run[0])
    && forall i :: 0 <= i < |acts| ==> Enabled(run[i], acts[i]) && run[i + 1] == Apply(run[i], acts[i])
  }

  // ---------- sums over the threads ----------

  function Waits(p: Thread): nat { if p.Sleep? || p.RepairLoad? || p.RepairTry? || p.RepairCas? then 1 else 0 }
  function Promised(p: Thread): nat { if p.Posting? then p.posts else 0 }
  function Unsignalled(p: Thread): nat { if p.Signal? then p.count else 0 }
  function Held(p: Thread): nat
  {
    match p
    case Holding(_, _, left) => left
    case TryLoad(_, extra) => if extra then 1 else 0
    case TryCas(_, extra, _) => if extra then 1 else 0
    case _ => 0
  }

  function Total(threads: seq<Thread>, weight: Thread -> nat): nat {
    if threads == [] then 0 else weight(threads[0]) + Total(threads[1..], weight)
  }

  lemma {:induction false} TotalPut(threads: seq<Thread>, weight: Thread -> nat, t: nat, p: Thread)
    requires t < |threads|
    ensures Total(threads[t := p], weight) == Total(threads, weight) - weight(threads[t]) + weight(p)
    ensures weight(threads[t]) <= Total(threads, weight)
  {
    if t == 0 {
      assert threads[t := p][1..] == threads[1..];
    } else {
      assert threads[t := p][1..] == threads[1..][t - 1 := p];
      TotalPut(threads[1..], weight, t - 1, p);
    }
  }

  lemma {:induction false} TotalSome(threads: seq<Thread>, weight: Thread -> nat) returns (t: nat)
    requires Total(threads, weight) > 0
    ensures t < |threads| && weight(threads[t]) > 0
  {
    if weight(threads[0]) > 0 {
      t := 0;
    } else {
      var u := TotalSome(threads[1..], weight);
      t := u + 1;
    }
  }

  lemma {:induction false} TotalNone(threads: seq<Thread>, weight: Thread -> nat)
    requires forall t :: 0 <= t < |threads| ==> weight(threads[t]) == 0
    ensures Total(threads, weight) == 0
  {
    if threads != [] { TotalNone(threads[1..], weight); }
  }

  // ---------- the invariant ----------

  function Waiters(s: State): nat { Total(s.threads, Waits) }
  function Promises(s: State): nat { Total(s.threads, Promised) }
  function Unspent(s: State): nat { Total(s.threads, Held) }
  function Announced(s: State): nat { Total(s.threads, Unsignalled) }

  function Debt(count: int): nat { if count < 0 then -count else 0 }

  // Every unresolved waiter is either counted in a negative m_count, or has a kernel permit waiting, or a
  // signaller that has promised to post one.
  predicate WaitersPaid(s: State) { Debt(s.count) + s.kernel + Promises(s) == Waiters(s) }

  predicate PermitsConserved(s: State) { s.initial + s.signalled == s.acquired + s.count + Waiters(s) }

  predicate ElementsConserved(s: State) {
    s.avail + s.acquired == Announced(s) + Unspent(s) + s.initial + s.signalled
  }

  predicate ThreadOk(p: Thread) {
    match p
    case Idle => true
    case TryLoad(call, extra) => extra ==> call.Wait? && call.max > 1
    case TryCas(call, extra, seen) => seen > 0 && (extra ==> call.Wait? && call.max > 1)
    case SpinLoad(call, _) => call.Wait? && call.max > 0
    case SpinCas(call, _, seen) => seen > 0 && call.Wait? && call.max > 0
    case Subtract(call) => call.Wait? && call.max > 0
    case Sleep(call) => call.Wait? && call.max > 0
    case RepairLoad(call) => call.Wait? && call.timed && call.max > 0
    case RepairTry(call) => call.Wait? && call.timed && call.max > 0
    case RepairCas(call, seen) => call.Wait? && call.timed && call.max > 0 && seen < 0
    case Holding(call, got, left) => left <= got <= call.max && (call.Wait? && !call.timed && call.max > 0 ==> got > 0)
    case Signal(_) => true
    case Posting(_) => true
  }

  predicate ThreadsOk(s: State) { forall t :: 0 <= t < |s.threads| ==> ThreadOk(s.threads[t]) }

  predicate Inv(s: State) { WaitersPaid(s) && PermitsConserved(s) && ElementsConserved(s) && ThreadsOk(s) }

  lemma PutSums(s: State, t: nat, p: Thread)
    requires t < |s.threads|
    ensures var s' := Put(s, t, p);
            && Waiters(s') == Waiters(s) - Waits(s.threads[t]) + Waits(p)
            && Promises(s') == Promises(s) - Promised(s.threads[t]) + Promised(p)
            && Unspent(s') == Unspent(s) - Held(s.threads[t]) + Held(p)
            && Announced(s') == Announced(s) - Unsignalled(s.threads[t]) + Unsignalled(p)
    ensures Waits(s.threads[t]) <= Waiters(s) && Held(s.threads[t]) <= Unspent(s)
  {
    TotalPut(s.threads, Waits, t, p);
    TotalPut(s.threads, Promised, t, p);
    TotalPut(s.threads, Held, t, p);
    TotalPut(s.threads, Unsignalled, t, p);
  }

  // One change of m_count, the kernel count, the history and one thread keeps the books when it balances.
  predicate Balanced(s: State, s': State, p: Thread, q: Thread) {
    && Debt(s'.count) + s'.kernel + Promised(q) - Waits(q) == Debt(s.count) + s.kernel + Promised(p) - Waits(p)
    && s'.initial == s.initial
    && s'.acquired + s'.count + Waits(q) - s'.signalled == s.acquired + s.count + Waits(p) - s.signalled
    && s'.avail + s'.acquired - s'.signalled - Held(q) - Unsignalled(q)
       == s.avail + s.acquired - s.signalled - Held(p) - Unsignalled(p)
    && ThreadOk(q)
  }

  lemma BalancedKeepsInv(s: State, s': State, t: nat, q: Thread)
    requires Inv(s) && t < |s.threads| && s'.threads == s.threads[t := q] && Balanced(s, s', s.threads[t], q)
    ensures Inv(s')
  {
    hide Total, ThreadOk;
    PutSums(s, t, q);
  }

  lemma TryBalanced(s: State, t: nat, spurious: bool)
    requires t < |s.threads| && ThreadOk(s.threads[t]) && Enabled(s, Step(t, spurious))
    requires s.threads[t].TryLoad? || s.threads[t].TryCas? || s.threads[t].SpinLoad? || s.threads[t].SpinCas?
    ensures Balanced(s, ThreadStep(s, t, spurious), s.threads[t], ThreadStep(s, t, spurious).threads[t])
  {
  }

  // The kernel semaphore only holds permits for waiters, so a waiter that finds one in the repair loop
  // may take it even though m_count says nothing is owed.
  lemma SlowBalanced(s: State, t: nat, spurious: bool)
    requires t < |s.threads| && ThreadOk(s.threads[t]) && Enabled(s, Step(t, spurious))
    requires !s.threads[t].TryLoad? && !s.threads[t].TryCas? && !s.threads[t].SpinLoad? && !s.threads[t].SpinCas?
    ensures Balanced(s, ThreadStep(s, t, spurious), s.threads[t], ThreadStep(s, t, spurious).threads[t])
  {
  }

  lemma ActionKeepsInv(s: State, a: Action)
    requires Inv(s) && Enabled(s, a)
    ensures Inv(Apply(s, a))
  {
    hide Inv, ThreadStep;
    var p := s.threads[a.t];
    assert ThreadOk(p) by { ThreadAt(s, a.t); }
    var s' := Apply(s, a);
    assert s'.threads == s.threads[a.t := s'.threads[a.t]] && Balanced(s, s', p, s'.threads[a.t]) by {
      if a.Step? {
        OneThread(s, a.t, a.spurious);
        if p.TryLoad? || p.TryCas? || p.SpinLoad? || p.SpinCas? {
          TryBalanced(s, a.t, a.spurious);
        } else {
          SlowBalanced(s, a.t, a.spurious);
        }
      }
    }
    BalancedKeepsInv(s, s', a.t, s'.threads[a.t]);
  }

  lemma ThreadAt(s: State, t: nat)
    requires Inv(s) && t < |s.threads|
    ensures ThreadOk(s.threads[t])
  {
  }

  lemma OneThread(s: State, t: nat, spurious: bool)
    requires Enabled(s, Step(t, spurious))
    ensures var s' := ThreadStep(s, t, spurious); |s'.threads| == |s.threads| && s'.threads == s.threads[t := s'.threads[t]]
  {
  }

  lemma InitialInv(s: State)
    requires Initial(s)
    ensures Inv(s)
  {
    TotalNone(s.threads, Waits);
    TotalNone(s.threads, Promised);
    TotalNone(s.threads, Held);
    TotalNone(s.threads, Unsignalled);
  }

  lemma {:induction false} RunInv(run: seq<State>, acts: seq<Action>, i: nat)
    requires IsRun(run, acts) && i < |run|
    ensures Inv(run[i])
  {
    if i == 0 {
      InitialInv(run[0]);
    } else {
      RunInv(run, acts, i - 1);
      ActionKeepsInv(run[i - 1], acts[i - 1]);
    }
  }

  // ---------- what the semaphore guarantees ----------

  /** No permit is handed out twice or from nothing: acquisitions never exceed the initial count plus the
      signals, and what is missing is in m_count, in the kernel semaphore or promised to it. */
  lemma NeverOverdrawn(run: seq<State>, acts: seq<Action>, i: nat)
    requires IsRun(run, acts) && i < |run|
    ensures var s := run[i];
            && s.acquired <= s.initial + s.signalled
            && s.initial + s.signalled - s.acquired == (if s.count > 0 then s.count else 0) + s.kernel + Promises(s)
  {
    RunInv(run, acts, i);
  }

  /** The accounting of the slow path, in every reachable state and through the timeout repair loop. */
  lemma WaitersAccounted(run: seq<State>, acts: seq<Action>, i: nat)
    requires IsRun(run, acts) && i < |run|
    ensures Debt(run[i].count) + run[i].kernel + Promises(run[i]) == Waiters(run[i])
  {
    RunInv(run, acts, i);
  }

  /** What a call returns: never more than asked for, and an untimed wait for max > 0 returns at least 1. */
  lemma ResultInRange(run: seq<State>, acts: seq<Action>, i: nat, t: nat)
    requires IsRun(run, acts) && i < |run| && t < |run[i].threads| && run[i].threads[t].Holding?
    ensures var p := run[i].threads[t];
            && p.got <= p.call.max
            && (p.call.Wait? && !p.call.timed ==> (p.got >= 1 <==> p.call.max > 0))
  {
    RunInv(run, acts, i);
    assert ThreadOk(run[i].threads[t]);
  }

  /** A permit is not lost on a sleeper: with no signaller between its fetch_add and its last post, a
      waiter without a kernel permit means that m_count is negative, so no permit is free. */
  lemma NoLostWakeup(run: seq<State>, acts: seq<Action>, i: nat)
    requires IsRun(run, acts) && i < |run|
    requires forall t :: 0 <= t < |run[i].threads| ==> !run[i].threads[t].Posting?
    ensures var s := run[i];
            && s.kernel <= Waiters(s)
            && (s.kernel < Waiters(s) <==> s.count < 0)
            && (s.count < 0 ==> s.count == s.kernel - Waiters(s) && s.initial + s.signalled == s.acquired + s.kernel)
  {
    RunInv(run, acts, i);
    TotalNone(run[i].threads, Promised);
  }

  /** The repair loop never turns forever on its own: whenever a thread in it would find m_count >= 0 and
      the kernel semaphore at zero, some signaller is still about to post. */
  lemma RepairHasHelp(run: seq<State>, acts: seq<Action>, i: nat, t: nat) returns (u: nat)
    requires IsRun(run, acts) && i < |run| && t < |run[i].threads| && Waits(run[i].threads[t]) == 1
    requires run[i].count >= 0 && run[i].kernel == 0
    ensures u < |run[i].threads| && run[i].threads[u].Posting? && run[i].threads[u].posts > 0
  {
    RunInv(run, acts, i);
    TotalPut(run[i].threads, Waits, t, Idle);
    u := TotalSome(run[i].threads, Promised);
  }

  // ---------- what the queue guarantees ----------

  /** A thread that still has `left` elements to dequeue for the permits it acquired finds that many in the
      inner queue, whatever the other threads do: its retry loop always has an element left to find. */
  lemma HolderFindsElement(run: seq<State>, acts: seq<Action>, i: nat, t: nat)
    requires IsRun(run, acts) && i < |run| && t < |run[i].threads| && run[i].threads[t].Holding?
    ensures run[i].threads[t].left <= run[i].avail
    ensures Enabled(run[i], Take(t, run[i].threads[t].left))
  {
    RunInv(run, acts, i);
    PutSums(run[i], t, Idle);
  }

  /** Unclaimed elements are at least the permits free or promised plus the permits acquired and unspent;
      the difference is what enqueuers have yet to announce. */
  lemma ElementsCoverPermits(run: seq<State>, acts: seq<Action>, i: nat)
    requires IsRun(run, acts) && i < |run|
    ensures var s := run[i];
            s.avail == Announced(s) + Unspent(s) + (if s.count > 0 then s.count else 0) + s.kernel + Promises(s)
  {
    RunInv(run, acts, i);
  }

  /** When nobody is in a call, m_count is the number of elements in the queue. */
  lemma QuietCount(run: seq<State>, acts: seq<Action>, i: nat)
    requires IsRun(run, acts) && i < |run|
    requires forall t :: 0 <= t < |run[i].threads| ==> run[i].threads[t] == Idle
    ensures run[i].count == run[i].avail && run[i].kernel == 0
  {
    RunInv(run, acts, i);
    TotalNone(run[i].threads, Waits);
    TotalNone(run[i].threads, Promised);
    TotalNone(run[i].threads, Held);
    TotalNone(run[i].threads, Unsignalled);
  }
}
