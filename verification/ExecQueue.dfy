/**
 The command queue of the service: callers hand commands to consumer threads and may wait for them, the
 consumers pass the results of asynchronous loads to the trunk queue, its owner runs them, and Shutdown
 stops both.

 Each test of a flag, queue operation, execution of a command and call of a callback is one action.  The
 queues hand out any element (module BlockingQueue).  A command is numbered when it is enqueued.
 `executed`, `answers`, `delivered` and `called` are history.
 */
module ExecQueue {

  type Id = nat

  datatype Option<+T> = None | Some(value: T)

  // sync: Synchronize*, with the number of the caller that waits; load: the command has a result callback.
  datatype Cmd = Cmd(id: Id, sync: bool, load: bool, owner: nat)

  datatype Caller =
    | Idle
    | Passed(sync: bool, load: bool)                        // found _done false, about to enqueue
    | Waiting(id: Id, load: bool, result: Option<int>)      // in get_future().get(), with its vResult
    | Returned(id: Id, load: bool, result: Option<int>)     // returned true

  datatype Consumer =
    | Top                               // about to test _done
    | Dequeue                           // in wait_dequeue_timed
    | Exec(cmd: Cmd)
    | Deliver(cmd: Cmd, answer: int)    // about to call the result callback
    | Adding(cmd: Cmd, answer: int)     // in CamelConcurrentQueue::Add, found _close false
    | Dispose(cmd: Cmd)
    | Leaving(cmd: Cmd)                 // in set_value, which has just let the caller go
    | Gone

  datatype Callback = Callback(id: Id, answer: int)

  datatype Runner = Away | Testing | Taking | Calling(cb: Callback)      // RunOnce

  datatype Closer = Open | Finishing | Joined | Closed                   // Shutdown

  datatype State = State(
    done: bool, close: bool,
    queue: seq<Cmd>, trunk: seq<Callback>,
    callers: seq<Caller>, consumers: seq<Consumer>, runners: seq<Runner>, closer: Closer,
    next: nat,
    promises: set<Id>,                  // promises fulfilled
    executed: set<Id>, answers: map<Id, int>, delivered: set<Id>, called: set<Id>)

  datatype Action =
    | Call(t: nat, sync: bool, load: bool)
    | Enqueue(t: nat, ok: bool)          // the enqueue may fail
    | Wake(t: nat)
    | Reset(t: nat)
    | Test(c: nat)
    | Take(c: nat, i: nat)
    | TimeOut(c: nat)
    | Execute(c: nat, answer: int)
    | HandOver(c: nat)
    | Add(c: nat, ok: bool)
    | End(c: nat)
    | Leave(c: nat)
    | RunOnce(r: nat) | TestClose(r: nat) | TakeCallback(r: nat, i: nat) | RunEmpty(r: nat) | CallIt(r: nat)
    | Shutdown | Join | Close

  // ---------- steps ----------

  function Remove<T>(s: seq<T>, i: nat): seq<T>
    requires i < |s|
  {
    s[..i] + s[i + 1..]
  }

  predicate Enabled(s: State, a: Action) {
    match a
    case Call(t, _, _) => t < |s.callers| && s.callers[t] == Idle
    case Enqueue(t, _) => t < |s.callers| && s.callers[t].Passed?
    case Wake(t) => t < |s.callers| && s.callers[t].Waiting? && s.callers[t].id in s.promises
    case Reset(t) => t < |s.callers| && s.callers[t].Returned?
    case Test(c) => c < |s.consumers| && s.consumers[c] == Top
    case Take(c, i) => c < |s.consumers| && s.consumers[c] == Dequeue && i < |s.queue|
    case TimeOut(c) => c < |s.consumers| && s.consumers[c] == Dequeue
    case Execute(c, _) => c < |s.consumers| && s.consumers[c].Exec?
    case HandOver(c) =>
      c < |s.consumers| && s.consumers[c].Deliver? && (s.consumers[c].cmd.sync ==> s.consumers[c].cmd.owner < |s.callers|)
    case Add(c, _) => c < |s.consumers| && s.consumers[c].Adding?
    case End(c) => c < |s.consumers| && s.consumers[c].Dispose?
    case Leave(c) => c < |s.consumers| && s.consumers[c].Leaving?
    case RunOnce(r) => r < |s.runners| && s.runners[r] == Away
    case TestClose(r) => r < |s.runners| && s.runners[r] == Testing
    case TakeCallback(r, i) => r < |s.runners| && s.runners[r] == Taking && i < |s.trunk|
    case RunEmpty(r) => r < |s.runners| && s.runners[r] == Taking
    case CallIt(r) => r < |s.runners| && s.runners[r].Calling?
    case Shutdown => s.closer == Open
    case Join => s.closer == Finishing && forall c :: 0 <= c < |s.consumers| ==> s.consumers[c] == Gone
    case Close => s.closer == Joined
  }

  // The result callback of a synchronous load stores through a reference to the caller's vector.
  function Store(p: Caller, answer: int): Caller {
    match p
    case Waiting(id, load, _) => Waiting(id, load, Some(answer))
    case Returned(id, load, _) => Returned(id, load, Some(answer))
    case Idle => p
    case Passed(_, _) => p
  }

  function Apply(s: State, a: Action): State
    requires Enabled(s, a)
  {
    match a
    case Call(t, sync, load) => if s.done then s else s.(callers := s.callers[t := Passed(sync, load)])
    case Enqueue(t, ok) =>
      var p := s.callers[t];
      if !ok then s.(callers := s.callers[t := Idle])
      else
        s.(queue := s.queue + [Cmd(s.next, p.sync, p.load, t)], next := s.next + 1,
           callers := s.callers[t := if p.sync then Waiting(s.next, p.load, None) else Idle])
    case Wake(t) => var p := s.callers[t]; s.(callers := s.callers[t := Returned(p.id, p.load, p.result)])
    case Reset(t) => s.(callers := s.callers[t := Idle])
    case Test(c) => s.(consumers := s.consumers[c := if s.done then Gone else Dequeue])
    case Take(c, i) => s.(consumers := s.consumers[c := Exec(s.queue[i])], queue := Remove(s.queue, i))
    case TimeOut(c) => s.(consumers := s.consumers[c := Top])
    case Execute(c, answer) =>
      var cmd := s.consumers[c].cmd;
      s.(consumers := s.consumers[c := if cmd.load then Deliver(cmd, answer) else Dispose(cmd)],
         executed := s.executed + {cmd.id}, answers := s.answers[cmd.id := answer])
    case HandOver(c) =>
      var p := s.consumers[c];
      if p.cmd.sync then
        s.(callers := s.callers[p.cmd.owner := Store(s.callers[p.cmd.owner], p.answer)],
           consumers := s.consumers[c := Dispose(p.cmd)], delivered := s.delivered + {p.cmd.id})
      else s.(consumers := s.consumers[c := if s.close then Dispose(p.cmd) else Adding(p.cmd, p.answer)])
    case Add(c, ok) =>
      var p := s.consumers[c];
      s.(consumers := s.consumers[c := Dispose(p.cmd)], delivered := s.delivered + {p.cmd.id},
         trunk := if ok then s.trunk + [Callback(p.cmd.id, p.answer)] else s.trunk)
    case End(c) =>
      var cmd := s.consumers[c].cmd;
      if cmd.sync then s.(consumers := s.consumers[c := Leaving(cmd)], promises := s.promises + {cmd.id})
      else s.(consumers := s.consumers[c := Top])
    case Leave(c) => s.(consumers := s.consumers[c := Top])
    case RunOnce(r) => s.(runners := s.runners[r := Testing])
    case TestClose(r) => s.(runners := s.runners[r := if s.close then Away else Taking])
    case TakeCallback(r, i) => s.(runners := s.runners[r := Calling(s.trunk[i])], trunk := Remove(s.trunk, i))
    case RunEmpty(r) => s.(runners := s.runners[r := Away])
    case CallIt(r) => s.(runners := s.runners[r := Testing], called := s.called + {s.runners[r].cb.id})
    case Shutdown => s.(closer := Finishing, done := true)
    case Join => s.(closer := Joined)
    case Close => s.(closer := Closed, close := true)
  }

  predicate Initial(s: State) {
    && !s.done && !s.close && s.queue == [] && s.trunk == [] && s.next == 0 && s.closer == Open
    && (forall t :: 0 <= t < |s.callers| ==> s.callers[t] == Idle)
    && (forall c :: 0 <= c < |s.consumers| ==> s.consumers[c] == Top)
    && (forall r :: 0 <= r < |s.runners| ==> s.runners[r] == Away)
    && s.promises == {} && s.executed == {} && s.answers == map[] && s.delivered == {} && s.called == {}
  }

  predicate IsRun(run: seq<State>, acts: seq<Action>) {
    && |run| == |acts| + 1
    && Initial(run[0])
    && forall i :: 0 <= i < |acts| ==> Enabled(run[i], acts[i]) && run[i + 1] == Apply(run[i], acts[i])
  }

  // ---------- the invariant: where each command is ----------

  predicate Holds(p: Consumer, id: Id) { (p.Exec? || p.Deliver? || p.Adding? || p.Dispose?) && p.cmd.id == id }

  // A command that is queued or in a consumer's hands: what is known of it.
  predicate Live(s: State, cmd: Cmd) {
    && cmd.id < s.next && cmd.id !in s.promises
    && (cmd.sync ==>
          cmd.owner < |s.callers| && s.callers[cmd.owner].Waiting? && s.callers[cmd.owner].id == cmd.id
          && s.callers[cmd.owner].load == cmd.load)
  }

  predicate QueueOk(s: State) {
    && (forall i :: 0 <= i < |s.queue| ==>
          Live(s, s.queue[i]) && s.queue[i].id !in s.executed && s.queue[i].id !in s.delivered)
    && (forall i, j :: 0 <= i < j < |s.queue| ==> s.queue[i].id != s.queue[j].id)
  }

  predicate ConsumerOk(s: State, p: Consumer) {
    match p
    case Top => true
    case Dequeue => true
    case Exec(cmd) => Live(s, cmd) && cmd.id !in s.executed && cmd.id !in s.delivered
    case Deliver(cmd, answer) =>
      Live(s, cmd) && cmd.load && cmd.id in s.executed && cmd.id in s.answers && s.answers[cmd.id] == answer
      && cmd.id !in s.delivered
    case Adding(cmd, answer) =>
      Live(s, cmd) && cmd.load && !cmd.sync && cmd.id in s.executed && cmd.id in s.answers
      && s.answers[cmd.id] == answer && cmd.id !in s.delivered && !s.close
    case Dispose(cmd) =>
      Live(s, cmd) && cmd.id in s.executed
      && (cmd.sync && cmd.load ==> cmd.id in s.answers && s.callers[cmd.owner].result == Some(s.answers[cmd.id]))
    case Leaving(cmd) => cmd.sync && cmd.id in s.executed && cmd.id in s.promises
    case Gone => true
  }

  ghost predicate ConsumersOk(s: State) {
    && (forall c :: 0 <= c < |s.consumers| ==> ConsumerOk(s, s.consumers[c]))
    && (forall c, i :: 0 <= c < |s.consumers| && 0 <= i < |s.queue| ==> !Holds(s.consumers[c], s.queue[i].id))
    && (forall c, d, id: nat :: 0 <= c < d < |s.consumers| && Holds(s.consumers[c], id) ==> !Holds(s.consumers[d], id))
  }

  // What a promise fulfilled means to the caller that waits for it.
  predicate CallerOk(s: State, p: Caller) {
    match p
    case Idle => true
    case Passed(_, _) => true
    case Waiting(id, load, result) =>
      id < s.next && (id in s.promises ==>
        id in s.executed && (load ==> id in s.answers && result == Some(s.answers[id])))
    case Returned(id, load, result) =>
      id < s.next && id in s.executed && (load ==> id in s.answers && result == Some(s.answers[id]))
  }

  predicate HasId(p: Caller, id: Id) { (p.Waiting? || p.Returned?) && p.id == id }

  ghost predicate CallersOk(s: State) {
    && (forall t :: 0 <= t < |s.callers| ==> CallerOk(s, s.callers[t]))
    && (forall t, u, id: nat :: 0 <= t < u < |s.callers| && HasId(s.callers[t], id) ==> !HasId(s.callers[u], id))
  }

  predicate HistoryOk(s: State) {
    && (forall id :: id in s.executed ==> id < s.next && id in s.answers)
    && (forall id :: id in s.promises ==> id in s.executed)
    && (forall id :: id in s.delivered ==> id in s.executed)
  }

  predicate CallbackOk(s: State, cb: Callback) {
    && cb.id in s.delivered && cb.id !in s.called && cb.id in s.answers && s.answers[cb.id] == cb.answer
  }

  predicate TrunkOk(s: State) {
    && (forall i :: 0 <= i < |s.trunk| ==> CallbackOk(s, s.trunk[i]))
    && (forall i, j :: 0 <= i < j < |s.trunk| ==> s.trunk[i].id != s.trunk[j].id)
    && (forall r :: 0 <= r < |s.runners| && s.runners[r].Calling? ==> CallbackOk(s, s.runners[r].cb))
    && (forall r, i :: 0 <= r < |s.runners| && 0 <= i < |s.trunk| && s.runners[r].Calling? ==>
          s.runners[r].cb.id != s.trunk[i].id)
    && (forall q, r :: 0 <= q < r < |s.runners| && s.runners[q].Calling? && s.runners[r].Calling? ==>
          s.runners[q].cb.id != s.runners[r].cb.id)
    && (forall id :: id in s.called ==> id in s.delivered)
  }

  predicate ShutdownOk(s: State) {
    && (s.closer != Open ==> s.done)
    && (s.close <==> s.closer == Closed)
    && (s.closer == Joined || s.closer == Closed ==> forall c :: 0 <= c < |s.consumers| ==> s.consumers[c] == Gone)
  }

  ghost predicate Inv(s: State) {
    QueueOk(s) && ConsumersOk(s) && CallersOk(s) && HistoryOk(s) && TrunkOk(s) && ShutdownOk(s)
  }

  // ---------- frames ----------

  // The commands, callers and history are as before.
  predicate SameWork(s: State, s': State) {
    && s'.queue == s.queue && s'.callers == s.callers && s'.next == s.next && s'.promises == s.promises
    && s'.executed == s.executed && s'.answers == s.answers && s'.delivered == s.delivered
  }

  lemma QueueFrame(s: State, s': State)
    requires QueueOk(s) && SameWork(s, s')
    ensures QueueOk(s')
  {
    forall i | 0 <= i < |s.queue| ensures Live(s', s'.queue[i]) { assert Live(s, s.queue[i]); }
  }

  lemma ConsumersFrame(s: State, s': State)
    requires ConsumersOk(s) && SameWork(s, s') && s'.consumers == s.consumers && s'.close == s.close
    ensures ConsumersOk(s')
  {
    forall c | 0 <= c < |s.consumers| ensures ConsumerOk(s', s'.consumers[c]) { assert ConsumerOk(s, s.consumers[c]); }
  }

  lemma CallersFrame(s: State, s': State)
    requires CallersOk(s) && s'.callers == s.callers && s'.next == s.next && s'.promises == s.promises
    requires s'.executed == s.executed && s'.answers == s.answers
    ensures CallersOk(s')
  {
    forall t | 0 <= t < |s.callers| ensures CallerOk(s', s'.callers[t]) { assert CallerOk(s, s.callers[t]); }
  }

  lemma TrunkFrame(s: State, s': State)
    requires TrunkOk(s) && s'.trunk == s.trunk && s'.runners == s.runners && s'.called == s.called
    requires s.delivered <= s'.delivered
    requires forall id :: id in s.answers && id in s.delivered ==> id in s'.answers && s'.answers[id] == s.answers[id]
    ensures TrunkOk(s')
  {
    forall i | 0 <= i < |s.trunk| ensures CallbackOk(s', s'.trunk[i]) { assert CallbackOk(s, s.trunk[i]); }
    forall r | 0 <= r < |s.runners| && s.runners[r].Calling? ensures CallbackOk(s', s'.runners[r].cb) {
      assert CallbackOk(s, s.runners[r].cb);
    }
  }

  // A caller that no command names changes, or a new result arrives at one: the others' commands stay live.
  lemma LiveFrame(s: State, s': State, t: nat)
    requires t < |s.callers| && |s'.callers| == |s.callers| && s'.next >= s.next
    requires forall u :: 0 <= u < |s.callers| && u != t ==> s'.callers[u] == s.callers[u]
    ensures forall cmd :: Live(s, cmd) && cmd.id !in s'.promises && !(cmd.sync && cmd.owner == t) ==> Live(s', cmd)
  {
  }

  // ---------- callers ----------

  lemma CallKeepsInv(s: State, a: Action)
    requires Inv(s) && Enabled(s, a) && (a.Call? || a.Wake? || a.Reset? || (a.Enqueue? && (!a.ok)))
    ensures Inv(Apply(s, a))
  {
    var s' := Apply(s, a);
    var t := a.t;
    if s' != s {
      LiveFrame(s, s', t);
      assert CallerOk(s, s.callers[t]);
      assert forall cmd :: Live(s, cmd) && cmd.sync ==> cmd.owner != t;
      assert QueueOk(s');
      assert ConsumersOk(s') by {
        forall c | 0 <= c < |s.consumers| ensures ConsumerOk(s', s'.consumers[c]) { assert ConsumerOk(s, s.consumers[c]); }
      }
      assert CallersOk(s') by {
        forall u | 0 <= u < |s.callers| ensures CallerOk(s', s'.callers[u]) { assert CallerOk(s, s.callers[u]); }
      }
      TrunkFrame(s, s');
    }
  }

  lemma EnqueueKeepsInv(s: State, t: nat)
    requires Inv(s) && Enabled(s, Enqueue(t, true))
    ensures Inv(Apply(s, Enqueue(t, true)))
  {
    var s' := Apply(s, Enqueue(t, true));
    LiveFrame(s, s', t);
    assert forall cmd :: Live(s, cmd) && cmd.sync ==> cmd.owner != t;
    assert s.next !in s.executed && s.next !in s.promises && s.next !in s.delivered;
    assert QueueOk(s');
    assert ConsumersOk(s') by {
      forall c | 0 <= c < |s.consumers| ensures ConsumerOk(s', s'.consumers[c]) { assert ConsumerOk(s, s.consumers[c]); }
      forall c, i | 0 <= c < |s.consumers| && 0 <= i < |s'.queue| ensures !Holds(s'.consumers[c], s'.queue[i].id) {
        assert ConsumerOk(s, s.consumers[c]);
      }
    }
    hide QueueOk, ConsumersOk;
    assert CallersOk(s') by {
      forall u | 0 <= u < |s.callers| ensures CallerOk(s', s'.callers[u]) { assert CallerOk(s, s.callers[u]); }
    }
    hide CallersOk;
    TrunkFrame(s, s');
  }

  // ---------- consumers ----------

  lemma IdleKeepsInv(s: State, a: Action)
    requires Inv(s) && Enabled(s, a) && (a.Test? || a.TimeOut? || a.Leave?)
    ensures Inv(Apply(s, a))
  {
    var s' := Apply(s, a);
    hide TrunkOk, QueueOk, CallersOk;
    QueueFrame(s, s');
    CallersFrame(s, s');
    TrunkFrame(s, s');
    assert ConsumersOk(s') by {
      forall c | 0 <= c < |s.consumers| ensures ConsumerOk(s', s'.consumers[c]) { assert ConsumerOk(s, s.consumers[c]); }
    }
  }

  lemma TakeKeepsInv(s: State, c: nat, i: nat)
    requires Inv(s) && Enabled(s, Take(c, i))
    ensures Inv(Apply(s, Take(c, i)))
  {
    var s' := Apply(s, Take(c, i));
    hide TrunkOk, CallersOk;
    CallersFrame(s, s');
    TrunkFrame(s, s');
    assert forall k :: 0 <= k < |s'.queue| ==> s'.queue[k] == if k < i then s.queue[k] else s.queue[k + 1];
    assert QueueOk(s') by {
      forall k | 0 <= k < |s'.queue| ensures Live(s', s'.queue[k]) {
        assert Live(s, if k < i then s.queue[k] else s.queue[k + 1]);
      }
    }
    assert Live(s, s.queue[i]);
    assert ConsumersOk(s') by {
      forall d | 0 <= d < |s.consumers| ensures ConsumerOk(s', s'.consumers[d]) { assert ConsumerOk(s, s.consumers[d]); }
    }
  }

  lemma ExecuteKeepsInv(s: State, c: nat, answer: int)
    requires Inv(s) && Enabled(s, Execute(c, answer))
    ensures Inv(Apply(s, Execute(c, answer)))
  {
    var s' := Apply(s, Execute(c, answer));
    var cmd := s.consumers[c].cmd;
    assert ConsumerOk(s, s.consumers[c]);
    TrunkFrame(s, s');
    hide TrunkOk;
    assert QueueOk(s') by {
      forall k | 0 <= k < |s'.queue| ensures Live(s', s'.queue[k]) && s'.queue[k].id !in s'.executed {
        assert Live(s, s.queue[k]) && !Holds(s.consumers[c], s.queue[k].id);
      }
    }
    assert ConsumersOk(s') by {
      forall d | 0 <= d < |s.consumers| ensures ConsumerOk(s', s'.consumers[d]) {
        assert ConsumerOk(s, s.consumers[d]);
        assert d != c ==> !Holds(s.consumers[d], cmd.id);
      }
    }
    assert CallersOk(s') by {
      forall u | 0 <= u < |s.callers| ensures CallerOk(s', s'.callers[u]) { assert CallerOk(s, s.callers[u]); }
    }
  }

  lemma HandOverSyncKeepsInv(s: State, c: nat)
    requires Inv(s) && Enabled(s, HandOver(c)) && s.consumers[c].cmd.sync
    ensures Inv(Apply(s, HandOver(c)))
  {
    var s' := Apply(s, HandOver(c));
    var cmd := s.consumers[c].cmd;
    assert ConsumerOk(s, s.consumers[c]);
    LiveSame(s, s', cmd.owner);
    TrunkFrame(s, s');
    hide TrunkOk;
    assert QueueOk(s') by {
      forall k | 0 <= k < |s'.queue| ensures s'.queue[k].id !in s'.delivered { assert !Holds(s.consumers[c], s.queue[k].id); }
    }
    assert ConsumersOk(s') by {
      forall d | 0 <= d < |s.consumers| ensures ConsumerOk(s', s'.consumers[d]) {
        assert ConsumerOk(s, s.consumers[d]);
        assert d != c ==> !Holds(s.consumers[d], cmd.id);
      }
    }
    assert CallersOk(s') by {
      forall u | 0 <= u < |s.callers| ensures CallerOk(s', s'.callers[u]) { assert CallerOk(s, s.callers[u]); }
    }
  }

  // A result stored in a waiting caller leaves every command live.
  lemma LiveSame(s: State, s': State, t: nat)
    requires t < |s.callers| && s.callers[t].Waiting? && s'.next == s.next && s'.promises == s.promises
    requires |s'.callers| == |s.callers| && s'.callers == s.callers[t := s'.callers[t]]
    requires exists answer :: s'.callers[t] == Store(s.callers[t], answer)
    ensures forall cmd :: Live(s, cmd) ==> Live(s', cmd)
  {
  }

  lemma HandOverAsyncKeepsInv(s: State, c: nat)
    requires Inv(s) && Enabled(s, HandOver(c)) && !s.consumers[c].cmd.sync
    ensures Inv(Apply(s, HandOver(c)))
  {
    var s' := Apply(s, HandOver(c));
    assert ConsumerOk(s, s.consumers[c]);
    hide TrunkOk, QueueOk, CallersOk;
    QueueFrame(s, s');
    CallersFrame(s, s');
    TrunkFrame(s, s');
    assert ConsumersOk(s') by {
      forall d | 0 <= d < |s.consumers| ensures ConsumerOk(s', s'.consumers[d]) { assert ConsumerOk(s, s.consumers[d]); }
    }
  }

  lemma AddKeepsInv(s: State, c: nat, ok: bool)
    requires Inv(s) && Enabled(s, Add(c, ok))
    ensures Inv(Apply(s, Add(c, ok)))
  {
    var s' := Apply(s, Add(c, ok));
    var cmd := s.consumers[c].cmd;
    assert ConsumerOk(s, s.consumers[c]);
    assert QueueOk(s') by {
      forall k | 0 <= k < |s'.queue| ensures Live(s', s'.queue[k]) && s'.queue[k].id !in s'.delivered {
        assert Live(s, s.queue[k]) && !Holds(s.consumers[c], s.queue[k].id);
      }
    }
    assert ConsumersOk(s') by {
      forall d | 0 <= d < |s.consumers| ensures ConsumerOk(s', s'.consumers[d]) {
        assert ConsumerOk(s, s.consumers[d]);
        assert d != c ==> !Holds(s.consumers[d], cmd.id);
      }
    }
    hide QueueOk, ConsumersOk, CallersOk;
    CallersFrame(s, s');
    assert TrunkOk(s') by { AddTrunk(s, s', Callback(cmd.id, s.consumers[c].answer), ok); }
  }

  lemma AddTrunk(s: State, s': State, cb: Callback, ok: bool)
    requires TrunkOk(s) && cb.id !in s.delivered && cb.id in s.answers && s.answers[cb.id] == cb.answer
    requires s'.trunk == if ok then s.trunk + [cb] else s.trunk
    requires s'.runners == s.runners && s'.called == s.called && s'.answers == s.answers
    requires s'.delivered == s.delivered + {cb.id}
    ensures TrunkOk(s')
  {
    forall i | 0 <= i < |s'.trunk| ensures CallbackOk(s', s'.trunk[i]) { if i < |s.trunk| { assert CallbackOk(s, s.trunk[i]); } }
    forall r | 0 <= r < |s.runners| && s.runners[r].Calling? ensures CallbackOk(s', s'.runners[r].cb) {
      assert CallbackOk(s, s.runners[r].cb);
    }
  }

  lemma EndKeepsInv(s: State, c: nat)
    requires Inv(s) && Enabled(s, End(c))
    ensures Inv(Apply(s, End(c)))
  {
    var s' := Apply(s, End(c));
    var cmd := s.consumers[c].cmd;
    assert ConsumerOk(s, s.consumers[c]);
    TrunkFrame(s, s');
    hide TrunkOk;
    assert QueueOk(s') by {
      forall k | 0 <= k < |s'.queue| ensures Live(s', s'.queue[k]) {
        assert Live(s, s.queue[k]) && !Holds(s.consumers[c], s.queue[k].id);
      }
    }
    assert ConsumersOk(s') by {
      forall d | 0 <= d < |s.consumers| ensures ConsumerOk(s', s'.consumers[d]) {
        assert ConsumerOk(s, s.consumers[d]);
        assert d != c ==> !Holds(s.consumers[d], cmd.id);
      }
    }
    assert CallersOk(s') by {
      forall u | 0 <= u < |s.callers| ensures CallerOk(s', s'.callers[u]) {
        assert CallerOk(s, s.callers[u]);
        if cmd.sync && HasId(s.callers[u], cmd.id) { assert HasId(s.callers[cmd.owner], cmd.id); }
      }
    }
  }

  // ---------- RunOnce and Shutdown ----------

  lemma TakeKeepsTrunk(s: State, r: nat, i: nat)
    requires TrunkOk(s) && Enabled(s, TakeCallback(r, i))
    ensures TrunkOk(Apply(s, TakeCallback(r, i)))
  {
    var s' := Apply(s, TakeCallback(r, i));
    assert forall k :: 0 <= k < |s'.trunk| ==> s'.trunk[k] == if k < i then s.trunk[k] else s.trunk[k + 1];
    assert CallbackOk(s, s.trunk[i]);
    forall k | 0 <= k < |s'.trunk| ensures CallbackOk(s', s'.trunk[k]) {
      assert CallbackOk(s, if k >= i then s.trunk[k + 1] else s.trunk[k]);
    }
    forall q | 0 <= q < |s'.runners| && s'.runners[q].Calling? ensures CallbackOk(s', s'.runners[q].cb) {
      assert s.runners[q].Calling? ==> CallbackOk(s, s.runners[q].cb);
    }
  }

  lemma RunnerKeepsTrunk(s: State, a: Action)
    requires TrunkOk(s) && Enabled(s, a)
    requires a.RunOnce? || a.TestClose? || a.TakeCallback? || a.RunEmpty? || a.CallIt?
    ensures TrunkOk(Apply(s, a))
  {
    if a.TakeCallback? {
      TakeKeepsTrunk(s, a.r, a.i);
    } else {
      var s' := Apply(s, a);
      forall k | 0 <= k < |s'.trunk| ensures CallbackOk(s', s'.trunk[k]) { assert CallbackOk(s, s.trunk[k]); }
      forall r | 0 <= r < |s'.runners| && s'.runners[r].Calling? ensures CallbackOk(s', s'.runners[r].cb) {
        assert CallbackOk(s, s.runners[r].cb);
      }
      assert a.CallIt? ==> CallbackOk(s, s.runners[a.r].cb);
    }
  }

  lemma RunnerKeepsInv(s: State, a: Action)
    requires Inv(s) && Enabled(s, a)
    requires a.RunOnce? || a.TestClose? || a.TakeCallback? || a.RunEmpty? || a.CallIt?
    ensures Inv(Apply(s, a))
  {
    hide QueueOk, ConsumersOk, CallersOk, TrunkOk;
    var s' := Apply(s, a);
    RunnerKeepsTrunk(s, a);
    QueueFrame(s, s');
    ConsumersFrame(s, s');
    CallersFrame(s, s');
  }

  lemma CloserKeepsInv(s: State, a: Action)
    requires Inv(s) && Enabled(s, a) && (a.Shutdown? || a.Join? || a.Close?)
    ensures Inv(Apply(s, a))
  {
    var s' := Apply(s, a);
    hide QueueOk, CallersOk, TrunkOk;
    QueueFrame(s, s');
    CallersFrame(s, s');
    TrunkFrame(s, s');
    assert ConsumersOk(s') by {
      forall c | 0 <= c < |s.consumers| ensures ConsumerOk(s', s'.consumers[c]) { assert ConsumerOk(s, s.consumers[c]); }
    }
  }

  // ---------- every run ----------

  lemma ActionKeepsInv(s: State, a: Action)
    requires Inv(s) && Enabled(s, a)
    ensures Inv(Apply(s, a))
  {
    hide Inv;
    match a
    case Call(_, _, _) => CallKeepsInv(s, a);
    case Enqueue(t, ok) => if ok { EnqueueKeepsInv(s, t); } else { CallKeepsInv(s, a); }
    case Wake(_) => CallKeepsInv(s, a);
    case Reset(_) => CallKeepsInv(s, a);
    case Test(_) => IdleKeepsInv(s, a);
    case Take(c, i) => TakeKeepsInv(s, c, i);
    case TimeOut(_) => IdleKeepsInv(s, a);
    case Execute(c, answer) => ExecuteKeepsInv(s, c, answer);
    case HandOver(c) => if s.consumers[c].cmd.sync { HandOverSyncKeepsInv(s, c); } else { HandOverAsyncKeepsInv(s, c); }
    case Add(c, ok) => AddKeepsInv(s, c, ok);
    case End(c) => EndKeepsInv(s, c);
    case Leave(_) => IdleKeepsInv(s, a);
    case RunOnce(_) => RunnerKeepsInv(s, a);
    case TestClose(_) => RunnerKeepsInv(s, a);
    case TakeCallback(_, _) => RunnerKeepsInv(s, a);
    case RunEmpty(_) => RunnerKeepsInv(s, a);
    case CallIt(_) => RunnerKeepsInv(s, a);
    case Shutdown => CloserKeepsInv(s, a);
    case Join => CloserKeepsInv(s, a);
    case Close => CloserKeepsInv(s, a);
  }

  lemma {:induction false} RunInv(run: seq<State>, acts: seq<Action>, i: nat)
    requires IsRun(run, acts) && i < |run|
    ensures Inv(run[i])
  {
    if i > 0 {
      RunInv(run, acts, i - 1);
      ActionKeepsInv(run[i - 1], acts[i - 1]);
    }
  }

  // ---------- what the service guarantees ----------

  /** A command accepted is executed at most once: whenever one is executed, it has not been before. */
  lemma ExecutedOnce(run: seq<State>, acts: seq<Action>, i: nat)
    requires IsRun(run, acts) && i < |acts| && acts[i].Execute?
    ensures run[i].consumers[acts[i].c].cmd.id !in run[i].executed
  {
    RunInv(run, acts, i);
    assert ConsumerOk(run[i], run[i].consumers[acts[i].c]);
  }

  /** A synchronous call returns true only after its command was executed, and a load only with the answer
      of that command in its result vector. */
  lemma SynchronizedResult(run: seq<State>, acts: seq<Action>, i: nat, t: nat)
    requires IsRun(run, acts) && i < |run| && t < |run[i].callers| && run[i].callers[t].Returned?
    ensures var p := run[i].callers[t];
            p.id in run[i].executed
            && (p.load ==> p.id in run[i].answers && p.result == Some(run[i].answers[p.id]))
  {
    RunInv(run, acts, i);
    assert CallerOk(run[i], run[i].callers[t]);
  }

  /** The callbacks of a synchronous command refer to locals of its caller.  Until set_value lets it go, that
      caller is still waiting for that very command. */
  lemma CallerStillThere(run: seq<State>, acts: seq<Action>, i: nat, c: nat)
    requires IsRun(run, acts) && i < |run| && c < |run[i].consumers|
    requires (run[i].consumers[c].Deliver? || run[i].consumers[c].Dispose?) && run[i].consumers[c].cmd.sync
    ensures var cmd := run[i].consumers[c].cmd;
            cmd.owner < |run[i].callers| && run[i].callers[cmd.owner].Waiting? && run[i].callers[cmd.owner].id == cmd.id
  {
    RunInv(run, acts, i);
    assert ConsumerOk(run[i], run[i].consumers[c]);
  }

  // One caller and one consumer, with a command that returns no result.
  function Two(queue: seq<Cmd>, caller: Caller, consumer: Consumer, next: nat, fulfilled: bool, executed: bool): State {
    State(false, false, queue, [], [caller], [consumer], [], Open, next, if fulfilled then {0} else {},
          if executed then {0} else {}, if executed then map[0 := 7] else map[], {}, {})
  }

  lemma TwoStart()
    ensures var cmd, s := Cmd(0, true, false, 0), Two([], Idle, Top, 0, false, false);
            && Initial(s) && Enabled(s, Call(0, true, false))
            && var s1 := Two([], Passed(true, false), Top, 0, false, false);
            && Apply(s, Call(0, true, false)) == s1 && Enabled(s1, Enqueue(0, true))
            && var s2 := Two([cmd], Waiting(0, false, None), Top, 1, false, false);
            && Apply(s1, Enqueue(0, true)) == s2 && Enabled(s2, Test(0))
            && Apply(s2, Test(0)) == Two([cmd], Waiting(0, false, None), Dequeue, 1, false, false)
  {
  }

  lemma TwoMiddle()
    ensures var cmd, p := Cmd(0, true, false, 0), Waiting(0, false, None);
            var s3, s4 := Two([cmd], p, Dequeue, 1, false, false), Two([], p, Exec(cmd), 1, false, false);
            && Enabled(s3, Take(0, 0)) && Apply(s3, Take(0, 0)) == s4 && Enabled(s4, Execute(0, 7))
            && Apply(s4, Execute(0, 7)) == Two([], p, Dispose(cmd), 1, false, true)
  {
  }

  lemma TwoEnd()
    ensures var cmd, p := Cmd(0, true, false, 0), Waiting(0, false, None);
            var s5, s6 := Two([], p, Dispose(cmd), 1, false, true), Two([], p, Leaving(cmd), 1, true, true);
            var s7 := Two([], Returned(0, false, None), Leaving(cmd), 1, true, true);
            && Enabled(s5, End(0)) && Apply(s5, End(0)) == s6 && Enabled(s6, Wake(0)) && Apply(s6, Wake(0)) == s7
            && Enabled(s7, Reset(0)) && Apply(s7, Reset(0)) == Two([], Idle, Leaving(cmd), 1, true, true)
  {
  }

  /** In the rest of set_value it may not be: the promise is captured by a reference to the caller's pointer, and
      here the caller has returned and gone on while the consumer has not. */
  lemma CallerCanBeGone() returns (run: seq<State>, acts: seq<Action>)
    ensures IsRun(run, acts) && |run| == 9 && |run[8].consumers| == |run[8].callers| == 1
    ensures run[8].consumers[0].Leaving? && run[8].consumers[0].cmd.owner == 0 && run[8].callers[0] == Idle
  {
    TwoStart();
    TwoMiddle();
    TwoEnd();
    var cmd, p := Cmd(0, true, false, 0), Waiting(0, false, None);
    acts := [Call(0, true, false), Enqueue(0, true), Test(0), Take(0, 0), Execute(0, 7), End(0), Wake(0), Reset(0)];
    run := [Two([], Idle, Top, 0, false, false), Two([], Passed(true, false), Top, 0, false, false),
            Two([cmd], p, Top, 1, false, false), Two([cmd], p, Dequeue, 1, false, false),
            Two([], p, Exec(cmd), 1, false, false), Two([], p, Dispose(cmd), 1, false, true),
            Two([], p, Leaving(cmd), 1, true, true), Two([], Returned(0, false, None), Leaving(cmd), 1, true, true),
            Two([], Idle, Leaving(cmd), 1, true, true)];
    assert run[8] == Two([], Idle, Leaving(cmd), 1, true, true);
    hide Apply, Enabled, Initial;
  }

  /** Whenever the callback of an asynchronous load is called, it has not been before, and it is called with the
      answer of its command. */
  lemma CalledOnce(run: seq<State>, acts: seq<Action>, i: nat)
    requires IsRun(run, acts) && i < |acts| && acts[i].CallIt?
    ensures var cb := run[i].runners[acts[i].r].cb;
            && cb.id !in run[i].called && run[i + 1].called == run[i].called + {cb.id}
            && cb.id in run[i].executed && cb.id in run[i].answers && run[i].answers[cb.id] == cb.answer
  {
    RunInv(run, acts, i);
    assert CallbackOk(run[i], run[i].runners[acts[i].r].cb);
  }

  // What has been executed or called stays so.
  lemma {:induction false} HistoryGrows(run: seq<State>, acts: seq<Action>, i: nat, j: nat)
    requires IsRun(run, acts) && i <= j < |run|
    ensures run[i].executed <= run[j].executed && run[i].called <= run[j].called
    decreases j
  {
    hide Enabled, Apply, Initial;
    if i < j {
      HistoryGrows(run, acts, i, j - 1);
      HistoryStep(run[j - 1], acts[j - 1]);
    }
  }

  lemma HistoryStep(s: State, a: Action)
    requires Enabled(s, a)
    ensures s.executed <= Apply(s, a).executed && s.called <= Apply(s, a).called
    ensures s.close ==> Apply(s, a).close
  {
  }

  /** Two executions in a run are of different commands, and two calls in RunOnce of different callbacks. */
  lemma NeverTwice(run: seq<State>, acts: seq<Action>, i: nat, j: nat)
    requires IsRun(run, acts) && i < j < |acts|
    ensures acts[i].Execute? && acts[j].Execute? ==>
              run[i].consumers[acts[i].c].cmd.id != run[j].consumers[acts[j].c].cmd.id
    ensures acts[i].CallIt? && acts[j].CallIt? ==> run[i].runners[acts[i].r].cb.id != run[j].runners[acts[j].r].cb.id
  {
    HistoryGrows(run, acts, i + 1, j);
    if acts[i].Execute? && acts[j].Execute? { ExecutedOnce(run, acts, j); }
    if acts[i].CallIt? && acts[j].CallIt? {
      CalledOnce(run, acts, i);
      CalledOnce(run, acts, j);
    }
  }

  /** Nothing but RunOnce calls an asynchronous callback, and nothing but a consumer executes a command. */
  lemma OnlyThere(s: State, a: Action)
    requires Enabled(s, a)
    ensures Apply(s, a).called != s.called ==> a.CallIt?
    ensures Apply(s, a).executed != s.executed ==> a.Execute?
  {
  }

  /** Once closed the trunk queue stays closed, and so no iteration of RunOnce passes its test again. */
  lemma {:induction false} StaysClosed(run: seq<State>, acts: seq<Action>, i: nat, j: nat)
    requires IsRun(run, acts) && i <= j < |run| && run[i].close
    ensures run[j].close
    ensures j < |acts| && acts[j].TestClose? ==> run[j + 1].runners[acts[j].r] == Away
  {
    hide Initial, Apply, Enabled;
    if i < j {
      StaysClosed(run, acts, i, j - 1);
      HistoryStep(run[j - 1], acts[j - 1]);
    }
    if j < |acts| && acts[j].TestClose? { ClosedTest(run[j], acts[j].r); }
  }

  lemma ClosedTest(s: State, r: nat)
    requires Enabled(s, TestClose(r)) && s.close
    ensures Apply(s, TestClose(r)).runners[r] == Away
  {
  }

  /** Shutdown closes the trunk queue only when every consumer is gone: no result is on its way to it, and no
      callback is dropped because Add finds it closed. */
  lemma ClosedMeansQuiet(run: seq<State>, acts: seq<Action>, i: nat)
    requires IsRun(run, acts) && i < |run|
    ensures run[i].close ==> forall c :: 0 <= c < |run[i].consumers| ==> run[i].consumers[c] == Gone
    ensures i < |acts| && acts[i].HandOver? ==> !run[i].close
  {
    RunInv(run, acts, i);
  }
}
