/**
 The accounting of the dbug profile analyzer, on values: closing stack entries attributes time to
 functions, and no time or call is lost or counted twice.

 Times are unbounded integers here; Timely bounds every one of them by the last stamp when stamps do not
 decrease, so that then no unsigned arithmetic wraps.
 */
module ProfileBooks {

  // The bottom entry of the stack is a dummy for what runs outside every known function.
  datatype Frame = Frame(pos: nat, time: int, children: int)
  datatype Module = Module(name: string, time: int, calls: nat, stkuse: nat)

  datatype Books = Books(stack: seq<Frame>, modules: seq<Module>, totTime: int, totCalls: nat)

  predicate StackOk(b: Books) {
    b.stack != [] && forall j :: 1 <= j < |b.stack| ==> b.stack[j].pos < |b.modules|
  }

  // ---------- the steps ----------

  function Charge(ms: seq<Module>, pos: nat, local: int): seq<Module>
    requires pos < |ms|
  {
    ms[pos := ms[pos].(time := ms[pos].time + local, calls := ms[pos].calls + 1)]
  }

  // Pop one entry: its whole time counts as the time of a child below, its own time is the rest.
  function Close(b: Books, now: int): Books
    requires StackOk(b) && |b.stack| > 1
  {
    var n := |b.stack|;
    var f, below := b.stack[n - 1], b.stack[n - 2];
    var local := now - f.time - f.children;
    Books(b.stack[..n - 1][n - 2 := below.(children := below.children + (now - f.time))],
          Charge(b.modules, f.pos, local), b.totTime + local, b.totCalls + 1)
  }

  // With only the dummy left, the function exited is taken to have run since the dummy's time.
  function CloseDummy(b: Books, pos: nat, now: int): Books
    requires |b.stack| == 1 && pos < |b.modules|
  {
    var f := b.stack[0];
    var local := now - f.time - f.children;
    Books([f.(time := now, children := 0)], Charge(b.modules, pos, local), b.totTime + local, b.totCalls + 1)
  }

  // The exit of a function closes every entry down to its own.
  function ExitTo(b: Books, pos: nat, now: int): (r: Books)
    requires StackOk(b) && pos < |b.modules|
    ensures StackOk(r) && |r.modules| == |b.modules|
    decreases |b.stack|
  {
    if |b.stack| == 1 then CloseDummy(b, pos, now)
    else if b.stack[|b.stack| - 1].pos == pos then Close(b, now)
    else ExitTo(Close(b, now), pos, now)
  }

  function CloseAll(b: Books, now: int): (r: Books)
    requires StackOk(b)
    ensures StackOk(r)
    decreases |b.stack|
  {
    if |b.stack| == 1 then b else CloseAll(Close(b, now), now)
  }

  // ---------- conservation ----------

  function Children(s: seq<Frame>): int { if s == [] then 0 else Children(s[..|s| - 1]) + s[|s| - 1].children }
  function Times(ms: seq<Module>): int { if ms == [] then 0 else Times(ms[..|ms| - 1]) + ms[|ms| - 1].time }
  function Calls(ms: seq<Module>): int { if ms == [] then 0 else Calls(ms[..|ms| - 1]) + ms[|ms| - 1].calls }

  predicate Balanced(b: Books) {
    && StackOk(b)
    && b.totTime == b.stack[0].time + Children(b.stack)
    && Times(b.modules) == b.totTime
    && Calls(b.modules) == b.totCalls
  }

  lemma {:induction false} ChargeSums(ms: seq<Module>, pos: nat, local: int)
    requires pos < |ms|
    ensures Times(Charge(ms, pos, local)) == Times(ms) + local
    ensures Calls(Charge(ms, pos, local)) == Calls(ms) + 1
  {
    var ms', n := Charge(ms, pos, local), |ms| - 1;
    if pos < n {
      assert ms'[..n] == Charge(ms[..n], pos, local);
      ChargeSums(ms[..n], pos, local);
    } else {
      assert ms'[..n] == ms[..n];
    }
  }

  // One more function that has not run yet, or a note of its stack use, changes no sum.
  lemma {:induction false} SameSums(ms: seq<Module>, ms': seq<Module>)
    requires |ms| <= |ms'| && forall k :: 0 <= k < |ms| ==> ms'[k].time == ms[k].time && ms'[k].calls == ms[k].calls
    requires forall k :: |ms| <= k < |ms'| ==> ms'[k].time == 0 && ms'[k].calls == 0
    ensures Times(ms') == Times(ms) && Calls(ms') == Calls(ms)
  {
    if |ms'| > |ms| {
      SameSums(ms, ms'[..|ms'| - 1]);
    } else if ms != [] {
      SameSums(ms[..|ms| - 1], ms'[..|ms'| - 1]);
    }
  }

  lemma CloseBalanced(b: Books, now: int)
    requires Balanced(b) && |b.stack| > 1
    ensures Balanced(Close(b, now))
  {
    var n := |b.stack|;
    var b' := Close(b, now);
    ChargeSums(b.modules, b.stack[n - 1].pos, now - b.stack[n - 1].time - b.stack[n - 1].children);
    var init := b.stack[..n - 1];
    assert init[..n - 2] == b'.stack[..n - 2];
    assert Children(b.stack) == Children(init[..n - 2]) + b.stack[n - 2].children + b.stack[n - 1].children;
  }

  lemma CloseDummyBalanced(b: Books, pos: nat, now: int)
    requires Balanced(b) && |b.stack| == 1 && pos < |b.modules|
    ensures Balanced(CloseDummy(b, pos, now))
  {
    ChargeSums(b.modules, pos, now - b.stack[0].time - b.stack[0].children);
    assert b.stack[..0] == [];
    assert CloseDummy(b, pos, now).stack[..0] == [];
  }

  /** An exit keeps the books balanced: tot_time is the dummy's time plus the children times on the stack,
      and the totals are the sums over the functions. */
  lemma {:induction false} ExitBalanced(b: Books, pos: nat, now: int)
    requires Balanced(b) && pos < |b.modules|
    ensures Balanced(ExitTo(b, pos, now))
    decreases |b.stack|
  {
    if |b.stack| == 1 {
      CloseDummyBalanced(b, pos, now);
    } else {
      CloseBalanced(b, now);
      if b.stack[|b.stack| - 1].pos != pos { ExitBalanced(Close(b, now), pos, now); }
    }
  }

  lemma {:induction false} CloseAllBalanced(b: Books, now: int)
    requires Balanced(b)
    ensures Balanced(CloseAll(b, now)) && |CloseAll(b, now).stack| == 1
    decreases |b.stack|
  {
    if |b.stack| > 1 {
      CloseBalanced(b, now);
      CloseAllBalanced(Close(b, now), now);
    }
  }

  lemma PushBalanced(b: Books, f: Frame)
    requires Balanced(b) && f.children == 0 && f.pos < |b.modules|
    ensures Balanced(b.(stack := b.stack + [f]))
  {
    assert (b.stack + [f])[..|b.stack|] == b.stack;
  }

  // ---------- stamps that do not decrease ----------

  // The children of an entry have run between its entry and the next one's.
  predicate Nested(b: Books, now: int) {
    && b.stack != [] && 0 <= b.stack[0].time
    && (forall j :: 0 <= j < |b.stack| ==> b.stack[j].children >= 0)
    && (forall j :: 0 <= j < |b.stack| - 1 ==> b.stack[j].time + b.stack[j].children <= b.stack[j + 1].time)
    && b.stack[|b.stack| - 1].time + b.stack[|b.stack| - 1].children <= now
  }

  predicate Timely(b: Books, now: int) {
    Nested(b, now) && forall k :: 0 <= k < |b.modules| ==> b.modules[k].time >= 0
  }

  lemma CloseTimely(b: Books, last: int, now: int)
    requires StackOk(b) && Timely(b, last) && last <= now && |b.stack| > 1
    ensures Timely(Close(b, now), now)
    ensures b.totTime <= Close(b, now).totTime
  {
  }

  /** With stamps that do not decrease every self-time attributed is non-negative: no function's time and not
      the total ever goes down. */
  lemma {:induction false} ExitTimely(b: Books, pos: nat, last: int, now: int)
    requires StackOk(b) && pos < |b.modules| && Timely(b, last) && last <= now
    ensures Timely(ExitTo(b, pos, now), now) && b.totTime <= ExitTo(b, pos, now).totTime
    ensures forall k :: 0 <= k < |b.modules| ==> b.modules[k].time <= ExitTo(b, pos, now).modules[k].time
    decreases |b.stack|
  {
    if |b.stack| > 1 {
      CloseTimely(b, last, now);
      if b.stack[|b.stack| - 1].pos != pos { ExitTimely(Close(b, now), pos, now, now); }
    }
  }

  lemma {:induction false} CloseAllTimely(b: Books, last: int, now: int)
    requires StackOk(b) && Timely(b, last) && last <= now
    ensures Timely(CloseAll(b, now), now) && b.totTime <= CloseAll(b, now).totTime
    decreases |b.stack|
  {
    if |b.stack| > 1 {
      CloseTimely(b, last, now);
      CloseAllTimely(Close(b, now), now, now);
    }
  }

  lemma {:induction false} ChildrenFit(s: seq<Frame>, now: int)
    requires s != [] && (forall j :: 0 <= j < |s| - 1 ==> s[j].time + s[j].children <= s[j + 1].time)
    requires s[|s| - 1].time + s[|s| - 1].children <= now
    ensures s[0].time + Children(s) <= now
  {
    if |s| > 1 {
      var init := s[..|s| - 1];
      ChildrenFit(init, s[|s| - 1].time);
    } else {
      assert s[..0] == [];
    }
  }

  /** And then no total and no function's time exceeds the last stamp: nothing wraps. */
  lemma TotalsFit(b: Books, now: int)
    requires Balanced(b) && Timely(b, now)
    ensures b.totTime <= now && forall k :: 0 <= k < |b.modules| ==> 0 <= b.modules[k].time <= b.totTime
  {
    ChildrenFit(b.stack, now);
    forall k | 0 <= k < |b.modules| ensures b.modules[k].time <= b.totTime { OneOfMany(b.modules, k); }
  }

  lemma {:induction false} OneOfMany(ms: seq<Module>, k: nat)
    requires k < |ms| && forall j :: 0 <= j < |ms| ==> ms[j].time >= 0
    ensures ms[k].time <= Times(ms)
  {
    if k == |ms| - 1 { SumNonNegative(ms[..k]); } else { OneOfMany(ms[..|ms| - 1], k); }
  }

  lemma {:induction false} SumNonNegative(ms: seq<Module>)
    requires forall j :: 0 <= j < |ms| ==> ms[j].time >= 0
    ensures Times(ms) >= 0
  {
    if ms != [] { SumNonNegative(ms[..|ms| - 1]); }
  }
}
