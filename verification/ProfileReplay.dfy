/**
 What a trace means to the dbug profile analyzer: the books after replaying its records one by one, and, from
 the names alone, which functions have been seen, which are open, and how often each has run.

 A replay fails where the analyzer exits: on the entry that would be the 101st on the stack, or on the
 10001st name.
 */
module ProfileReplay {
  import opened ProfileBooks
  import ProfileTree

  const STACKSIZ: nat := 100

  datatype Record =
    | Entry(time: int, name: string)
    | Exit(time: int, name: string)
    | Stack(sbot: nat, ssz: nat, name: string)
    | Unknown

  datatype Option<+T> = None | Some(value: T)

  const EMPTY := Books([Frame(0, 0, 0)], [], 0, 0)

  function NamesOf(ms: seq<Module>): (r: seq<string>)
    ensures |r| == |ms| && forall k :: 0 <= k < |ms| ==> r[k] == ms[k].name
  {
    seq(|ms|, k requires 0 <= k < |ms| => ms[k].name)
  }

  function Init(records: seq<Record>): seq<Record>
    requires records != []
  {
    records[..|records| - 1]
  }

  function Last(records: seq<Record>): Record
    requires records != []
  {
    records[|records| - 1]
  }

  predicate Distinct(names: seq<string>) { forall j, k :: 0 <= j < k < |names| ==> names[j] != names[k] }

  // ---------- replaying ----------

  function IndexOf(names: seq<string>, name: string): (i: nat)
    requires name in names
    ensures i < |names| && names[i] == name
  {
    if names[0] == name then 0 else 1 + IndexOf(names[1..], name)
  }

  // The books with a name entered, if it is not there.
  function Added(b: Books, name: string): Option<Books> {
    if name in NamesOf(b.modules) then Some(b)
    else if |b.modules| == ProfileTree.MAXPROCS then None
    else Some(b.(modules := b.modules + [Module(name, 0, 0, 0)]))
  }

  lemma AddedHas(b: Books, name: string)
    requires Added(b, name).Some?
    ensures name in NamesOf(Added(b, name).value.modules)
  {
    var ms := Added(b, name).value.modules;
    if name !in NamesOf(b.modules) { assert NamesOf(ms)[|b.modules|] == name; }
  }

  // What a search for the name and its entry leave is what Added says.
  lemma AddedIs(b: Books, c: Books, name: string, ind: nat)
    requires c == b || c == b.(modules := b.modules + [Module(name, 0, 0, 0)])
    requires name in NamesOf(b.modules) ==> c == b
    requires |c.modules| <= ProfileTree.MAXPROCS && Distinct(NamesOf(c.modules)) && ind < |c.modules| && c.modules[ind].name == name
    ensures Added(b, name) == Some(c) && name in NamesOf(c.modules) && ind == IndexOf(NamesOf(c.modules), name)
  {
    assert NamesOf(c.modules)[ind] == name;
    IndexIs(NamesOf(c.modules), ind);
  }

  function After(b: Books, r: Record): Option<Books>
    requires StackOk(b)
  {
    if r.Unknown? then Some(b)
    else
      match Added(b, r.name)
      case None => None
      case Some(c) =>
        AddedHas(b, r.name);
        var pos := IndexOf(NamesOf(c.modules), r.name);
        match r
        case Entry(time, _) =>
          if |c.stack| > STACKSIZ then None else Some(c.(stack := c.stack + [Frame(pos, time, 0)]))
        case Exit(time, _) => Some(ExitTo(c, pos, time))
        case Stack(_, ssz, _) => Some(Noted(c, pos, ssz))
  }

  function Noted(b: Books, pos: nat, ssz: nat): Books
    requires pos < |b.modules|
  {
    var m := b.modules[pos];
    b.(modules := b.modules[pos := m.(stkuse := if ssz > m.stkuse then ssz else m.stkuse)])
  }

  function Replay(records: seq<Record>): (r: Option<Books>)
    ensures r.Some? ==> StackOk(r.value)
  {
    if records == [] then Some(EMPTY)
    else
      match Replay(Init(records))
      case None => None
      case Some(b) => After(b, Last(records))
  }

  // A replay that has failed stays failed.
  lemma {:induction false} ReplayFailed(records: seq<Record>, k: nat)
    requires k <= |records| && Replay(records[..k]).None?
    ensures Replay(records).None?
  {
    if k < |records| {
      assert Init(records)[..k] == records[..k];
      ReplayFailed(Init(records), k);
    } else {
      assert records[..k] == records;
    }
  }

  // One record more.
  lemma ReplayNext(records: seq<Record>, i: nat, b: Books)
    requires i < |records| && Replay(records[..i]) == Some(b)
    ensures StackOk(b) && Replay(records[..i + 1]) == After(b, records[i])
    ensures records[i].Unknown? ==> Replay(records[..i + 1]) == Some(b)
    ensures Extents(records[..i + 1]) == Extended(Extents(records[..i]), records[i])
  {
    assert Init(records[..i + 1]) == records[..i] && Last(records[..i + 1]) == records[i];
  }

  // The largest and the smallest stack bottom noted.
  function Extents(records: seq<Record>): (nat, nat) {
    if records == [] then (0, 0xFFFF_FFFF_FFFF_FFFF)
    else Extended(Extents(Init(records)), Last(records))
  }

  function Extended(e: (nat, nat), r: Record): (nat, nat) {
    match r
    case Stack(sbot, _, _) => if sbot > e.0 then (sbot, e.1) else if sbot < e.1 then (e.0, sbot) else e
    case _ => e
  }

  // ---------- the names alone ----------

  // The functions named so far, in order of appearance.
  function Seen(records: seq<Record>): (names: seq<string>)
    ensures Distinct(names)
  {
    if records == [] then []
    else
      var names := Seen(Init(records));
      if Last(records).Unknown? || Last(records).name in names then names else names + [Last(records).name]
  }

  // The innermost entry of a name and everything inside it is gone, or everything when there is none.
  function CutTo(open: seq<string>, name: string): seq<string> {
    if open == [] then []
    else
      var rest := open[..|open| - 1];
      if open[|open| - 1] == name then rest else CutTo(rest, name)
  }

  // The functions entered and not exited yet, innermost last.
  function Open(records: seq<Record>): seq<string> {
    if records == [] then []
    else
      var open := Open(Init(records));
      match Last(records)
      case Entry(_, name) => open + [name]
      case Exit(_, name) => CutTo(open, name)
      case _ => open
  }

  // How often a function has been entered, or exited without having been entered.
  function Runs(records: seq<Record>, name: string): nat {
    if records == [] then 0
    else
      Runs(Init(records), name) +
      match Last(records)
      case Entry(_, n) => if n == name then 1 else 0
      case Exit(_, n) => if n == name && n !in Open(Init(records)) then 1 else 0
      case _ => 0
  }

  function AllRuns(records: seq<Record>): nat {
    if records == [] then 0
    else
      AllRuns(Init(records)) +
      match Last(records)
      case Entry(_, _) => 1
      case Exit(_, n) => if n !in Open(Init(records)) then 1 else 0
      case _ => 0
  }

  // The analyzer's limits: never more than 100 functions open, nor 10000 seen.
  predicate Fits(records: seq<Record>) {
    forall k :: 0 <= k <= |records| ==> |Open(records[..k])| <= STACKSIZ && |Seen(records[..k])| <= ProfileTree.MAXPROCS
  }

  // ---------- the two agree ----------

  // The names of the open entries.
  function StackNames(b: Books): (r: seq<string>)
    requires StackOk(b)
    ensures |r| == |b.stack| - 1
  {
    seq(|b.stack| - 1, j requires 0 <= j < |b.stack| - 1 => b.modules[b.stack[j + 1].pos].name)
  }

  // The calls of a function, and the entries of it that are still open.
  function Tally(b: Books, name: string): nat
    requires StackOk(b)
  {
    (if name in NamesOf(b.modules) then b.modules[IndexOf(NamesOf(b.modules), name)].calls else 0)
    + multiset(StackNames(b))[name]
  }

  function TallyAll(b: Books): nat
    requires StackOk(b)
  {
    b.totCalls + |b.stack| - 1
  }

  lemma {:induction false} IndexIs(names: seq<string>, i: nat)
    requires Distinct(names) && i < |names|
    ensures IndexOf(names, names[i]) == i
  {
    if i > 0 {
      assert names[0] != names[i];
      IndexIs(names[1..], i - 1);
    }
  }

  lemma CloseNames(b: Books, now: int)
    requires StackOk(b) && |b.stack| > 1
    ensures var r, open := Close(b, now), StackNames(b);
            && StackOk(r) && NamesOf(r.modules) == NamesOf(b.modules) && StackNames(r) == open[..|open| - 1]
            && b.modules[b.stack[|b.stack| - 1].pos].name == open[|open| - 1]
  {
    var r, open := Close(b, now), StackNames(b);
    assert NamesOf(r.modules) == NamesOf(b.modules);
    forall j | 0 <= j < |open| - 1 ensures StackNames(r)[j] == open[j] {
      assert r.stack[j + 1].pos == b.stack[j + 1].pos;
    }
  }

  // The call charged is the entry that is closed.
  lemma CloseTally(b: Books, now: int, n: string)
    requires StackOk(b) && |b.stack| > 1 && Distinct(NamesOf(b.modules))
    ensures StackOk(Close(b, now)) && Tally(Close(b, now), n) == Tally(b, n) && TallyAll(Close(b, now)) == TallyAll(b)
  {
    var open, names, top := StackNames(b), NamesOf(b.modules), b.stack[|b.stack| - 1].pos;
    CloseNames(b, now);
    assert open == open[..|open| - 1] + [open[|open| - 1]];
    assert names[top] == open[|open| - 1];
    IndexIs(names, top);
    if n in names && IndexOf(names, n) == top { assert names[IndexOf(names, n)] == n; }
  }

  lemma DummyTally(b: Books, pos: nat, now: int, n: string)
    requires StackOk(b) && |b.stack| == 1 && pos < |b.modules| && Distinct(NamesOf(b.modules))
    ensures var r := CloseDummy(b, pos, now);
            && StackOk(r) && NamesOf(r.modules) == NamesOf(b.modules) && StackNames(r) == StackNames(b) == []
            && Tally(r, n) == Tally(b, n) + (if n == NamesOf(b.modules)[pos] then 1 else 0)
            && TallyAll(r) == TallyAll(b) + 1
  {
    var r, names := CloseDummy(b, pos, now), NamesOf(b.modules);
    assert NamesOf(r.modules) == names;
    IndexIs(names, pos);
    if n in names && IndexOf(names, n) == pos { assert names[IndexOf(names, n)] == n; }
  }

  /** An exit cuts the open functions down to the one inside which its function was entered, and counts one more
      run when the function was not open. */
  lemma {:induction false} ExitTally(b: Books, pos: nat, now: int, n: string)
    requires StackOk(b) && pos < |b.modules| && Distinct(NamesOf(b.modules))
    ensures var r, name, open := ExitTo(b, pos, now), NamesOf(b.modules)[pos], StackNames(b);
            && NamesOf(r.modules) == NamesOf(b.modules) && StackNames(r) == CutTo(open, name)
            && Tally(r, n) == Tally(b, n) + (if n == name && name !in open then 1 else 0)
            && TallyAll(r) == TallyAll(b) + (if name !in open then 1 else 0)
    decreases |b.stack|
  {
    var open, names := StackNames(b), NamesOf(b.modules);
    if |b.stack| == 1 {
      DummyTally(b, pos, now, n);
    } else {
      var top := b.stack[|b.stack| - 1].pos;
      CloseNames(b, now);
      CloseTally(b, now, n);
      assert open == open[..|open| - 1] + [open[|open| - 1]];
      assert names[top] == open[|open| - 1];
      hide Close, Tally, TallyAll, NamesOf, StackNames;
      if top != pos {
        assert names[top] != names[pos];
        ExitTally(Close(b, now), pos, now, n);
      }
    }
  }

  lemma {:induction false} CloseAllTally(b: Books, now: int, n: string)
    requires StackOk(b) && Distinct(NamesOf(b.modules))
    ensures var r := CloseAll(b, now);
            && NamesOf(r.modules) == NamesOf(b.modules) && |r.stack| == 1
            && Tally(r, n) == Tally(b, n) && TallyAll(r) == TallyAll(b)
    decreases |b.stack|
  {
    if |b.stack| > 1 {
      CloseNames(b, now);
      CloseTally(b, now, n);
      hide Close, Tally, TallyAll;
      CloseAllTally(Close(b, now), now, n);
    }
  }

  // Entering a name changes nobody's tally.
  lemma AddedTally(b: Books, name: string, n: string)
    requires StackOk(b) && Distinct(NamesOf(b.modules)) && Added(b, name).Some?
    ensures var c, names := Added(b, name).value, NamesOf(b.modules);
            && StackOk(c) && StackNames(c) == StackNames(b) && Tally(c, n) == Tally(b, n) && TallyAll(c) == TallyAll(b)
            && NamesOf(c.modules) == (if name in names then names else names + [name]) && Distinct(NamesOf(c.modules))
            && name in NamesOf(c.modules)
  {
    var c, names := Added(b, name).value, NamesOf(b.modules);
    if name !in names {
      assert NamesOf(c.modules) == names + [name];
      assert StackNames(c) == StackNames(b);
      IndexIs(names + [name], |names|);
      if n in names {
        IndexIs(names + [name], IndexOf(names, n));
      }
    }
  }

  lemma AfterAgrees(b: Books, r: Record, n: string)
    requires StackOk(b) && Distinct(NamesOf(b.modules)) && After(b, r).Some?
    ensures var c, open, names := After(b, r).value, StackNames(b), NamesOf(b.modules);
            && StackOk(c)
            && NamesOf(c.modules) == (if r.Unknown? || r.name in names then names else names + [r.name])
            && StackNames(c) == (match r case Entry(_, name) => open + [name] case Exit(_, name) => CutTo(open, name) case _ => open)
            && Tally(c, n) == Tally(b, n) + (match r
                                             case Entry(_, name) => if name == n then 1 else 0
                                             case Exit(_, name) => if name == n && name !in open then 1 else 0
                                             case _ => 0)
            && TallyAll(c) == TallyAll(b) + (match r
                                             case Entry(_, name) => 1
                                             case Exit(_, name) => if name !in open then 1 else 0
                                             case _ => 0)
  {
    if !r.Unknown? {
      AddedTally(b, r.name, n);
      var c := Added(b, r.name).value;
      var pos := IndexOf(NamesOf(c.modules), r.name);
      match r {
        case Entry(time, name) => PushTally(c, pos, time, n);
        case Exit(time, name) => ExitTally(c, pos, time, n);
        case Stack(_, ssz, _) => NotedTally(c, pos, ssz, n);
      }
    }
  }

  lemma PushTally(b: Books, pos: nat, time: int, n: string)
    requires StackOk(b) && pos < |b.modules|
    ensures var c, name := b.(stack := b.stack + [Frame(pos, time, 0)]), NamesOf(b.modules)[pos];
            && StackOk(c) && StackNames(c) == StackNames(b) + [name] && TallyAll(c) == TallyAll(b) + 1
            && Tally(c, n) == Tally(b, n) + if n == name then 1 else 0
  {
    var c, name := b.(stack := b.stack + [Frame(pos, time, 0)]), NamesOf(b.modules)[pos];
    assert StackNames(c) == StackNames(b) + [name];
  }

  lemma NotedTally(b: Books, pos: nat, ssz: nat, n: string)
    requires StackOk(b) && pos < |b.modules|
    ensures var c := Noted(b, pos, ssz);
            && StackOk(c) && StackNames(c) == StackNames(b) && NamesOf(c.modules) == NamesOf(b.modules)
            && Tally(c, n) == Tally(b, n) && TallyAll(c) == TallyAll(b)
  {
    var c := Noted(b, pos, ssz);
    assert NamesOf(c.modules) == NamesOf(b.modules) && StackNames(c) == StackNames(b);
  }

  /** A replay knows the functions seen, in order of appearance, and those open; every function's calls, with
      its open entries, are the times it was entered or exited without having been. */
  lemma {:induction false} ReplayAgrees(records: seq<Record>, n: string)
    requires Replay(records).Some?
    ensures var b := Replay(records).value;
            && NamesOf(b.modules) == Seen(records) && StackNames(b) == Open(records)
            && Tally(b, n) == Runs(records, n) && TallyAll(b) == AllRuns(records)
  {
    if records == [] {
      assert NamesOf(EMPTY.modules) == [] && StackNames(EMPTY) == [];
    } else {
      var b := Replay(Init(records)).value;
      ReplayAgrees(Init(records), n);
      hide After, Tally, TallyAll, NamesOf, StackNames;
      AfterAgrees(b, Last(records), n);
    }
  }

  /** The whole trace, when what is left open has been closed: each function has been called as often as it was
      entered or exited without having been, and the total is their sum. */
  lemma ClosedCalls(records: seq<Record>, now: int, n: string)
    requires Replay(records).Some? && n in Seen(records)
    ensures var r := CloseAll(Replay(records).value, now);
            && NamesOf(r.modules) == Seen(records) && r.totCalls == AllRuns(records)
            && r.modules[IndexOf(Seen(records), n)].calls == Runs(records, n)
  {
    ReplayAgrees(records, n);
    var b := Replay(records).value;
    CloseAllTally(b, now, n);
    assert StackNames(CloseAll(b, now)) == [];
  }

  /** The analyzer gives up exactly on the traces that at some point have more than 100 functions open or more
      than 10000 seen. */
  lemma {:induction false} ReplayFits(records: seq<Record>)
    ensures Replay(records).Some? <==> Fits(records)
  {
    if records == [] {
      assert records[..0] == [];
    } else {
      var init := Init(records);
      ReplayFits(init);
      FitsMore(records);
      if Replay(init).Some? {
        ReplayAgrees(init, "");
        assert init[..|init|] == init;
        AfterFits(Replay(init).value, Last(records));
        if Last(records).Exit? { CutShorter(Open(init), Last(records).name); }
      }
    }
  }

  lemma FitsMore(records: seq<Record>)
    requires records != []
    ensures Fits(records) <==> Fits(Init(records)) && |Open(records)| <= STACKSIZ && |Seen(records)| <= ProfileTree.MAXPROCS
  {
    var n := |records|;
    hide Open, Seen;
    assert records[..n] == records;
    assert forall k :: 0 <= k < n ==> records[..k] == Init(records)[..k];
  }

  // One record fails exactly when it would open the 101st function or name the 10001st.
  lemma AfterFits(b: Books, r: Record)
    requires StackOk(b) && Distinct(NamesOf(b.modules)) && |StackNames(b)| <= STACKSIZ && |b.modules| <= ProfileTree.MAXPROCS
    ensures After(b, r).Some? <==>
            && (r.Unknown? || r.name in NamesOf(b.modules) || |b.modules| < ProfileTree.MAXPROCS)
            && (r.Entry? ==> |StackNames(b)| < STACKSIZ)
  {
  }

  lemma {:induction false} CutShorter(open: seq<string>, name: string)
    ensures |CutTo(open, name)| <= |open|
  {
    if open != [] { CutShorter(open[..|open| - 1], name); }
  }
}
