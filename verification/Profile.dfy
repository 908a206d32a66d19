/**
 The dbug profile analyzer: its arrays, the processing of trace records, and the report.

 Reading and printing are left out: records come parsed, with the name that follows each record letter,
 and a report line carries the numbers before they are scaled.  exit() is the result false.
 */
module Profile {
  import opened ProfileBooks
  import opened ProfileTree
  import opened ProfileReplay

  datatype Line = Line(name: string, calls: nat, time: int)

  class Analyzer {
    const fnStack: array<Frame>
    const modules: array<Module>
    const sTable: array<Node>
    var stacktop: nat
    var nItems: nat
    var totTime: int
    var totCalls: nat
    var highstack: nat
    var lowstack: nat

    ghost predicate Sized()
      reads this
    {
      && fnStack.Length == STACKSIZ + 1 && modules.Length == MAXPROCS && sTable.Length == MAXPROCS
      && stacktop <= STACKSIZ && nItems <= MAXPROCS
    }

    ghost function View(): Books
      requires Sized()
      reads this, fnStack, modules
    {
      Books(fnStack[..stacktop + 1], modules[..nItems], totTime, totCalls)
    }

    ghost function Table(): seq<Node>
      requires Sized()
      reads this, sTable
    {
      sTable[..nItems]
    }

    // The books balance and the table is a search tree over the functions seen.
    ghost predicate Valid()
      reads this, fnStack, modules, sTable
    {
      Sized() && Balanced(View()) && TableOk(Table(), NamesOf(View().modules))
    }

    constructor ()
      ensures Valid() && fresh(fnStack) && fresh(modules) && fresh(sTable)
      ensures View() == Books([Frame(0, 0, 0)], [], 0, 0)
    {
      fnStack := new Frame[STACKSIZ + 1](_ => Frame(0, 0, 0));
      modules := new Module[MAXPROCS](_ => Module("", 0, 0, 0));
      sTable := new Node[MAXPROCS](_ => Node(0, 0, 0));
      stacktop := 0;
      nItems := 0;
      totTime := 0;
      totCalls := 0;
      highstack := 0;
      lowstack := 0xFFFF_FFFF_FFFF_FFFF;
      new;
      assert View() == Books([Frame(0, 0, 0)], [], 0, 0);
      assert View().stack[..0] == [] && Table() == [];
    }

    method Push(namePos: nat, timeEntered: int) returns (ok: bool)
      requires Sized()
      modifies this`stacktop, fnStack
      ensures Sized() && ok == (old(stacktop) < STACKSIZ)
      ensures ok ==> View() == old(View()).(stack := old(View()).stack + [Frame(namePos, timeEntered, 0)])
      ensures !ok ==> View() == old(View())
    {
      ok := stacktop < STACKSIZ;
      if ok {
        stacktop := stacktop + 1;
        fnStack[stacktop] := Frame(namePos, timeEntered, 0);
      }
    }

    method Pop() returns (more: bool, f: Frame)
      requires Sized()
      modifies this`stacktop
      ensures Sized() && more == (old(stacktop) >= 1)
      ensures more ==> f == old(fnStack[stacktop]) && stacktop == old(stacktop) - 1
      ensures !more ==> stacktop == old(stacktop)
    {
      more := stacktop >= 1;
      f := fnStack[stacktop];
      if more { stacktop := stacktop - 1; }
    }

    // Give `local` to function pos and to the totals.
    method Attribute(pos: nat, local: int)
      requires Sized() && pos < nItems
      modifies this`totTime, this`totCalls, modules
      ensures Sized() && modules[..nItems] == Charge(old(modules[..nItems]), pos, local)
      ensures totTime == old(totTime) + local && totCalls == old(totCalls) + 1
    {
      modules[pos] := modules[pos].(time := modules[pos].time + local, calls := modules[pos].calls + 1);
      totTime := totTime + local;
      totCalls := totCalls + 1;
    }

    // The body of both popping loops, for the entry f just popped.
    method CloseTop(f: Frame, fnTime: int)
      requires Sized() && f.pos < nItems && stacktop < STACKSIZ
      modifies this`totTime, this`totCalls, modules, fnStack
      ensures Sized()
      ensures modules[..nItems] == Charge(old(modules[..nItems]), f.pos, fnTime - f.time - f.children)
      ensures totTime == old(totTime) + (fnTime - f.time - f.children) && totCalls == old(totCalls) + 1
      ensures fnStack[..stacktop + 1] ==
              old(fnStack[..stacktop + 1])[stacktop := old(fnStack[stacktop]).(children := old(fnStack[stacktop]).children + (fnTime - f.time))]
    {
      var local := fnTime - f.time;
      fnStack[stacktop] := fnStack[stacktop].(children := fnStack[stacktop].children + local);
      Attribute(f.pos, local - f.children);
    }
  
    /** Pop the top entry and attribute its time; false when only the dummy is left. */
    method CloseOne(fnTime: int) returns (more: bool, f: Frame)
      requires Sized() && StackOk(View())
      modifies this`stacktop, this`totTime, this`totCalls, modules, fnStack
      ensures Sized() && more == (|old(View()).stack| > 1)
      ensures if more then View() == Close(old(View()), fnTime) else View() == old(View())
      ensures more ==> f == old(View()).stack[|old(View()).stack| - 1] && stacktop < old(stacktop)
      ensures StackOk(View())
    {
      ghost var b := View();
      more, f := Pop();
      if more {
        assert f == b.stack[|b.stack| - 1];
        CloseTop(f, fnTime);
        assert View() == Close(b, fnTime);
      }
    }

    /** The X record: everything on the stack is closed down to the function's own entry. */
    method ExitRecord(pos: nat, fnTime: int)
      requires Sized() && StackOk(View()) && pos < nItems
      modifies this`stacktop, this`totTime, this`totCalls, modules, fnStack
      ensures Sized() && View() == ExitTo(old(View()), pos, fnTime)
    {
      hide Close;
      ghost var start := View();
      while true
        invariant Sized() && StackOk(View()) && |View().modules| == nItems && pos < nItems
        invariant ExitTo(View(), pos, fnTime) == ExitTo(start, pos, fnTime)
        decreases stacktop
      {
        var more, f := CloseOne(fnTime);
        if !more { break; }
        if pos == f.pos { return; }
      }
      var t := fnStack[0];
      ghost var b := View();
      assert b.stack == [t];
      var local := fnTime - t.time - t.children;
      fnStack[0] := t.(time := fnTime, children := 0);
      Attribute(pos, local);
      assert View().stack == [t.(time := fnTime, children := 0)];
    }

    /** At the end of the file everything still on the stack exits at the last stamp. */
    method Finish(fnTime: int)
      requires Sized() && StackOk(View())
      modifies this`stacktop, this`totTime, this`totCalls, modules, fnStack
      ensures Sized() && View() == CloseAll(old(View()), fnTime)
    {
      hide Close;
      ghost var start := View();
      while true
        invariant Sized() && StackOk(View()) && |View().modules| == nItems
        invariant CloseAll(View(), fnTime) == CloseAll(start, fnTime)
        decreases stacktop
      {
        var more, _ := CloseOne(fnTime);
        if !more { break; }
      }
    }

    // The new entry of a name, at the end of the table.
    method AddIt(name: string)
      requires Sized() && nItems < MAXPROCS
      modifies this`nItems, modules
      ensures Sized() && nItems == old(nItems) + 1
      ensures modules[..nItems] == old(modules[..nItems]) + [Module(name, 0, 0, 0)]
    {
      modules[nItems] := Module(name, 0, 0, 0);
      nItems := nItems + 1;
    }

    // The first name.
    method AddFirst(name: string)
      requires Sized() && nItems == 0
      modifies this`nItems, modules, sTable
      ensures Sized() && TableOk(Table(), NamesOf(View().modules)) && nItems == 1 && modules[0].name == name
      ensures View() == old(View()).(modules := old(View()).modules + [Module(name, 0, 0, 0)])
    {
      sTable[0] := Node(MAXPROCS, MAXPROCS, 0);
      AddIt(name);
      assert Table() == [Node(MAXPROCS, MAXPROCS, 0)] && NamesOf(View().modules) == [name];
      assert InOrder(Table(), 0) == [0];
    }

    // A new name as a child of the node where the search for it ended.
    method AddUnder(parent: nat, left: bool, name: string)
      requires Sized() && parent < nItems < MAXPROCS
      modifies this`nItems, modules, sTable
      ensures Sized() && nItems == old(nItems) + 1 && modules[old(nItems)].name == name
      ensures Table() == Grow(old(Table()), parent, left)
      ensures View() == old(View()).(modules := old(View()).modules + [Module(name, 0, 0, 0)])
    {
      ghost var t := Table();
      if left {
        sTable[parent] := sTable[parent].(lchild := nItems);
      } else {
        sTable[parent] := sTable[parent].(rchild := nItems);
      }
      sTable[nItems] := Node(MAXPROCS, MAXPROCS, nItems);
      AddIt(name);
      assert Table() == Grow(t, parent, left);
    }

    /** add: the index of a name, which is entered when it is not there.  The table stays a search tree. */
    method Add(name: string) returns (ok: bool, ind: nat)
      requires Sized() && TableOk(Table(), NamesOf(View().modules))
      modifies this`nItems, modules, sTable
      ensures Sized() && TableOk(Table(), NamesOf(View().modules))
      ensures ok ==> ind < nItems && modules[ind].name == name
      ensures ok ==> View() == old(View()) || View() == old(View()).(modules := old(View()).modules + [Module(name, 0, 0, 0)])
      ensures ok && name in NamesOf(old(View()).modules) ==> View() == old(View())
      ensures !ok ==> old(nItems) == MAXPROCS && View() == old(View()) && name !in NamesOf(View().modules)
    {
      hide Less, Grow, Sorted, InOrder;
      ghost var t, names := Table(), NamesOf(View().modules);
      ok := true;
      ind := 0;
      if nItems == 0 {
        AddFirst(name);
        return;
      }
      while name != modules[ind].name
        invariant ind < nItems == old(nItems) && Sized() && View() == old(View()) && Table() == t
        invariant Search(t, names, name, ind) == Search(t, names, name, 0)
        decreases nItems - ind
      {
        assert modules[ind].name == names[ind];
        var left := Less(name, modules[ind].name);
        var child := if left then sTable[ind].lchild else sTable[ind].rchild;
        if child == MAXPROCS {
          GrowOk(t, names, name);
          if nItems >= MAXPROCS { ok := false; return; }
          ghost var parent := ind;
          AddUnder(ind, left, name);
          ind := nItems - 1;
          assert NamesOf(View().modules) == names + [name];
          return;
        }
        ind := child;
      }
      assert names[ind] == name;
    }

    static lemma GrowOk(t: seq<Node>, names: seq<string>, name: string)
      requires TableOk(t, names) && 0 < |t| && Search(t, names, name, 0).Absent?
      ensures name !in names
      ensures |t| < MAXPROCS ==> var w := Search(t, names, name, 0); TableOk(Grow(t, w.parent, w.left), names + [name])
    {
      AbsentMeansNew(t, names, name, 0);
      if |t| < MAXPROCS { GrowTable(t, names, name); }
    }

    /** The S record: the largest stack use of a function, and the extent of the stack. */
    method StackRecord(pos: nat, sbot: nat, ssz: nat)
      requires Sized() && pos < nItems
      modifies this`highstack, this`lowstack, modules
      ensures Sized() && modules[..nItems] == old(modules[..nItems])[pos := modules[pos]]
      ensures modules[pos] == old(modules[pos]).(stkuse := if ssz > old(modules[pos]).stkuse then ssz else old(modules[pos]).stkuse)
      ensures highstack == if sbot > old(highstack) then sbot else old(highstack)
      ensures lowstack == if sbot <= old(highstack) && sbot < old(lowstack) then sbot else old(lowstack)
    {
      if ssz > modules[pos].stkuse { modules[pos] := modules[pos].(stkuse := ssz); }
      if sbot > highstack {
        highstack := sbot;
      } else if sbot < lowstack {
        lowstack := sbot;
      }
    }
  
    // ---------- whole runs ----------

    /** process: read every record, then close what is left open at the last stamp.  The books are those of
        the replay, which fails exactly when more than 100 functions are open or more than 10000 seen.  They
        balance and the table is in order after any trace; stamps that do not decrease leave every self-time
        non-negative and the total at most the last stamp. */
    method Process(records: seq<Record>) returns (ok: bool)
      requires Valid() && View() == EMPTY && highstack == 0 && lowstack == 0xFFFF_FFFF_FFFF_FFFF
      modifies this, fnStack, modules, sTable
      ensures Valid() && (ok ==> stacktop == 0)
      ensures ok <==> Fits(records)
      ensures ok ==> Replay(records).Some? && View() == CloseAll(Replay(records).value, LastStamp(records, 0))
      ensures ok ==> (highstack, lowstack) == Extents(records)
      ensures ok ==> NamesOf(View().modules) == Seen(records) && totCalls == AllRuns(records)
      ensures ok ==> forall k :: 0 <= k < nItems ==> modules[k].calls == Runs(records, modules[k].name)
      ensures ok && Ordered(records, 0) ==> Timely(View(), LastStamp(records, 0)) && 0 <= totTime <= LastStamp(records, 0)
    {
      hide *;
      ReplayFits(records);
      var fnTime;
      ok, fnTime := ReadRecords(records);
      if ok { FinishRun(records, fnTime); }
    }

    // The loop over the file.
    method ReadRecords(records: seq<Record>) returns (ok: bool, fnTime: int)
      requires Valid() && View() == EMPTY && highstack == 0 && lowstack == 0xFFFF_FFFF_FFFF_FFFF
      modifies this, fnStack, modules, sTable
      ensures Valid() && ok == Replay(records).Some?
      ensures ok ==> Replay(records) == Some(View()) && (highstack, lowstack) == Extents(records)
      ensures ok ==> fnTime == LastStamp(records, 0) && (Ordered(records, 0) ==> Timely(View(), fnTime))
    {
      assert Timely(View(), 0) && records[..0] == [] && records[0..] == records;
      NothingReplayed();
      hide Balanced, Timely, TableOk, After, Ordered, Fits, Replay, Extents, LastStamp;
      fnTime := 0;
      ok := true;
      var i := 0;
      while i < |records|
        invariant 0 <= i <= |records| && ok && Valid()
        invariant Replay(records[..i]) == Some(View()) && Extents(records[..i]) == (highstack, lowstack)
        invariant LastStamp(records[i..], fnTime) == LastStamp(records, 0)
        invariant Ordered(records, 0) ==> Timely(View(), fnTime) && Ordered(records[i..], fnTime)
      {
        ReplayNext(records, i, View());
        OrderedNext(records[i..], fnTime);
        assert records[i..][0] == records[i] && records[i..][1..] == records[i + 1..];
        ok, fnTime := NextRecord(records[i], fnTime);
        if !ok {
          ReplayFailed(records, i + 1);
          return;
        }
        i := i + 1;
      }
      assert records[i..] == [] && records[..i] == records;
      assert LastStamp([], fnTime) == fnTime by { NoStamp(fnTime); }
    }

    // One line of the file.
    method NextRecord(r: Record, fnTime: int) returns (ok: bool, now: int)
      requires Valid()
      modifies this, fnStack, modules, sTable
      ensures Valid() && StackOk(old(View())) && now == StampOf(r, fnTime) && ok == After(old(View()), r).Some?
      ensures ok ==> View() == After(old(View()), r).value
      ensures ok ==> (highstack, lowstack) == Extended((old(highstack), old(lowstack)), r)
      ensures ok && fnTime <= now && old(Timely(View(), fnTime)) ==> Timely(View(), now)
    {
      assert StackOk(View());
      ok, now := true, fnTime;
      hide Balanced, Timely, TableOk;
      match r {
        case Entry(time, name) =>
          now := time;
          ok := EntryRecord(time, name, fnTime);
        case Exit(time, name) =>
          now := time;
          ok := ExitNamed(time, name, fnTime);
        case Stack(sbot, ssz, name) =>
          ok := StackNamed(sbot, ssz, name, fnTime);
        case Unknown =>
      }
    }

    // The end of the file.
    method FinishRun(records: seq<Record>, fnTime: int)
      requires Valid() && Replay(records) == Some(View()) && fnTime == LastStamp(records, 0)
      requires Ordered(records, 0) ==> Timely(View(), fnTime)
      modifies this`stacktop, this`totTime, this`totCalls, modules, fnStack
      ensures Valid() && stacktop == 0 && View() == CloseAll(Replay(records).value, fnTime)
      ensures NamesOf(View().modules) == Seen(records) && totCalls == AllRuns(records)
      ensures forall k :: 0 <= k < nItems ==> modules[k].calls == Runs(records, modules[k].name)
      ensures Ordered(records, 0) ==> Timely(View(), fnTime) && 0 <= totTime <= fnTime
    {
      CloseAllBalanced(View(), fnTime);
      if Ordered(records, 0) { CloseAllTimely(View(), fnTime, fnTime); }
      ghost var ms, b := View().modules, View();
      CloseAllNames(View(), fnTime);
      Finish(fnTime);
      assert NamesOf(View().modules) == NamesOf(ms);
      if Ordered(records, 0) {
        TotalsFit(View(), fnTime);
        TotalNonNegative(View());
      }
      ClosedAll(records, View(), fnTime);
      forall k | 0 <= k < nItems ensures modules[k].calls == Runs(records, modules[k].name) {
        assert View().modules[k] == modules[k];
      }
    }

    // The index of the name a record carries.
    method Named(name: string) returns (ok: bool, ind: nat)
      requires Valid()
      modifies this`nItems, modules, sTable
      ensures Valid() && StackOk(old(View())) && StackOk(View()) && ok == Added(old(View()), name).Some?
      ensures ok ==> Added(old(View()), name) == Some(View()) && name in NamesOf(View().modules)
      ensures ok ==> ind == IndexOf(NamesOf(View().modules), name) && ind < nItems
      ensures ok ==> forall now :: old(Timely(View(), now)) ==> Timely(View(), now)
    {
      ghost var b := View();
      hide Balanced, Timely, TableOk;
      ok, ind := Add(name);
      AddedOk(b, View(), name);
      if ok {
        TableApart(Table(), NamesOf(View().modules));
        AddedIs(b, View(), name, ind);
      }
      assert StackOk(b) && StackOk(View()) by { BalancedStack(b); BalancedStack(View()); }
    }

    method EntryRecord(time: int, name: string, ghost last: int) returns (ok: bool)
      requires Valid()
      modifies this, fnStack, modules, sTable
      ensures Valid() && highstack == old(highstack) && lowstack == old(lowstack)
      ensures StackOk(old(View())) && ok == After(old(View()), Entry(time, name)).Some?
      ensures ok ==> View() == After(old(View()), Entry(time, name)).value
      ensures ok && last <= time && old(Timely(View(), last)) ==> Timely(View(), time)
    {
      hide Balanced, Timely, TableOk, Added, IndexOf;
      var ind;
      ok, ind := Named(name);
      if !ok { return; }
      EnteredOk(View(), ind, last, time);
      ok := Push(ind, time);
    }

    method ExitNamed(time: int, name: string, ghost last: int) returns (ok: bool)
      requires Valid()
      modifies this, fnStack, modules, sTable
      ensures Valid() && highstack == old(highstack) && lowstack == old(lowstack)
      ensures StackOk(old(View())) && ok == After(old(View()), Exit(time, name)).Some?
      ensures ok ==> View() == After(old(View()), Exit(time, name)).value
      ensures ok && last <= time && old(Timely(View(), last)) ==> Timely(View(), time)
    {
      hide Balanced, Timely, TableOk, Added, IndexOf, ExitTo;
      var ind;
      ok, ind := Named(name);
      if !ok { return; }
      ghost var c := View();
      ExitBalanced(c, ind, time);
      if last <= time && Timely(c, last) { ExitTimely(c, ind, last, time); }
      ExitNames(c, ind, time);
      ExitRecord(ind, time);
      assert NamesOf(View().modules) == NamesOf(c.modules);
    }

    method StackNamed(sbot: nat, ssz: nat, name: string, ghost last: int) returns (ok: bool)
      requires Valid()
      modifies this, fnStack, modules, sTable
      ensures Valid()
      ensures StackOk(old(View())) && ok == After(old(View()), Stack(sbot, ssz, name)).Some?
      ensures ok ==> View() == After(old(View()), Stack(sbot, ssz, name)).value
      ensures ok ==> highstack == if sbot > old(highstack) then sbot else old(highstack)
      ensures ok ==> lowstack == if sbot <= old(highstack) && sbot < old(lowstack) then sbot else old(lowstack)
      ensures ok && old(Timely(View(), last)) ==> Timely(View(), last)
    {
      hide Balanced, Timely, TableOk, Added, IndexOf;
      var ind;
      ok, ind := Named(name);
      if !ok { return; }
      ghost var c := View();
      StackRecord(ind, sbot, ssz);
      assert View().modules == c.modules[ind := c.modules[ind].(stkuse := modules[ind].stkuse)];
      NotedOk(c, View(), ind, modules[ind].stkuse);
    }

    /** out_body: the subtree at `root`, in order, with the sums of what is listed. */
    method OutBody(root: nat, lines: seq<Line>, sCalls: nat, sTime: int)
      returns (r: seq<Line>, rCalls: nat, rTime: int)
      requires Sized() && ProfileTree.Shape(Table()) && root <= MAXPROCS
      ensures r == lines + Lines(View().modules, InOrder(Table(), root))
      ensures rCalls == sCalls + CallsOf(View().modules, InOrder(Table(), root))
      ensures rTime == sTime + TimeOf(View().modules, InOrder(Table(), root))
      decreases MAXPROCS - root
    {
      r, rCalls, rTime := lines, sCalls, sTime;
      ghost var t, ms := Table(), View().modules;
      var at := root;
      while at < nItems
        invariant root <= at <= MAXPROCS
        invariant r + Lines(ms, InOrder(t, at)) == lines + Lines(ms, InOrder(t, root))
        invariant rCalls + CallsOf(ms, InOrder(t, at)) == sCalls + CallsOf(ms, InOrder(t, root))
        invariant rTime + TimeOf(ms, InOrder(t, at)) == sTime + TimeOf(ms, InOrder(t, root))
        decreases MAXPROCS - at
      {
        var node := sTable[at];
        assert node == t[at];
        ghost var a, b := InOrder(t, node.lchild), InOrder(t, node.rchild);
        ghost var before := r;
        InOrderRange(t, at);
        ListAppend(ms, a, [at]);
        ListAppend(ms, a + [at], b);
        r, rCalls, rTime := OutBody(node.lchild, r, rCalls, rTime);
        assert ms[at] == modules[node.pos];
        r := r + [Line(modules[node.pos].name, modules[node.pos].calls, modules[node.pos].time)];
        rCalls := rCalls + modules[node.pos].calls;
        rTime := rTime + modules[node.pos].time;
        ListOne(ms, at);
        assert r == before + Lines(ms, a + [at]);
        assert before + Lines(ms, a + [at] + b) == r + Lines(ms, b);
        at := node.rchild;
      }
    }

    /** output: every function once, by increasing name, and the sums printed are the totals. */
    method Output() returns (ok: bool, lines: seq<Line>, sumCalls: nat, sumTime: int)
      requires Valid()
      ensures ok == (nItems > 0)
      ensures ok ==> sumCalls == totCalls && sumTime == totTime && |lines| == nItems
      ensures ok ==> forall j, k :: 0 <= j < k < |lines| ==> Less(lines[j].name, lines[k].name)
      ensures ok ==> forall i :: 0 <= i < nItems ==> Line(modules[i].name, modules[i].calls, modules[i].time) in lines
    {
      ok, lines, sumCalls, sumTime := nItems > 0, [], 0, 0;
      if ok {
        ghost var t, ms := Table(), View().modules;
        ghost var list := InOrder(t, 0);
        lines, sumCalls, sumTime := OutBody(0, lines, 0, 0);
        assert lines == Lines(ms, list);
        Listed(t, ms);
        forall i | 0 <= i < nItems ensures Line(modules[i].name, modules[i].calls, modules[i].time) in lines {
          assert LineOf(ms, i) in lines;
        }
      }
    }
  }

  lemma Listed(t: seq<Node>, ms: seq<Module>)
    requires TableOk(t, NamesOf(ms))
    ensures var lines := Lines(ms, InOrder(t, 0));
            && |lines| == |ms|
            && (forall j, k :: 0 <= j < k < |lines| ==> Less(lines[j].name, lines[k].name))
            && (forall i :: 0 <= i < |ms| ==> LineOf(ms, i) in lines)
    ensures CallsOf(ms, InOrder(t, 0)) == Calls(ms) && TimeOf(ms, InOrder(t, 0)) == Times(ms)
  {
    var list := InOrder(t, 0);
    InOrderRange(t, 0);
    LinesAre(ms, list);
    ListedApart(NamesOf(ms), list);
    ListedOnce(ms, list);
    forall i | 0 <= i < |ms| ensures LineOf(ms, i) in Lines(ms, list) {
      assert i in list;
      var k :| 0 <= k < |list| && list[k] == i;
      assert Lines(ms, list)[k] == LineOf(ms, i);
    }
  }

  // ---------- stamps ----------

  // The stamp read last, after a record.
  function StampOf(r: Record, last: int): int { if r.Entry? || r.Exit? then r.time else last }

  predicate Ordered(records: seq<Record>, last: int)
    decreases |records|
  {
    records != [] ==> last <= StampOf(records[0], last) && Ordered(records[1..], StampOf(records[0], last))
  }

  function LastStamp(records: seq<Record>, last: int): int
    decreases |records|
  {
    if records == [] then last else LastStamp(records[1..], StampOf(records[0], last))
  }

  // What Ordered and LastStamp say about the first record.
  lemma OrderedNext(records: seq<Record>, last: int)
    requires records != []
    ensures var now := StampOf(records[0], last);
            && LastStamp(records, last) == LastStamp(records[1..], now)
            && (Ordered(records, last) <==> last <= now && Ordered(records[1..], now))
  {
  }

  lemma NoStamp(last: int)
    ensures LastStamp([], last) == last
  {
  }

  lemma NothingReplayed()
    ensures Replay([]) == Some(EMPTY) && Extents([]) == (0, 0xFFFF_FFFF_FFFF_FFFF)
  {
  }

  // A search tree has every name once.
  lemma TableApart(t: seq<Node>, names: seq<string>)
    requires TableOk(t, names)
    ensures Distinct(names)
  {
    var list := InOrder(t, 0);
    forall j, k | 0 <= j < k < |names| ensures names[j] != names[k] {
      assert j in list && k in list;
      var x :| 0 <= x < |list| && list[x] == j;
      var y :| 0 <= y < |list| && list[y] == k;
      LessTotal(names[j], names[k]);
      if x < y { assert Less(names[list[x]], names[list[y]]); } else { assert Less(names[list[y]], names[list[x]]); }
    }
  }

  lemma ClosedAll(records: seq<Record>, r: Books, now: int)
    requires Replay(records).Some? && r == CloseAll(Replay(records).value, now)
    ensures NamesOf(r.modules) == Seen(records) && r.totCalls == AllRuns(records)
    ensures forall k :: 0 <= k < |r.modules| ==> r.modules[k].calls == Runs(records, r.modules[k].name)
  {
    ReplayAgrees(records, "");
    CloseAllTally(Replay(records).value, now, "");
    assert StackNames(r) == [];
    forall k | 0 <= k < |r.modules| ensures r.modules[k].calls == Runs(records, r.modules[k].name) {
      var n := NamesOf(r.modules)[k];
      ClosedCalls(records, now, n);
      IndexIs(Seen(records), k);
    }
  }

  // ---------- steps that keep the names and the books ----------

  lemma BalancedStack(b: Books)
    requires Balanced(b)
    ensures StackOk(b)
  {
  }

  lemma AddedOk(b: Books, c: Books, name: string)
    requires Balanced(b) && (c == b || c == b.(modules := b.modules + [Module(name, 0, 0, 0)]))
    ensures Balanced(c) && forall now :: Timely(b, now) ==> Timely(c, now)
  {
    SameSums(b.modules, c.modules);
  }

  lemma EnteredOk(b: Books, pos: nat, last: int, time: int)
    requires Balanced(b) && pos < |b.modules|
    ensures Balanced(b.(stack := b.stack + [Frame(pos, time, 0)]))
    ensures Timely(b, last) && last <= time ==> Timely(b.(stack := b.stack + [Frame(pos, time, 0)]), time)
  {
    PushBalanced(b, Frame(pos, time, 0));
  }

  lemma NotedOk(b: Books, c: Books, pos: nat, stkuse: nat)
    requires Balanced(b) && pos < |b.modules|
    requires c == b.(modules := b.modules[pos := b.modules[pos].(stkuse := stkuse)])
    ensures Balanced(c) && NamesOf(c.modules) == NamesOf(b.modules) && forall now :: Timely(b, now) ==> Timely(c, now)
  {
    SameSums(b.modules, c.modules);
  }

  lemma {:induction false} ExitNames(b: Books, pos: nat, now: int)
    requires StackOk(b) && pos < |b.modules|
    ensures NamesOf(ExitTo(b, pos, now).modules) == NamesOf(b.modules)
    decreases |b.stack|
  {
    if |b.stack| > 1 {
      assert NamesOf(Close(b, now).modules) == NamesOf(b.modules);
      if b.stack[|b.stack| - 1].pos != pos { ExitNames(Close(b, now), pos, now); }
    }
  }

  lemma {:induction false} CloseAllNames(b: Books, now: int)
    requires StackOk(b)
    ensures NamesOf(CloseAll(b, now).modules) == NamesOf(b.modules)
    decreases |b.stack|
  {
    if |b.stack| > 1 {
      assert NamesOf(Close(b, now).modules) == NamesOf(b.modules);
      CloseAllNames(Close(b, now), now);
    }
  }

  lemma TotalNonNegative(b: Books)
    requires Balanced(b) && forall k :: 0 <= k < |b.modules| ==> b.modules[k].time >= 0
    ensures b.totTime >= 0
  {
    SumNonNegative(b.modules);
  }

  // ---------- listings ----------

  predicate InRange(ms: seq<Module>, list: seq<nat>) { forall k :: 0 <= k < |list| ==> list[k] < |ms| }

  function LineOf(ms: seq<Module>, i: nat): Line {
    if i < |ms| then Line(ms[i].name, ms[i].calls, ms[i].time) else Line("", 0, 0)
  }

  function Lines(ms: seq<Module>, list: seq<nat>): seq<Line> {
    if list == [] then [] else [LineOf(ms, list[0])] + Lines(ms, list[1..])
  }

  function CallsOf(ms: seq<Module>, list: seq<nat>): nat {
    if list == [] then 0 else LineOf(ms, list[0]).calls + CallsOf(ms, list[1..])
  }

  function TimeOf(ms: seq<Module>, list: seq<nat>): int {
    if list == [] then 0 else LineOf(ms, list[0]).time + TimeOf(ms, list[1..])
  }

  lemma {:induction false} ListAppend(ms: seq<Module>, a: seq<nat>, b: seq<nat>)
    ensures Lines(ms, a + b) == Lines(ms, a) + Lines(ms, b)
    ensures CallsOf(ms, a + b) == CallsOf(ms, a) + CallsOf(ms, b)
    ensures TimeOf(ms, a + b) == TimeOf(ms, a) + TimeOf(ms, b)
  {
    if a == [] {
      assert a + b == b;
    } else {
      assert (a + b)[1..] == a[1..] + b;
      ListAppend(ms, a[1..], b);
    }
  }

  lemma ListOne(ms: seq<Module>, i: nat)
    ensures Lines(ms, [i]) == [LineOf(ms, i)] && CallsOf(ms, [i]) == LineOf(ms, i).calls
    ensures TimeOf(ms, [i]) == LineOf(ms, i).time
  {
    assert [i][1..] == [];
  }

  lemma {:induction false} LinesAre(ms: seq<Module>, list: seq<nat>)
    requires InRange(ms, list)
    ensures |Lines(ms, list)| == |list| && forall k :: 0 <= k < |list| ==> Lines(ms, list)[k] == LineOf(ms, list[k])
  {
    if list != [] { LinesAre(ms, list[1..]); }
  }

  lemma ListedApart(names: seq<string>, list: seq<nat>)
    requires Sorted(names, list)
    ensures forall j, k :: 0 <= j < k < |list| ==> list[j] != list[k]
  {
    forall j, k | 0 <= j < k < |list| ensures list[j] != list[k] { LessTotal(names[list[j]], names[list[k]]); }
  }

  lemma Without(list: seq<nat>, k: nat)
    requires k < |list| && forall i, j :: 0 <= i < j < |list| ==> list[i] != list[j]
    ensures var rest := list[..k] + list[k + 1..];
            && (forall i, j :: 0 <= i < j < |rest| ==> rest[i] != rest[j])
            && (forall x :: x in rest <==> x in list && x != list[k])
  {
    var rest := list[..k] + list[k + 1..];
    forall x | x in list && x != list[k] ensures x in rest {
      var j :| 0 <= j < |list| && list[j] == x;
      assert rest[if j < k then j else j - 1] == x;
    }
  }

  lemma SumWithout(ms: seq<Module>, list: seq<nat>, k: nat)
    requires k < |list|
    ensures var rest := list[..k] + list[k + 1..];
            && CallsOf(ms, list) == CallsOf(ms, rest) + LineOf(ms, list[k]).calls
            && TimeOf(ms, list) == TimeOf(ms, rest) + LineOf(ms, list[k]).time
  {
    var a, b := list[..k], list[k + 1..];
    assert list == a + [list[k]] + b;
    ListAppend(ms, a, [list[k]]);
    ListAppend(ms, a + [list[k]], b);
    ListAppend(ms, a, b);
    ListOne(ms, list[k]);
  }

  // A listing that has every function once sums up to the sums over the functions.
  lemma {:induction false} ListedOnce(ms: seq<Module>, list: seq<nat>)
    requires InRange(ms, list) && forall j, k :: 0 <= j < k < |list| ==> list[j] != list[k]
    requires forall i :: 0 <= i < |ms| ==> i in list
    ensures |list| == |ms| && CallsOf(ms, list) == Calls(ms) && TimeOf(ms, list) == Times(ms)
    decreases |ms|
  {
    assert |list| > 0 ==> list[0] < |ms|;
    if ms != [] {
      var n := |ms| - 1;
      assert n in list;
      var k :| 0 <= k < |list| && list[k] == n;
      var rest := list[..k] + list[k + 1..];
      Without(list, k);
      SumWithout(ms, list, k);
      forall j | 0 <= j < |rest| ensures rest[j] < n { assert rest[j] in rest; }
      hide CallsOf, TimeOf;
      Shorter(ms, rest);
      ListedOnce(ms[..n], rest);
    }
  }

  lemma {:induction false} Shorter(ms: seq<Module>, list: seq<nat>)
    requires ms != [] && forall k :: 0 <= k < |list| ==> list[k] < |ms| - 1
    ensures CallsOf(ms, list) == CallsOf(ms[..|ms| - 1], list) && TimeOf(ms, list) == TimeOf(ms[..|ms| - 1], list)
  {
    if list != [] { Shorter(ms, list[1..]); }
  }
}
