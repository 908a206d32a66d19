/**
 The hash from threads to their implicit producers: lookup through the chain of tables, lazy migration to
 the current one, insertion, and resizing under a flag, by any number of threads.

 Each atomic access is one action, with two reductions.  A probe that finds a slot empty and the
 compare-exchange on it are one action: when another thread fills the slot in between, the probe moves on
 as if it had found it filled.  And an entry's value is written with its key: only the thread that set the
 key ever reads the value.  Table h was published before table h + 1, which has it as `prev`.  A mask is a
 remainder by the capacity.  The variant is the one without thread-exit notification, so keys are never
 marked reusable and the count is not taken back; memory never runs out.

 `tickets`, `homes` and the `probes` of an entry are history.
 */
module ProducerHash {
  import opened ModArith

  type Tid = nat
  type Producer = nat

  datatype Option<+T> = None | Some(value: T)

  // The entry of thread `key`, put `probes` slots after where its search starts.
  datatype Entry = Entry(key: Tid, value: Producer, probes: nat)

  type Table = seq<Option<Entry>>

  datatype Pc =
    | Idle
    | Probe(main: nat, h: nat, d: nat)                   // looking in table h, d slots from the start
    | Migrate(main: nat, d: nat, value: Producer)
    | Count(main: nat)
    | Check(main: nat, ticket: nat)                      // top of the insertion loop
    | Locked(ticket: nat)                                // has set the resize flag
    | Publish(main: nat, ticket: nat)
    | Unlock(main: nat, ticket: nat)
    | Room(main: nat, ticket: nat)                       // is the table less than three quarters full?
    | Insert(main: nat, ticket: nat, d: nat, producer: Producer)
    | Return(producer: Producer)

  // Where a thread's key was put first, and the producer it was given.
  datatype Home = Home(h: nat, slot: nat, producer: Producer)

  datatype State = State(
    tables: seq<Table>,              // the last one is implicitProducerHash
    count: nat,                      // implicitProducerHashCount
    lock: bool,                      // implicitProducerHashResizeInProgress
    made: nat,                       // producers created
    threads: map<Tid, Pc>,
    hash: map<Tid, nat>,             // hash_thread_id
    tickets: map<Tid, nat>,
    homes: map<Tid, Home>)

  datatype Action = Start(t: Tid) | Step(t: Tid) | Finish(t: Tid)

  // ---------- steps ----------

  function Limit(cap: nat): nat { cap / 2 + cap / 4 }

  function Doubled(cap: nat, ticket: nat): (c: nat)
    requires cap > 0
    ensures c >= cap && ticket < c / 2
    decreases if ticket >= cap / 2 then ticket - cap / 2 + 1 else 0
  {
    if ticket >= cap / 2 then
      if cap == 1 then Doubled(2, ticket) else Doubled(2 * cap, ticket)
    else cap
  }

  function SlotAt(start: nat, d: nat, cap: nat): (i: nat)
    requires cap > 0
    ensures i < cap
  {
    (start + d) % cap
  }

  function Top(s: State): nat
    requires s.tables != []
  {
    |s.tables| - 1
  }

  predicate InRange(s: State, h: nat) { h < |s.tables| && s.tables[h] != [] }

  predicate StepEnabled(s: State, p: Pc) {
    match p
    case Idle => false
    case Probe(main, h, d) => InRange(s, h)
    case Migrate(main, d, _) => InRange(s, main)
    case Count(_) => true
    case Check(main, _) => InRange(s, main)
    case Locked(_) => s.tables != [] && InRange(s, Top(s))
    case Publish(main, _) => InRange(s, main)
    case Unlock(_, _) => true
    case Room(main, _) => InRange(s, main)
    case Insert(main, _, _, _) => InRange(s, main)
    case Return(_) => false
  }

  predicate Enabled(s: State, a: Action) {
    && a.t in s.threads && a.t in s.hash && s.tables != []
    && match a
       case Start(t) => s.threads[t] == Idle
       case Step(t) => StepEnabled(s, s.threads[t])
       case Finish(t) => s.threads[t].Return?
  }

  function Go(s: State, t: Tid, p: Pc): State { s.(threads := s.threads[t := p]) }

  function Fill(s: State, h: nat, i: nat, e: Entry): State
    requires h < |s.tables| && i < |s.tables[h]|
  {
    s.(tables := s.tables[h := s.tables[h][i := Some(e)]])
  }

  function Apply(s: State, a: Action): State
    requires Enabled(s, a)
  {
    match a
    case Start(t) => Go(s, t, Probe(Top(s), Top(s), 0))
    case Finish(t) => Go(s, t, Idle)
    case Step(t) =>
      match s.threads[t]
      case Probe(main, h, d) =>
        var e := s.tables[h][SlotAt(s.hash[t], d, |s.tables[h]|)];
        if e.None? then Go(s, t, if h == 0 then Count(main) else Probe(main, h - 1, 0))
        else if e.value.key == t then Go(s, t, if h == main then Return(e.value.value) else Migrate(main, 0, e.value.value))
        else Go(s, t, Probe(main, h, d + 1))
      case Migrate(main, d, value) =>
        var i := SlotAt(s.hash[t], d, |s.tables[main]|);
        if s.tables[main][i].None? then Fill(Go(s, t, Return(value)), main, i, Entry(t, value, d))
        else Go(s, t, Migrate(main, d + 1, value))
      case Count(main) =>
        Go(s, t, Check(main, s.count + 1)).(count := s.count + 1, tickets := s.tickets[t := s.count + 1])
      case Check(main, ticket) =>
        if ticket >= |s.tables[main]| / 2 && !s.lock then Go(s, t, Locked(ticket)).(lock := true)
        else Go(s, t, Room(main, ticket))
      case Locked(ticket) =>
        if ticket >= |s.tables[Top(s)]| / 2 then Go(s, t, Publish(Top(s), ticket)) else Go(s, t, Unlock(Top(s), ticket))
      case Publish(main, ticket) =>
        var table := seq(Doubled(2 * |s.tables[main]|, ticket), i => None);
        Go(s, t, Unlock(|s.tables|, ticket)).(tables := s.tables + [table])
      case Unlock(main, ticket) => Go(s, t, Room(main, ticket)).(lock := false)
      case Room(main, ticket) =>
        if ticket < Limit(|s.tables[main]|) then Go(s, t, Insert(main, ticket, 0, s.made)).(made := s.made + 1)
        else Go(s, t, Check(Top(s), ticket))
      case Insert(main, ticket, d, producer) =>
        var i := SlotAt(s.hash[t], d, |s.tables[main]|);
        if s.tables[main][i].None? then
          Fill(Go(s, t, Return(producer)), main, i, Entry(t, producer, d)).(homes := s.homes[t := Home(main, i, producer)])
        else Go(s, t, Insert(main, ticket, d + 1, producer))
  }

  predicate Initial(s: State) {
    && |s.tables| == 1 && s.tables[0] != [] && (forall i :: 0 <= i < |s.tables[0]| ==> s.tables[0][i].None?)
    && s.count == 0 && !s.lock && s.made == 0
    && (forall t :: t in s.threads ==> s.threads[t] == Idle && t in s.hash)
    && s.tickets == map[] && s.homes == map[]
  }

  predicate IsRun(run: seq<State>, acts: seq<Action>) {
    && |run| == |acts| + 1
    && Initial(run[0])
    && forall i :: 0 <= i < |acts| ==> Enabled(run[i], acts[i]) && run[i + 1] == Apply(run[i], acts[i])
  }

  // ---------- the invariant ----------

  // The search of a thread in a table has passed d slots, all taken by others.
  predicate Passed(table: Table, start: nat, t: Tid, d: nat) {
    table != [] && forall e: nat :: e < d ==>
      table[SlotAt(start, e, |table|)].Some? && table[SlotAt(start, e, |table|)].value.key != t
  }

  predicate NotIn(table: Table, t: Tid) { forall i :: 0 <= i < |table| && table[i].Some? ==> table[i].value.key != t }

  // An entry is where the search for it leads, holds the producer its thread was given, and its thread drew
  // a ticket below three quarters of the capacity.
  predicate EntryOk(s: State, table: Table, i: nat)
    requires i < |table| && table[i].Some?
  {
    var e := table[i].value;
    && e.key in s.hash && e.key in s.homes && e.key in s.tickets
    && i == SlotAt(s.hash[e.key], e.probes, |table|) && Passed(table, s.hash[e.key], e.key, e.probes)
    && e.value == s.homes[e.key].producer && s.tickets[e.key] < Limit(|table|)
  }

  predicate TableOk(s: State, table: Table) {
    && table != []
    && (forall i :: 0 <= i < |table| && table[i].Some? ==> EntryOk(s, table, i))
    && (forall i, j :: 0 <= i < j < |table| && table[i].Some? && table[j].Some? ==> table[i].value.key != table[j].value.key)
  }

  ghost predicate TablesOk(s: State) {
    && s.tables != []
    && (forall h :: 0 <= h < |s.tables| ==> TableOk(s, s.tables[h]))
    && (forall g, h :: 0 <= g < h < |s.tables| ==> |s.tables[g]| <= |s.tables[h]|)
  }

  predicate HomesOk(s: State) {
    forall t :: t in s.homes ==>
      var home := s.homes[t];
      && home.h < |s.tables| && home.slot < |s.tables[home.h]|
      && s.tables[home.h][home.slot].Some? && s.tables[home.h][home.slot].value.key == t
  }

  predicate TicketsOk(s: State) {
    && (forall t :: t in s.tickets ==> 1 <= s.tickets[t] <= s.count)
    && (forall t, u :: t in s.tickets && u in s.tickets && t != u ==> s.tickets[t] != s.tickets[u])
  }

  // No table from h on has an entry of t.
  predicate NoneFrom(s: State, t: Tid, h: nat) { forall k :: h <= k < |s.tables| ==> NotIn(s.tables[k], t) }

  // t has drawn a ticket and not been given a producer yet.
  predicate New(s: State, t: Tid, ticket: nat) {
    t !in s.homes && NoneFrom(s, t, 0) && t in s.tickets && s.tickets[t] == ticket
  }

  predicate Critical(p: Pc) { p.Locked? || p.Publish? || p.Unlock? }

  predicate ThreadOk(s: State, t: Tid, p: Pc)
    requires t in s.hash
  {
    match p
    case Idle => t in s.tickets <==> t in s.homes
    case Probe(main, h, d) =>
      && h <= main < |s.tables| && NoneFrom(s, t, h + 1) && Passed(s.tables[h], s.hash[t], t, d)
      && (t in s.tickets <==> t in s.homes)
    case Migrate(main, d, value) =>
      && main < |s.tables| && NoneFrom(s, t, main) && Passed(s.tables[main], s.hash[t], t, d)
      && t in s.homes && value == s.homes[t].producer && t in s.tickets && s.tickets[t] < Limit(|s.tables[main]|)
    case Count(main) => main < |s.tables| && NoneFrom(s, t, 0) && t !in s.homes && t !in s.tickets
    case Check(main, ticket) => main < |s.tables| && New(s, t, ticket)
    case Locked(ticket) => New(s, t, ticket)
    case Publish(main, ticket) => main + 1 == |s.tables| && New(s, t, ticket)
    case Unlock(main, ticket) => main < |s.tables| && New(s, t, ticket)
    case Room(main, ticket) => main < |s.tables| && New(s, t, ticket)
    case Insert(main, ticket, d, _) =>
      main < |s.tables| && New(s, t, ticket) && ticket < Limit(|s.tables[main]|) && Passed(s.tables[main], s.hash[t], t, d)
    case Return(producer) => t in s.homes && producer == s.homes[t].producer && t in s.tickets
  }

  predicate ThreadsOk(s: State) {
    forall t :: t in s.threads ==> t in s.hash && ThreadOk(s, t, s.threads[t])
  }

  // The resize flag keeps all but one thread out.
  predicate LockOk(s: State) {
    && (forall t :: t in s.threads && Critical(s.threads[t]) ==> s.lock)
    && (forall t, u :: t in s.threads && u in s.threads && t != u && Critical(s.threads[t]) ==> !Critical(s.threads[u]))
  }

  ghost predicate Inv(s: State) { TablesOk(s) && HomesOk(s) && TicketsOk(s) && ThreadsOk(s) && LockOk(s) }

  // ---------- probing ----------

  // From any start, cap slots are all of them.
  lemma Reaches(start: nat, cap: nat, i: nat) returns (d: nat)
    requires i < cap
    ensures d < cap && SlotAt(start, d, cap) == i
  {
    d := (i - start) % cap;
    ModAbsorb(start, i - start, cap);
    assert (start + d) % cap == i % cap;
    ModIs(i, 0, i, cap);
  }

  // A list of different numbers below n has at most n of them.
  lemma {:induction false} Pigeonhole(xs: seq<nat>, n: nat)
    requires (forall i :: 0 <= i < |xs| ==> xs[i] < n) && forall i, j :: 0 <= i < j < |xs| ==> xs[i] != xs[j]
    ensures |xs| <= n
  {
    assert |xs| > 0 ==> xs[0] < n;
    if n > 0 {
      if k :| 0 <= k < |xs| && xs[k] == n - 1 {
        Pigeonhole(xs[..k] + xs[k + 1..], n - 1);
      } else {
        Pigeonhole(xs, n - 1);
      }
    }
  }

  /** Every table has a free slot: its keys have different tickets, all below three quarters of its size. */
  lemma FreeSlot(s: State, h: nat) returns (i: nat)
    requires TablesOk(s) && TicketsOk(s) && h < |s.tables|
    ensures i < |s.tables[h]| && s.tables[h][i].None?
  {
    var table := s.tables[h];
    if k :| 0 <= k < |table| && table[k].None? {
      i := k;
    } else {
      forall k | 0 <= k < |table| ensures table[k].Some? && EntryOk(s, table, k) {}
      var xs := seq(|table|, k requires 0 <= k < |table| => s.tickets[table[k].value.key]);
      Pigeonhole(xs, Limit(|table|));
      assert false;
    }
  }

  /** Probing terminates: a search that has passed d slots has passed fewer than there are. */
  lemma ProbesBounded(s: State, h: nat, start: nat, t: Tid, d: nat)
    requires TablesOk(s) && TicketsOk(s) && h < |s.tables| && Passed(s.tables[h], start, t, d)
    ensures d < |s.tables[h]|
  {
    var i := FreeSlot(s, h);
    var e := Reaches(start, |s.tables[h]|, i);
    assert e >= d;
  }

  /** A search that meets an empty slot has not missed an entry. */
  lemma EmptyMeansAbsent(s: State, h: nat, t: Tid, d: nat)
    requires TablesOk(s) && h < |s.tables| && t in s.hash && Passed(s.tables[h], s.hash[t], t, d)
    requires s.tables[h][SlotAt(s.hash[t], d, |s.tables[h]|)].None?
    ensures NotIn(s.tables[h], t)
  {
    var table := s.tables[h];
    forall i | 0 <= i < |table| && table[i].Some? ensures table[i].value.key != t {
      assert EntryOk(s, table, i);
      var e := table[i].value;
      assert e.key == t ==> e.probes >= d;
    }
  }

  // ---------- steps that fill no slot ----------

  // History only grows.
  predicate Kept(s: State, s': State) {
    && s'.hash == s.hash
    && (forall t :: t in s.homes ==> t in s'.homes && s'.homes[t] == s.homes[t])
    && (forall t :: t in s.tickets ==> t in s'.tickets && s'.tickets[t] == s.tickets[t])
  }

  lemma TableFrame(s: State, s': State, table: Table)
    requires TableOk(s, table) && Kept(s, s')
    ensures TableOk(s', table)
  {
    forall i | 0 <= i < |table| && table[i].Some? ensures EntryOk(s', table, i) { assert EntryOk(s, table, i); }
  }

  lemma TablesFrame(s: State, s': State)
    requires TablesOk(s) && s'.tables == s.tables && Kept(s, s')
    ensures TablesOk(s')
  {
    hide TableOk;
    forall h | 0 <= h < |s.tables| ensures TableOk(s', s'.tables[h]) { TableFrame(s, s', s.tables[h]); }
  }

  // What thread u's place depends on.
  predicate SameFor(s: State, s': State, u: Tid) {
    && u in s.threads && u in s'.threads && s'.threads[u] == s.threads[u] && s'.hash == s.hash
    && (u in s'.homes <==> u in s.homes) && (u in s.homes ==> s'.homes[u] == s.homes[u])
    && (u in s'.tickets <==> u in s.tickets) && (u in s.tickets ==> s'.tickets[u] == s.tickets[u])
  }

  lemma OtherFrame(s: State, s': State, u: Tid)
    requires s'.tables == s.tables && SameFor(s, s', u) && u in s.hash && ThreadOk(s, u, s.threads[u])
    ensures ThreadOk(s', u, s'.threads[u])
  {
  }

  // Only t has moved, or drawn a ticket.
  predicate Only(s: State, s': State, t: Tid) {
    && t in s.threads && t in s'.threads && s'.threads == s.threads[t := s'.threads[t]]
    && forall u :: u in s.threads && u != t ==> SameFor(s, s', u)
  }

  lemma ThreadsFrame(s: State, s': State, t: Tid)
    requires ThreadsOk(s) && s'.tables == s.tables && Only(s, s', t) && s'.hash == s.hash
    requires t in s.hash && ThreadOk(s', t, s'.threads[t])
    ensures ThreadsOk(s')
  {
    hide ThreadOk;
    forall u | u in s.threads ensures u in s'.hash && ThreadOk(s', u, s'.threads[u]) {
      if u != t {
        assert ThreadOk(s, u, s.threads[u]);
        OtherFrame(s, s', u);
      }
    }
  }

  lemma LockMoved(s: State, s': State, t: Tid)
    requires LockOk(s) && t in s.threads && t in s'.threads && s'.threads == s.threads[t := s'.threads[t]]
    requires (Critical(s'.threads[t]) <==> Critical(s.threads[t])) && s'.lock == s.lock
    ensures LockOk(s')
  {
  }

  // Tables and history are as before; t has moved, and it is well where it is.
  lemma MovedOnly(s: State, s': State, t: Tid)
    requires t in s.threads && t in s'.threads && s'.threads == s.threads[t := s'.threads[t]]
    requires s'.hash == s.hash && s'.homes == s.homes && s'.tickets == s.tickets
    ensures Only(s, s', t)
  {
  }

  lemma MovedKeepsInv(s: State, s': State, t: Tid)
    requires Inv(s) && t in s.threads && t in s'.threads && s'.threads == s.threads[t := s'.threads[t]] && s'.tables == s.tables && s'.hash == s.hash && s'.homes == s.homes
    requires s'.tickets == s.tickets && s'.count == s.count
    requires LockOk(s') && t in s.hash && ThreadOk(s', t, s'.threads[t])
    ensures Inv(s')
  {
    hide TablesOk, ThreadOk, ThreadsOk, LockOk, Only;
    MovedOnly(s, s', t);
    TablesFrame(s, s');
    ThreadsFrame(s, s', t);
  }

  lemma At(s: State, t: Tid)
    requires ThreadsOk(s) && t in s.threads
    ensures t in s.hash && ThreadOk(s, t, s.threads[t])
  {
  }

  // The entry found in a table is the thread's own: it holds the producer given to it.
  lemma FoundOwn(s: State, h: nat, i: nat, t: Tid)
    requires TablesOk(s) && h < |s.tables| && i < |s.tables[h]| && s.tables[h][i].Some? && s.tables[h][i].value.key == t
    ensures t in s.homes && t in s.tickets && s.tables[h][i].value.value == s.homes[t].producer
    ensures s.tickets[t] < Limit(|s.tables[h]|)
  {
    assert EntryOk(s, s.tables[h], i);
  }

  lemma HomeSeen(s: State, t: Tid)
    requires HomesOk(s)
    ensures t in s.homes ==> !NoneFrom(s, t, 0)
  {
    if t in s.homes {
      var home := s.homes[t];
      assert !NotIn(s.tables[home.h], t);
    }
  }

  lemma ProbeEmpty(s: State, t: Tid)
    requires Inv(s) && Enabled(s, Step(t)) && s.threads[t].Probe?
    requires var p := s.threads[t]; s.tables[p.h][SlotAt(s.hash[t], p.d, |s.tables[p.h]|)].None?
    ensures ThreadOk(Apply(s, Step(t)), t, Apply(s, Step(t)).threads[t])
  {
    var p := s.threads[t];
    At(s, t);
    HomeSeen(s, t);
    EmptyMeansAbsent(s, p.h, t, p.d);
    assert p.h > 0 ==> TableOk(s, s.tables[p.h - 1]);
    hide ThreadsOk, LockOk, TicketsOk, HomesOk, TablesOk;
    assert NoneFrom(s, t, p.h);
  }

  lemma ProbeFound(s: State, t: Tid)
    requires Inv(s) && Enabled(s, Step(t)) && s.threads[t].Probe?
    requires var p := s.threads[t];
             var e := s.tables[p.h][SlotAt(s.hash[t], p.d, |s.tables[p.h]|)];
             e.Some? && e.value.key == t
    ensures ThreadOk(Apply(s, Step(t)), t, Apply(s, Step(t)).threads[t])
  {
    hide ThreadsOk, LockOk, TicketsOk, HomesOk, TablesOk, Limit;
    var p := s.threads[t];
    At(s, t);
    FoundOwn(s, p.h, SlotAt(s.hash[t], p.d, |s.tables[p.h]|), t);
    Larger(s, p.h, p.main);
  }

  lemma Larger(s: State, g: nat, h: nat)
    requires TablesOk(s) && g <= h < |s.tables|
    ensures s.tables[h] != [] && |s.tables[g]| <= |s.tables[h]| && Limit(|s.tables[g]|) <= Limit(|s.tables[h]|)
  {
    assert TableOk(s, s.tables[h]);
    LimitGrows(|s.tables[g]|, |s.tables[h]|);
  }

  lemma LimitGrows(a: nat, b: nat)
    requires a <= b
    ensures Limit(a) <= Limit(b)
  {
  }

  lemma ProbePast(s: State, t: Tid)
    requires Inv(s) && Enabled(s, Step(t)) && s.threads[t].Probe?
    requires var p := s.threads[t];
             var e := s.tables[p.h][SlotAt(s.hash[t], p.d, |s.tables[p.h]|)];
             e.Some? && e.value.key != t
    ensures ThreadOk(Apply(s, Step(t)), t, Apply(s, Step(t)).threads[t])
  {
    hide ThreadsOk, LockOk, TicketsOk, HomesOk, TablesOk, SlotAt, NoneFrom;
    var s' := Apply(s, Step(t));
    var p := s.threads[t];
    At(s, t);
    PassedMore(s.tables[p.h], s.hash[t], t, p.d);
    NoneSame(s, s', t, p.h + 1);
    hide Passed;
  }

  lemma PassedMore(table: Table, start: nat, t: Tid, d: nat)
    requires Passed(table, start, t, d)
    requires var e := table[SlotAt(start, d, |table|)]; e.Some? && e.value.key != t
    ensures Passed(table, start, t, d + 1)
  {
  }

  lemma ProbeKeepsInv(s: State, t: Tid)
    requires Inv(s) && Enabled(s, Step(t)) && s.threads[t].Probe?
    ensures Inv(Apply(s, Step(t)))
  {
    var p := s.threads[t];
    var e := s.tables[p.h][SlotAt(s.hash[t], p.d, |s.tables[p.h]|)];
    if e.None? { ProbeEmpty(s, t); } else if e.value.key == t { ProbeFound(s, t); } else { ProbePast(s, t); }
    At(s, t);
    hide ThreadsOk, TicketsOk, HomesOk, TablesOk, ThreadOk;
    LockMoved(s, Apply(s, Step(t)), t);
    MovedKeepsInv(s, Apply(s, Step(t)), t);
  }

  predicate Plain(a: Action, p: Pc) { a.Start? || a.Finish? || p.Check? || p.Locked? || p.Unlock? || p.Room? }

  lemma PlainMoves(s: State, a: Action)
    requires Enabled(s, a) && Plain(a, s.threads[a.t])
    ensures var s' := Apply(s, a);
            && a.t in s'.threads && s'.threads == s.threads[a.t := s'.threads[a.t]]
            && s'.tables == s.tables && s'.hash == s.hash && s'.homes == s.homes && s'.tickets == s.tickets && s'.count == s.count
  {
  }

  lemma EndsSelf(s: State, a: Action)
    requires TablesOk(s) && Enabled(s, a) && (a.Start? || a.Finish?) && ThreadOk(s, a.t, s.threads[a.t])
    ensures ThreadOk(Apply(s, a), a.t, Apply(s, a).threads[a.t])
  {
    assert TableOk(s, s.tables[Top(s)]);
  }

  lemma LoopSelf(s: State, t: Tid)
    requires Enabled(s, Step(t)) && ThreadOk(s, t, s.threads[t])
    requires s.threads[t].Check? || s.threads[t].Locked? || s.threads[t].Unlock?
    ensures ThreadOk(Apply(s, Step(t)), t, Apply(s, Step(t)).threads[t])
  {
    NoneSame(s, Apply(s, Step(t)), t, 0);
  }

  lemma RoomSelf(s: State, t: Tid)
    requires TablesOk(s) && Enabled(s, Step(t)) && ThreadOk(s, t, s.threads[t]) && s.threads[t].Room?
    ensures ThreadOk(Apply(s, Step(t)), t, Apply(s, Step(t)).threads[t])
  {
    hide TablesOk, TableOk, Limit;
    var p := s.threads[t];
    var s' := Apply(s, Step(t));
    NoneSame(s, s', t, 0);
    if p.ticket < Limit(|s.tables[p.main]|) {
      assert s'.threads[t] == Insert(p.main, p.ticket, 0, s.made);
    } else {
      assert s'.threads[t] == Check(Top(s), p.ticket);
    }
  }

  lemma PlainLock(s: State, a: Action)
    requires LockOk(s) && Enabled(s, a) && Plain(a, s.threads[a.t])
    ensures LockOk(Apply(s, a))
  {
  }

  lemma PlainKeepsInv(s: State, a: Action)
    requires Inv(s) && Enabled(s, a) && Plain(a, s.threads[a.t])
    ensures Inv(Apply(s, a))
  {
    hide ThreadsOk, TicketsOk, HomesOk, TablesOk, LockOk, ThreadOk, Apply;
    At(s, a.t);
    if a.Start? || a.Finish? {
      EndsSelf(s, a);
    } else if s.threads[a.t].Room? {
      RoomSelf(s, a.t);
    } else {
      LoopSelf(s, a.t);
    }
    PlainLock(s, a);
    PlainMoves(s, a);
    MovedKeepsInv(s, Apply(s, a), a.t);
  }

  lemma CountTickets(s: State, t: Tid)
    requires TicketsOk(s) && Enabled(s, Step(t)) && s.threads[t].Count?
    ensures TicketsOk(Apply(s, Step(t)))
  {
  }

  lemma CountKeepsInv(s: State, t: Tid)
    requires Inv(s) && Enabled(s, Step(t)) && s.threads[t].Count?
    ensures Inv(Apply(s, Step(t)))
  {
    hide ThreadsOk, TicketsOk, HomesOk, TablesOk, LockOk, NoneFrom;
    var s' := Apply(s, Step(t));
    At(s, t);
    assert ThreadOk(s', t, s'.threads[t]) by { assert NoneFrom(s', t, 0) by { NoneSame(s, s', t, 0); } }
    CountTickets(s, t);
    HomesSame(s, s');
    LockMoved(s, s', t);
    hide ThreadOk;
    TablesFrame(s, s');
    ThreadsFrame(s, s', t);
  }

  lemma NoneSame(s: State, s': State, t: Tid, h: nat)
    requires NoneFrom(s, t, h) && s'.tables == s.tables
    ensures NoneFrom(s', t, h)
  {
  }

  lemma HomesSame(s: State, s': State)
    requires HomesOk(s) && s'.homes == s.homes && s'.tables == s.tables
    ensures HomesOk(s')
  {
  }

  // A new, empty, larger table at the end.
  lemma PublishTables(s: State, t: Tid)
    requires TablesOk(s) && Enabled(s, Step(t)) && s.threads[t].Publish? && s.threads[t].main + 1 == |s.tables|
    ensures TablesOk(Apply(s, Step(t)))
  {
    hide EntryOk;
    var s' := Apply(s, Step(t));
    forall h | 0 <= h < |s'.tables| ensures TableOk(s', s'.tables[h]) {
      if h < |s.tables| { TableFrame(s, s', s.tables[h]); }
    }
  }

  lemma PublishThread(s: State, s': State, table: Table, u: Tid)
    requires s'.tables == s.tables + [table] && (forall i :: 0 <= i < |table| ==> table[i].None?)
    requires SameFor(s, s', u) && u in s.hash && ThreadOk(s, u, s.threads[u]) && !s.threads[u].Publish?
    ensures ThreadOk(s', u, s'.threads[u])
  {
  }

  lemma PublishKeepsInv(s: State, t: Tid)
    requires Inv(s) && Enabled(s, Step(t)) && s.threads[t].Publish?
    ensures Inv(Apply(s, Step(t)))
  {
    var s' := Apply(s, Step(t));
    At(s, t);
    LockMoved(s, s', t);
    assert HomesOk(s');
    PublishTables(s, t);
    forall u | u in s.threads ensures u in s'.hash && ThreadOk(s', u, s'.threads[u]) {
      if u != t {
        At(s, u);
        PublishThread(s, s', Last(s'.tables), u);
      }
    }
  }

  function Last(ts: seq<Table>): Table
    requires ts != []
  {
    ts[|ts| - 1]
  }

  // ---------- steps that fill a slot ----------

  lemma PassedFilled(table: Table, i: nat, e: Entry, start: nat, u: Tid, d: nat)
    requires i < |table| && table[i].None? && Passed(table, start, u, d)
    ensures Passed(table[i := Some(e)], start, u, d)
  {
  }

  lemma FillTable(s: State, table: Table, i: nat, e: Entry)
    requires TableOk(s, table) && i < |table| && table[i].None? && NotIn(table, e.key)
    requires e.key in s.hash && e.key in s.homes && e.key in s.tickets
    requires i == SlotAt(s.hash[e.key], e.probes, |table|) && Passed(table, s.hash[e.key], e.key, e.probes)
    requires e.value == s.homes[e.key].producer && s.tickets[e.key] < Limit(|table|)
    ensures TableOk(s, table[i := Some(e)])
  {
    hide Passed, Limit, SlotAt;
    var table' := table[i := Some(e)];
    forall j | 0 <= j < |table'| && table'[j].Some? ensures EntryOk(s, table', j) {
      var f := table'[j].value;
      if j != i { assert EntryOk(s, table, j); }
      PassedFilled(table, i, e, s.hash[f.key], f.key, f.probes);
    }
  }

  // s' is s with t's entry put in table `main`, and t returning.
  predicate Filled(s: State, s': State, t: Tid, main: nat, i: nat, e: Entry) {
    && main < |s.tables| && i < |s.tables[main]| && s.tables[main][i].None? && e.key == t && NotIn(s.tables[main], t)
    && s'.tables == s.tables[main := s.tables[main][i := Some(e)]]
    && Kept(s, s') && s'.tickets == s.tickets && s'.count == s.count
    && t in s'.homes && t in s.tickets && t in s.hash
    && i == SlotAt(s.hash[t], e.probes, |s.tables[main]|) && Passed(s.tables[main], s.hash[t], t, e.probes)
    && e.value == s'.homes[t].producer && s.tickets[t] < Limit(|s.tables[main]|)
    && Only(s, s', t) && s'.threads[t] == Return(e.value)
    && (s'.homes == s.homes || s'.homes == s.homes[t := Home(main, i, e.value)])
  }

  lemma FilledTables(s: State, s': State, t: Tid, main: nat, i: nat, e: Entry)
    requires TablesOk(s) && Filled(s, s', t, main, i, e)
    ensures TablesOk(s')
  {
    hide TableOk, Passed, Limit, NotIn, Only;
    forall h | 0 <= h < |s'.tables| ensures TableOk(s', s'.tables[h]) {
      TableFrame(s, s', s.tables[h]);
      if h == main { FillTable(s', s.tables[h], i, e); }
    }
  }

  lemma FilledThread(s: State, s': State, u: Tid, main: nat, i: nat, e: Entry)
    requires SameFor(s, s', u) && u in s.hash && ThreadOk(s, u, s.threads[u]) && u != e.key
    requires main < |s.tables| && i < |s.tables[main]| && s.tables[main][i].None?
    requires s'.tables == s.tables[main := s.tables[main][i := Some(e)]]
    ensures ThreadOk(s', u, s'.threads[u])
  {
    hide Limit, SlotAt;
    assert forall h :: NoneFrom(s, u, h) ==> NoneFrom(s', u, h) by {
      assert NotIn(s.tables[main], u) ==> NotIn(s'.tables[main], u);
    }
    var p := s.threads[u];
    var h := if p.Probe? then p.h else if p.Migrate? || p.Insert? then p.main else 0;
    if (p.Probe? || p.Migrate? || p.Insert?) && h == main { PassedFilled(s.tables[main], i, e, s.hash[u], u, p.d); }
  }

  lemma FilledHomes(s: State, s': State, t: Tid, main: nat, i: nat, e: Entry)
    requires HomesOk(s) && Filled(s, s', t, main, i, e)
    ensures HomesOk(s')
  {
    hide Passed, Limit, NotIn, Only;
  }

  lemma FilledThreads(s: State, s': State, t: Tid, main: nat, i: nat, e: Entry)
    requires ThreadsOk(s) && Filled(s, s', t, main, i, e)
    ensures ThreadsOk(s')
  {
    hide ThreadOk, Passed, Limit, NotIn;
    forall u | u in s'.threads ensures u in s'.hash && ThreadOk(s', u, s'.threads[u]) {
      if u != t {
        At(s, u);
        FilledThread(s, s', u, main, i, e);
      } else {
        ReturnOk(s', t, e.value);
      }
    }
  }

  lemma FilledKeepsInv(s: State, s': State, t: Tid, main: nat, i: nat, e: Entry)
    requires Inv(s) && Filled(s, s', t, main, i, e) && LockOk(s')
    ensures Inv(s')
  {
    FilledTables(s, s', t, main, i, e);
    FilledHomes(s, s', t, main, i, e);
    FilledThreads(s, s', t, main, i, e);
    hide TablesOk, HomesOk, LockOk, ThreadsOk;
  }

  lemma ReturnOk(s: State, t: Tid, value: Producer)
    requires t in s.threads && s.threads[t] == Return(value) && t in s.hash
    requires t in s.homes && value == s.homes[t].producer && t in s.tickets
    ensures ThreadOk(s, t, s.threads[t])
  {
  }

  lemma MigrateKeepsInv(s: State, t: Tid)
    requires Inv(s) && Enabled(s, Step(t)) && s.threads[t].Migrate?
    ensures Inv(Apply(s, Step(t)))
  {
    hide TablesOk, HomesOk, TicketsOk, ThreadsOk, Limit, SlotAt, LockOk;
    var s' := Apply(s, Step(t));
    var p := s.threads[t];
    At(s, t);
    var i := SlotAt(s.hash[t], p.d, |s.tables[p.main]|);
    LockMoved(s, s', t);
    MovedOnly(s, s', t);
    assert NotIn(s.tables[p.main], t);
    if s.tables[p.main][i].None? {
      hide Only, Passed, NotIn;
      FilledKeepsInv(s, s', t, p.main, i, Entry(t, p.value, p.d));
    } else {
      PastOwn(s, p.main, t, p.d);
      NoneSame(s, s', t, p.main);
      hide Only, Passed, NotIn, NoneFrom;
      MovedKeepsInv(s, s', t);
    }
  }

  // A slot that is taken is taken by another thread.
  lemma PastOwn(s: State, h: nat, t: Tid, d: nat)
    requires h < |s.tables| && t in s.hash && NotIn(s.tables[h], t) && Passed(s.tables[h], s.hash[t], t, d)
    requires s.tables[h][SlotAt(s.hash[t], d, |s.tables[h]|)].Some?
    ensures Passed(s.tables[h], s.hash[t], t, d + 1)
  {
  }

  lemma InsertKeepsInv(s: State, t: Tid)
    requires Inv(s) && Enabled(s, Step(t)) && s.threads[t].Insert?
    ensures Inv(Apply(s, Step(t)))
  {
    hide TablesOk, HomesOk, TicketsOk, ThreadsOk, Limit, SlotAt, LockOk;
    var s' := Apply(s, Step(t));
    var p := s.threads[t];
    At(s, t);
    var i := SlotAt(s.hash[t], p.d, |s.tables[p.main]|);
    LockMoved(s, s', t);
    assert NotIn(s.tables[p.main], t);
    if s.tables[p.main][i].None? {
      InsertedOnly(s, s', t);
      hide Only, Passed, NotIn;
      FilledKeepsInv(s, s', t, p.main, i, Entry(t, p.producer, p.d));
    } else {
      PastOwn(s, p.main, t, p.d);
      NoneSame(s, s', t, 0);
      hide Only, Passed, NotIn, NoneFrom;
      MovedKeepsInv(s, s', t);
    }
  }

  lemma InsertedOnly(s: State, s': State, t: Tid)
    requires t in s.threads && t in s'.threads && s'.threads == s.threads[t := s'.threads[t]]
    requires t !in s.homes && t in s'.homes && s'.homes == s.homes[t := s'.homes[t]]
    requires s'.hash == s.hash && s'.tickets == s.tickets
    ensures Only(s, s', t) && Kept(s, s')
  {
  }

  // ---------- every run ----------

  lemma ActionKeepsInv(s: State, a: Action)
    requires Inv(s) && Enabled(s, a)
    ensures Inv(Apply(s, a))
  {
    hide Inv;
    var p := s.threads[a.t];
    if Plain(a, p) {
      PlainKeepsInv(s, a);
    } else if p.Probe? {
      ProbeKeepsInv(s, a.t);
    } else if p.Migrate? {
      MigrateKeepsInv(s, a.t);
    } else if p.Count? {
      CountKeepsInv(s, a.t);
    } else if p.Publish? {
      PublishKeepsInv(s, a.t);
    } else {
      InsertKeepsInv(s, a.t);
    }
  }

  lemma {:induction false} RunInv(run: seq<State>, acts: seq<Action>, i: nat)
    requires IsRun(run, acts) && i < |run|
    ensures Inv(run[i])
  {
    if i > 0 {
      RunInv(run, acts, i - 1);
      ActionKeepsInv(run[i - 1], acts[i - 1]);
    }
  }

  // ---------- what the hash guarantees ----------

  /** In every reachable state every table of the chain has a free slot. */
  lemma AlwaysRoom(run: seq<State>, acts: seq<Action>, k: nat, h: nat) returns (i: nat)
    requires IsRun(run, acts) && k < |run| && h < |run[k].tables|
    ensures i < |run[k].tables[h]| && run[k].tables[h][i].None?
  {
    RunInv(run, acts, k);
    i := FreeSlot(run[k], h);
  }

  /** So no search, migration or insertion ever probes as many slots as its table has. */
  lemma ProbingEnds(run: seq<State>, acts: seq<Action>, k: nat, t: Tid)
    requires IsRun(run, acts) && k < |run| && t in run[k].threads
    ensures match run[k].threads[t]
            case Probe(main, h, d) => h < |run[k].tables| && d < |run[k].tables[h]|
            case Migrate(main, d, _) => main < |run[k].tables| && d < |run[k].tables[main]|
            case Insert(main, _, d, _) => main < |run[k].tables| && d < |run[k].tables[main]|
            case _ => true
  {
    RunInv(run, acts, k);
    var s := run[k];
    At(s, t);
    var p := s.threads[t];
    if p.Probe? {
      ProbesBounded(s, p.h, s.hash[t], t, p.d);
    } else if p.Migrate? || p.Insert? {
      ProbesBounded(s, p.main, s.hash[t], t, p.d);
    }
  }

  // Only an insertion writes a home, and only that of a thread that has none.
  lemma HomeStays(s: State, a: Action, t: Tid)
    requires Enabled(s, a) && t in s.homes && (a.Step? && s.threads[a.t].Insert? ==> a.t !in s.homes)
    ensures t in Apply(s, a).homes && Apply(s, a).homes[t] == s.homes[t]
  {
  }

  lemma NewHasNone(s: State, t: Tid)
    requires Inv(s) && t in s.threads && s.threads[t].Insert?
    ensures t !in s.homes
  {
    At(s, t);
  }

  lemma {:induction false} HomesStay(run: seq<State>, acts: seq<Action>, j: nat, k: nat, t: Tid)
    requires IsRun(run, acts) && j <= k < |run| && t in run[j].homes
    ensures t in run[k].homes && run[k].homes[t] == run[j].homes[t]
  {
    if j < k {
      HomesStay(run, acts, j, k - 1, t);
      RunInv(run, acts, k - 1);
      hide Inv, Apply;
      var s, a := run[k - 1], acts[k - 1];
      if s.threads[a.t].Insert? { NewHasNone(s, a.t); }
      HomeStays(s, a, t);
    }
  }

  /** A thread that was given a producer is always given the same one later, through every resize and
      migration in between. */
  lemma SameProducer(run: seq<State>, acts: seq<Action>, j: nat, k: nat, t: Tid)
    requires IsRun(run, acts) && j <= k < |run| && t in run[j].threads && t in run[k].threads
    requires run[j].threads[t].Return? && run[k].threads[t].Return?
    ensures run[j].threads[t].producer == run[k].threads[t].producer
  {
    RunInv(run, acts, j);
    RunInv(run, acts, k);
    At(run[j], t);
    At(run[k], t);
    HomesStay(run, acts, j, k, t);
  }

  /** Only the latest table is ever extended: the resize flag keeps every other thread out. */
  lemma PublishesNext(run: seq<State>, acts: seq<Action>, k: nat, t: Tid)
    requires IsRun(run, acts) && k < |run| && t in run[k].threads && run[k].threads[t].Publish?
    ensures run[k].threads[t].main + 1 == |run[k].tables| && run[k].lock
    ensures forall u :: u in run[k].threads && u != t ==> !Critical(run[k].threads[u])
  {
    RunInv(run, acts, k);
    At(run[k], t);
  }
}
