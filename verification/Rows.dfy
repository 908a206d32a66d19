/**
 Decoding the rows of a result set into messages: the first row looks every field up by its name and
 remembers the column, later rows go by the remembered columns.

 A message type is a tree of fields; a message is a tree of slots.  What the database driver makes of a
 cell for a field type is the function `get`.
 */
module Rows {

  datatype Type = Time | Int64 | UInt64 | Int32 | UInt32 | String | Bytes | Double | Float | Bool

  // Other field types (enum, sint, sfixed32, group) fall through the switch.
  datatype Kind = Scalar(ty: Type) | Unhandled | Sub(schema: Schema)
  datatype Field = Field(name: string, repeated: bool, kind: Kind)
  datatype Schema = Schema(fields: seq<Field>)

  datatype Raw = Number(n: int) | Real(x: real) | Chars(s: string) | Nothing
  datatype Value = Int(n: int) | Fraction(x: real) | Str(s: string) | Truth(b: bool) | Other

  datatype Slot = Unset | Val(v: Value) | Nested(record: Record)
  datatype Record = Record(slots: seq<Slot>)

  type Cell = string
  type Getter = (Type, Cell) -> Raw

  const WORD32: int := 0x1_0000_0000
  const WORD64: int := 0x1_0000_0000_0000_0000

  // ---------- what is stored for a column ----------

  function Stored(ty: Type, raw: Raw): Value {
    match raw
    case Number(n) =>
      if ty == UInt64 then Int(n % WORD64)
      else if ty == UInt32 then Int(n % WORD32)
      else if ty == Bool then Truth(n != 0)
      else Int(n)
    case Real(x) => Fraction(x)
    case Chars(s) => Str(s)
    case Nothing => if ty == String || ty == Bytes then Str("") else Other
  }

  // What stays in the variable when the driver raises on an unknown column.
  const DBL_MIN: real := 0.0000000000000001      // some positive value: its size is not modelled
  function Missing(ty: Type): Raw {
    match ty
    case Time => Number(-WORD64 / 2)
    case Int64 => Number(-WORD64 / 2)
    case UInt64 => Number(-WORD64 / 2)
    case Int32 => Number(-WORD32 / 2)
    case UInt32 => Number(-WORD32 / 2)
    case Bool => Number(-WORD32 / 2)
    case String => Nothing
    case Bytes => Nothing
    case Double => Real(DBL_MIN)
    case Float => Real(DBL_MIN)
  }

  // The first column with a name; columns are numbered from 1, and 0 stands for none.
  function Column(cols: seq<string>, name: string): (c: nat)
    ensures c <= |cols|
    ensures c > 0 ==> cols[c - 1] == name
    ensures c == 0 <==> name !in cols
  {
    if cols == [] then 0
    else if cols[0] == name then 1
    else var c := Column(cols[1..], name); if c == 0 then 0 else c + 1
  }

  datatype Row = Row(cols: seq<string>, cells: seq<Cell>)

  predicate RowOk(row: Row) { |row.cols| == |row.cells| }

  // Reading column c, which exists or the driver raises (Readable).
  function AtColumn(ty: Type, c: int, row: Row, get: Getter): Value {
    if 1 <= c <= |row.cells| then Stored(ty, get(ty, row.cells[c - 1])) else Other
  }

  // ---------- decoding by name ----------

  function Empty(s: Schema): Record { Record(seq(|s.fields|, k => Unset)) }

  // MutableMessage: the sub-message, made when it is not there.
  function Open(t: Schema, slot: Slot): Record { if slot.Nested? then slot.record else Empty(t) }

  predicate Fits(s: Schema, rec: Record) {
    && |rec.slots| == |s.fields|
    && forall k :: 0 <= k < |s.fields| && s.fields[k].kind.Sub? && rec.slots[k].Nested? ==>
         Fits(s.fields[k].kind.schema, rec.slots[k].record)
  }

  function SlotByName(f: Field, slot: Slot, row: Row, get: Getter): Slot
    requires RowOk(row)
    requires f.kind.Sub? && slot.Nested? ==> Fits(f.kind.schema, slot.record)
    decreases f
  {
    if f.repeated then slot
    else
      match f.kind
      case Sub(t) => Nested(ByName(t, Open(t, slot), row, get))
      case Scalar(ty) =>
        var c := Column(row.cols, f.name);
        Val(if c == 0 then Stored(ty, Missing(ty)) else AtColumn(ty, c, row, get))
      case Unhandled => slot
  }

  /** Each field of the message from the column of its name: the reference for both decoders. */
  function ByName(s: Schema, rec: Record, row: Row, get: Getter): (r: Record)
    requires RowOk(row) && Fits(s, rec)
    ensures |r.slots| == |s.fields|
    decreases s
  {
    Record(seq(|s.fields|, k requires 0 <= k < |s.fields| => SlotByName(s.fields[k], rec.slots[k], row, get)))
  }

  lemma {:induction false} ByNameFits(s: Schema, rec: Record, row: Row, get: Getter)
    requires RowOk(row) && Fits(s, rec)
    ensures Fits(s, ByName(s, rec, row, get))
    decreases s
  {
    var r := ByName(s, rec, row, get);
    forall k | 0 <= k < |s.fields| && s.fields[k].kind.Sub? && r.slots[k].Nested?
      ensures Fits(s.fields[k].kind.schema, r.slots[k].record)
    {
      assert r.slots[k] == SlotByName(s.fields[k], rec.slots[k], row, get);
      if !s.fields[k].repeated {
        var t := s.fields[k].kind.schema;
        ByNameFits(t, Open(t, rec.slots[k]), row, get);
      }
    }
  }

  /** Decoding into a record that still holds an earlier row gives what decoding into the original would. */
  lemma {:induction false} Redecode(s: Schema, rec: Record, row1: Row, row2: Row, get: Getter)
    requires RowOk(row1) && RowOk(row2) && Fits(s, rec) && Fits(s, ByName(s, rec, row1, get))
    ensures ByName(s, ByName(s, rec, row1, get), row2, get) == ByName(s, rec, row2, get)
    decreases s
  {
    var r1 := ByName(s, rec, row1, get);
    forall k | 0 <= k < |s.fields|
      ensures SlotByName(s.fields[k], r1.slots[k], row2, get) == SlotByName(s.fields[k], rec.slots[k], row2, get)
    {
      assert r1.slots[k] == SlotByName(s.fields[k], rec.slots[k], row1, get);
      if !s.fields[k].repeated && s.fields[k].kind.Sub? {
        var t := s.fields[k].kind.schema;
        ByNameFits(t, Open(t, rec.slots[k]), row1, get);
        Redecode(t, Open(t, rec.slots[k]), row1, row2, get);
      }
    }
  }

  // ---------- the slots of the cache ----------

  function FieldSlots(f: Field): nat {
    if f.repeated then 0 else if f.kind.Sub? then Slots(f.kind.schema) + 1 else 1
  }

  // Slots taken by the first i fields.
  function SlotsTo(s: Schema, i: nat): nat
    requires i <= |s.fields|
    decreases s, i
  {
    if i == 0 then 0 else SlotsTo(s, i - 1) + FieldSlots(s.fields[i - 1])
  }

  function Slots(s: Schema): nat
    decreases s, |s.fields| + 1
  {
    SlotsTo(s, |s.fields|)
  }

  lemma {:induction false} SlotsGrow(s: Schema, i: nat, j: nat)
    requires i <= j <= |s.fields|
    ensures SlotsTo(s, i) <= SlotsTo(s, j)
  {
    if i < j { SlotsGrow(s, i, j - 1); }
  }

  // nFieldIndex after the first i fields: the last column found at this level, 0 before there is one.
  function Last(s: Schema, cols: seq<string>, i: nat): nat
    requires i <= |s.fields|
  {
    if i == 0 then 0
    else
      var f := s.fields[i - 1];
      if !f.repeated && f.kind.Scalar? && f.name in cols then Column(cols, f.name) else Last(s, cols, i - 1)
  }

  function FieldCache(s: Schema, cols: seq<string>, i: nat): (r: seq<int>)
    requires i < |s.fields|
    ensures |r| == FieldSlots(s.fields[i])
    decreases s, i
  {
    var f := s.fields[i];
    if f.repeated then []
    else if f.kind.Sub? then Cache(f.kind.schema, cols) + [Last(s, cols, i + 1)]
    else [Last(s, cols, i + 1)]
  }

  function CacheTo(s: Schema, cols: seq<string>, i: nat): (r: seq<int>)
    requires i <= |s.fields|
    ensures |r| == SlotsTo(s, i)
    decreases s, i
  {
    if i == 0 then [] else CacheTo(s, cols, i - 1) + FieldCache(s, cols, i - 1)
  }

  // What the first row leaves in arrIndex.
  function Cache(s: Schema, cols: seq<string>): (r: seq<int>)
    ensures |r| == Slots(s)
    decreases s, |s.fields| + 1
  {
    CacheTo(s, cols, |s.fields|)
  }

  // ---------- decoding by index ----------

  function At(cache: seq<int>, i: nat): int { if i < |cache| then cache[i] else 0 }

  // Whether every column number that is used exists; the driver raises otherwise.
  predicate FieldReadable(f: Field, cache: seq<int>, at: nat, n: nat)
    decreases f
  {
    !f.repeated ==>
      match f.kind
      case Sub(t) => Readable(t, cache, at, n)
      case Scalar(_) => 1 <= At(cache, at) <= n
      case Unhandled => true
  }

  predicate Readable(s: Schema, cache: seq<int>, at: nat, n: nat)
    decreases s
  {
    forall k :: 0 <= k < |s.fields| ==> FieldReadable(s.fields[k], cache, at + SlotsTo(s, k), n)
  }

  function SlotByIndex(f: Field, slot: Slot, row: Row, get: Getter, cache: seq<int>, at: nat): Slot
    requires f.kind.Sub? && slot.Nested? ==> Fits(f.kind.schema, slot.record)
    decreases f
  {
    if f.repeated then slot
    else
      match f.kind
      case Sub(t) => Nested(ByIndex(t, Open(t, slot), row, get, cache, at))
      case Scalar(ty) => Val(AtColumn(ty, At(cache, at), row, get))
      case Unhandled => slot
  }

  function ByIndex(s: Schema, rec: Record, row: Row, get: Getter, cache: seq<int>, at: nat): (r: Record)
    requires Fits(s, rec)
    ensures |r.slots| == |s.fields|
    decreases s
  {
    Record(seq(|s.fields|, k requires 0 <= k < |s.fields| =>
      SlotByIndex(s.fields[k], rec.slots[k], row, get, cache, at + SlotsTo(s, k))))
  }

  // ---------- the two recursions ----------

  // The case of one field that is not repeated, and the cache entry written after the switch.
  method AddFirstField(s: Schema, i: nat, slot: Slot, row: Row, get: Getter, arrIndex: array<int>, start: nat, last: nat)
    returns (r: Slot, nIndex: nat, nFieldIndex: nat)
    requires RowOk(row) && i < |s.fields| && !s.fields[i].repeated && last == Last(s, row.cols, i)
    requires s.fields[i].kind.Sub? && slot.Nested? ==> Fits(s.fields[i].kind.schema, slot.record)
    requires start + FieldSlots(s.fields[i]) <= arrIndex.Length
    modifies arrIndex
    ensures r == SlotByName(s.fields[i], slot, row, get) && nFieldIndex == Last(s, row.cols, i + 1)
    ensures nIndex == start + FieldSlots(s.fields[i]) && arrIndex[start..nIndex] == FieldCache(s, row.cols, i)
    ensures forall j :: 0 <= j < start || nIndex <= j < arrIndex.Length ==> arrIndex[j] == old(arrIndex[j])
    decreases s, 0
  {
    var f := s.fields[i];
    nFieldIndex, nIndex := last, start;
    match f.kind {
      case Sub(t) =>
        var sub;
        sub, nIndex := AddFirstReturnRecord(t, Open(t, slot), row, get, arrIndex, nIndex);
        r := Nested(sub);
      case Scalar(ty) =>
        var raw := Missing(ty);
        var c := Column(row.cols, f.name);
        if c != 0 {
          raw := get(ty, row.cells[c - 1]);
          nFieldIndex := c;
        }
        r := Val(Stored(ty, raw));
      case Unhandled =>
        r := slot;
    }
    ghost var sub := arrIndex[start..nIndex];
    arrIndex[nIndex] := nFieldIndex;
    nIndex := nIndex + 1;
    assert arrIndex[start..nIndex] == sub + [nFieldIndex];
  }

  // One field, behind the entries base .. at; a repeated one is skipped.
  method NextFirstField(s: Schema, i: nat, slot: Slot, row: Row, get: Getter, arrIndex: array<int>, base: nat, at: nat, last: nat)
    returns (r: Slot, nIndex: nat, nFieldIndex: nat)
    requires RowOk(row) && i < |s.fields| && last == Last(s, row.cols, i) && base <= at
    requires s.fields[i].kind.Sub? && slot.Nested? ==> Fits(s.fields[i].kind.schema, slot.record)
    requires at + FieldSlots(s.fields[i]) <= arrIndex.Length
    modifies arrIndex
    ensures r == SlotByName(s.fields[i], slot, row, get) && nFieldIndex == Last(s, row.cols, i + 1)
    ensures nIndex == at + FieldSlots(s.fields[i])
    ensures arrIndex[base..nIndex] == old(arrIndex[base..at]) + FieldCache(s, row.cols, i)
    ensures forall j :: 0 <= j < at || nIndex <= j < arrIndex.Length ==> arrIndex[j] == old(arrIndex[j])
    decreases s, 1
  {
    hide SlotByName, FieldCache, FieldSlots, Fits, Last;
    if s.fields[i].repeated {
      Repeated(s, row, get, i, slot);
      r, nIndex, nFieldIndex := slot, at, last;
    } else {
      ghost var before := arrIndex[base..at];
      r, nIndex, nFieldIndex := AddFirstField(s, i, slot, row, get, arrIndex, at, last);
      assert arrIndex[base..at] == before;
      assert arrIndex[base..nIndex] == arrIndex[base..at] + arrIndex[at..nIndex];
    }
  }

  /** AddFirstReturnRecord. */
  method AddFirstReturnRecord(s: Schema, rec: Record, row: Row, get: Getter, arrIndex: array<int>, start: nat)
    returns (r: Record, nIndex: nat)
    requires RowOk(row) && Fits(s, rec) && start + Slots(s) <= arrIndex.Length
    modifies arrIndex
    ensures r == ByName(s, rec, row, get)
    ensures nIndex == start + Slots(s) && arrIndex[start..nIndex] == Cache(s, row.cols)
    ensures forall j :: 0 <= j < start || nIndex <= j < arrIndex.Length ==> arrIndex[j] == old(arrIndex[j])
    decreases s, 2
  {
    FitsSlots(s, rec);
    NoneYet(s, row.cols);
    hide SlotByName, FieldCache, FieldSlots, Fits, Last;
    r := rec;
    nIndex := start;
    var nFieldIndex := 0;
    var i := 0;
    while i < |s.fields|
      invariant 0 <= i <= |s.fields| && |r.slots| == |s.fields|
      invariant forall k :: 0 <= k < i ==> r.slots[k] == SlotByName(s.fields[k], rec.slots[k], row, get)
      invariant forall k :: i <= k < |s.fields| ==> r.slots[k] == rec.slots[k]
      invariant nFieldIndex == Last(s, row.cols, i)
      invariant nIndex == start + SlotsTo(s, i) <= start + Slots(s) && arrIndex[start..nIndex] == CacheTo(s, row.cols, i)
      invariant forall j :: 0 <= j < start || start + Slots(s) <= j < arrIndex.Length ==> arrIndex[j] == old(arrIndex[j])
    {
      SlotsGrow(s, i + 1, |s.fields|);
      var slot;
      slot, nIndex, nFieldIndex := NextFirstField(s, i, r.slots[i], row, get, arrIndex, start, nIndex, nFieldIndex);
      r := Record(r.slots[i := slot]);
      i := i + 1;
    }
  }

  lemma NoneYet(s: Schema, cols: seq<string>)
    ensures Last(s, cols, 0) == 0
  {
  }

  // A repeated field is skipped and takes no slot.
  lemma Repeated(s: Schema, row: Row, get: Getter, i: nat, slot: Slot)
    requires RowOk(row) && i < |s.fields| && s.fields[i].repeated
    requires s.fields[i].kind.Sub? && slot.Nested? ==> Fits(s.fields[i].kind.schema, slot.record)
    ensures SlotByName(s.fields[i], slot, row, get) == slot && FieldSlots(s.fields[i]) == 0
    ensures FieldCache(s, row.cols, i) == [] && Last(s, row.cols, i + 1) == Last(s, row.cols, i)
  {
  }

  method AddField(f: Field, slot: Slot, row: Row, get: Getter, arrIndex: array<int>, start: nat)
    returns (ok: bool, r: Slot, nIndex: nat)
    requires RowOk(row) && start + FieldSlots(f) <= arrIndex.Length
    requires !f.repeated && (f.kind.Sub? && slot.Nested? ==> Fits(f.kind.schema, slot.record))
    ensures ok <==> FieldReadable(f, arrIndex[..], start, |row.cells|)
    ensures ok ==> r == SlotByIndex(f, slot, row, get, arrIndex[..], start) && nIndex == start + FieldSlots(f)
    decreases f
  {
    ok, nIndex := true, start;
    match f.kind {
      case Sub(t) =>
        var sub;
        ok, sub, nIndex := AddReturnRecord(t, Open(t, slot), row, get, arrIndex, nIndex);
        r := Nested(sub);
      case Scalar(ty) =>
        r := slot;
        ok := 1 <= arrIndex[nIndex] <= |row.cells|;
        if ok { r := Val(Stored(ty, get(ty, row.cells[arrIndex[nIndex] - 1]))); }
      case Unhandled =>
        r := slot;
    }
    nIndex := nIndex + 1;
  }

  /** AddReturnRecord; `ok` is false when the driver raises on a column number. */
  method AddReturnRecord(s: Schema, rec: Record, row: Row, get: Getter, arrIndex: array<int>, start: nat)
    returns (ok: bool, r: Record, nIndex: nat)
    requires RowOk(row) && Fits(s, rec) && start + Slots(s) <= arrIndex.Length
    ensures ok <==> Readable(s, arrIndex[..], start, |row.cells|)
    ensures ok ==> r == ByIndex(s, rec, row, get, arrIndex[..], start) && nIndex == start + Slots(s)
    decreases s
  {
    hide SlotByIndex, FieldReadable, FieldSlots, Readable, ByIndex, Fits, SlotsTo;
    FitsSlots(s, rec);
    SlotsEnds(s);
    ghost var cache, n := arrIndex[..], |row.cells|;
    ok := true;
    r := rec;
    nIndex := start;
    var i := 0;
    while i < |s.fields|
      invariant 0 <= i <= |s.fields| && |r.slots| == |s.fields| && nIndex == start + SlotsTo(s, i) <= start + Slots(s)
      invariant arrIndex[..] == cache
      invariant forall k :: 0 <= k < i ==> FieldReadable(s.fields[k], cache, start + SlotsTo(s, k), n)
      invariant forall k :: 0 <= k < i ==>
        r.slots[k] == SlotByIndex(s.fields[k], rec.slots[k], row, get, cache, start + SlotsTo(s, k))
      invariant forall k :: i <= k < |s.fields| ==> r.slots[k] == rec.slots[k]
    {
      SlotsGrow(s, i + 1, |s.fields|);
      if s.fields[i].repeated {
        RepeatedByIndex(s.fields[i], r.slots[i], row, get, cache, nIndex);
      } else {
        var slot;
        ok, slot, nIndex := AddField(s.fields[i], r.slots[i], row, get, arrIndex, nIndex);
        if !ok {
          NotReadable(s, cache, start, n, i);
          return;
        }
        r := Record(r.slots[i := slot]);
      }
      i := i + 1;
    }
    AllFields(s, rec, r, row, get, cache, start);
  }

  lemma FitsSlots(s: Schema, rec: Record)
    requires Fits(s, rec)
    ensures |rec.slots| == |s.fields|
    ensures forall k :: 0 <= k < |s.fields| && s.fields[k].kind.Sub? && rec.slots[k].Nested? ==>
      Fits(s.fields[k].kind.schema, rec.slots[k].record)
  {
  }

  lemma SlotsEnds(s: Schema)
    ensures SlotsTo(s, 0) == 0 && SlotsTo(s, |s.fields|) == Slots(s)
    ensures forall i :: 0 <= i < |s.fields| ==> SlotsTo(s, i + 1) == SlotsTo(s, i) + FieldSlots(s.fields[i])
  {
    forall i | 0 <= i < |s.fields| ensures SlotsTo(s, i + 1) == SlotsTo(s, i) + FieldSlots(s.fields[i]) {}
  }

  lemma NotReadable(s: Schema, cache: seq<int>, at: nat, n: nat, i: nat)
    requires i < |s.fields| && !FieldReadable(s.fields[i], cache, at + SlotsTo(s, i), n)
    ensures !Readable(s, cache, at, n)
  {
  }

  lemma AllFields(s: Schema, rec: Record, r: Record, row: Row, get: Getter, cache: seq<int>, at: nat)
    requires Fits(s, rec) && |r.slots| == |s.fields|
    requires forall k :: 0 <= k < |s.fields| ==> FieldReadable(s.fields[k], cache, at + SlotsTo(s, k), |row.cells|)
    requires forall k :: 0 <= k < |s.fields| ==>
      r.slots[k] == SlotByIndex(s.fields[k], rec.slots[k], row, get, cache, at + SlotsTo(s, k))
    ensures Readable(s, cache, at, |row.cells|) && r == ByIndex(s, rec, row, get, cache, at)
  {
    hide SlotByIndex, FieldReadable, Fits, SlotsTo;
    assert r.slots == ByIndex(s, rec, row, get, cache, at).slots;
  }

  lemma RepeatedByIndex(f: Field, slot: Slot, row: Row, get: Getter, cache: seq<int>, at: nat)
    requires f.repeated && (f.kind.Sub? && slot.Nested? ==> Fits(f.kind.schema, slot.record))
    ensures SlotByIndex(f, slot, row, get, cache, at) == slot && FieldReadable(f, cache, at, |row.cells|)
    ensures FieldSlots(f) == 0
  {
  }

  // ---------- both decoders agree ----------

  // Every handled leaf names a column.
  predicate Covered(s: Schema, cols: seq<string>) {
    forall k :: 0 <= k < |s.fields| ==> CoveredField(s.fields[k], cols)
  }

  predicate CoveredField(f: Field, cols: seq<string>) {
    !f.repeated ==>
      match f.kind
      case Sub(t) => Covered(t, cols)
      case Scalar(_) => f.name in cols
      case Unhandled => true
  }

  // The cache of the first row sits at `at`.
  predicate HoldsCache(s: Schema, cols: seq<string>, cache: seq<int>, at: nat) {
    at + Slots(s) <= |cache| && cache[at..at + Slots(s)] == Cache(s, cols)
  }

  lemma {:induction false} CacheAt(s: Schema, cols: seq<string>, i: nat, k: nat)
    requires k < i <= |s.fields|
    ensures SlotsTo(s, k) + FieldSlots(s.fields[k]) <= SlotsTo(s, i)
    ensures CacheTo(s, cols, i)[SlotsTo(s, k)..SlotsTo(s, k) + FieldSlots(s.fields[k])] == FieldCache(s, cols, k)
    decreases i
  {
    hide FieldCache;
    var at, n := SlotsTo(s, k), FieldSlots(s.fields[k]);
    if k < i - 1 {
      CacheAt(s, cols, i - 1, k);
      assert CacheTo(s, cols, i)[at..at + n] == CacheTo(s, cols, i - 1)[at..at + n];
    }
  }

  lemma SliceOfSlice(c: seq<int>, at: nat, len: nat, a: nat, n: nat)
    requires at + len <= |c| && a + n <= len
    ensures c[at..at + len][a..a + n] == c[at + a..at + a + n]
  {
    var x, y := c[at..at + len][a..a + n], c[at + a..at + a + n];
    assert |x| == |y|;
    forall k | 0 <= k < n ensures x[k] == y[k] { assert x[k] == c[at..at + len][a + k] == c[at + (a + k)]; }
  }

  // The part of the cache that belongs to field k.
  lemma FieldCacheAt(s: Schema, cols: seq<string>, cache: seq<int>, at: nat, k: nat)
    requires HoldsCache(s, cols, cache, at) && k < |s.fields|
    ensures var a := at + SlotsTo(s, k);
            a + FieldSlots(s.fields[k]) <= |cache| && cache[a..a + FieldSlots(s.fields[k])] == FieldCache(s, cols, k)
  {
    CacheAt(s, cols, |s.fields|, k);
    hide FieldSlots, SlotsTo, FieldCache, CacheTo;
    var a, n := SlotsTo(s, k), FieldSlots(s.fields[k]);
    SliceOfSlice(cache, at, Slots(s), a, n);
  }

  lemma {:induction false} SameField(s: Schema, i: nat, slot: Slot, row: Row, get: Getter, cache: seq<int>, at: nat)
    requires RowOk(row) && i < |s.fields| && CoveredField(s.fields[i], row.cols)
    requires s.fields[i].kind.Sub? && slot.Nested? ==> Fits(s.fields[i].kind.schema, slot.record)
    requires at + FieldSlots(s.fields[i]) <= |cache|
    requires cache[at..at + FieldSlots(s.fields[i])] == FieldCache(s, row.cols, i)
    ensures FieldReadable(s.fields[i], cache, at, |row.cells|)
    ensures SlotByIndex(s.fields[i], slot, row, get, cache, at) == SlotByName(s.fields[i], slot, row, get)
    decreases s, 0
  {
    var f := s.fields[i];
    if !f.repeated {
      if f.kind.Sub? {
        var t := f.kind.schema;
        var n := FieldSlots(f);
        assert cache[at..at + n][..n - 1] == cache[at..at + Slots(t)];
        assert FieldCache(s, row.cols, i)[..n - 1] == Cache(t, row.cols);
        SameRecord(t, Open(t, slot), row, get, cache, at);
      } else if f.kind.Scalar? {
        assert cache[at] == cache[at..at + 1][0] == Column(row.cols, f.name);
      }
    }
  }

  lemma {:induction false} SameRecord(s: Schema, rec: Record, row: Row, get: Getter, cache: seq<int>, at: nat)
    requires RowOk(row) && Fits(s, rec) && Covered(s, row.cols) && HoldsCache(s, row.cols, cache, at)
    ensures Readable(s, cache, at, |row.cells|)
    ensures ByIndex(s, rec, row, get, cache, at) == ByName(s, rec, row, get)
    decreases s, 1
  {
    hide SlotByIndex, SlotByName, FieldReadable, FieldCache, FieldSlots;
    forall k | 0 <= k < |s.fields|
      ensures FieldReadable(s.fields[k], cache, at + SlotsTo(s, k), |row.cells|)
      ensures SlotByIndex(s.fields[k], rec.slots[k], row, get, cache, at + SlotsTo(s, k))
           == SlotByName(s.fields[k], rec.slots[k], row, get)
    {
      FieldCacheAt(s, row.cols, cache, at, k);
      SameField(s, k, rec.slots[k], row, get, cache, at + SlotsTo(s, k));
    }
  }

  /** Rows decoded through the cached columns equal the by-name decoding of the same rows, whenever every
      handled leaf names a column of the result. */
  lemma CachedIsByName(s: Schema, rec: Record, row: Row, get: Getter)
    requires RowOk(row) && Fits(s, rec) && Covered(s, row.cols)
    ensures var cache := Cache(s, row.cols);
            && Readable(s, cache, 0, |row.cells|)
            && ByIndex(s, rec, row, get, cache, 0) == ByName(s, rec, row, get)
  {
    var cache := Cache(s, row.cols);
    assert cache[0..Slots(s)] == cache;
    SameRecord(s, rec, row, get, cache, 0);
  }

  // ---------- when a leaf names no column ----------

  // A driver result that is stored differently from the value left when a column is missing.
  function Unlike(ty: Type): Raw {
    match ty
    case Double => Real(0.0)
    case Float => Real(0.0)
    case String => Chars("x")
    case Bytes => Chars("x")
    case _ => Number(0)
  }

  function UnlikeGetter(): Getter { (ty: Type, cell: Cell) => Unlike(ty) }

  lemma {:induction false} FieldDiffers(s: Schema, i: nat, slot: Slot, row: Row, cache: seq<int>, at: nat)
    requires RowOk(row) && i < |s.fields| && !CoveredField(s.fields[i], row.cols)
    requires s.fields[i].kind.Sub? && slot.Nested? ==> Fits(s.fields[i].kind.schema, slot.record)
    requires at + FieldSlots(s.fields[i]) <= |cache|
    requires cache[at..at + FieldSlots(s.fields[i])] == FieldCache(s, row.cols, i)
    ensures var g := UnlikeGetter();
            FieldReadable(s.fields[i], cache, at, |row.cells|) ==>
              SlotByIndex(s.fields[i], slot, row, g, cache, at) != SlotByName(s.fields[i], slot, row, g)
    decreases s, 0
  {
    var f := s.fields[i];
    if f.kind.Sub? {
      var t := f.kind.schema;
      var n := FieldSlots(f);
      assert cache[at..at + n][..n - 1] == cache[at..at + Slots(t)];
      assert FieldCache(s, row.cols, i)[..n - 1] == Cache(t, row.cols);
      RecordDiffers(t, Open(t, slot), row, cache, at);
    } else {
      var ty := f.kind.ty;
      assert Stored(ty, Unlike(ty)) != Stored(ty, Missing(ty));
    }
  }

  lemma {:induction false} RecordDiffers(s: Schema, rec: Record, row: Row, cache: seq<int>, at: nat)
    requires RowOk(row) && Fits(s, rec) && !Covered(s, row.cols) && HoldsCache(s, row.cols, cache, at)
    ensures Readable(s, cache, at, |row.cells|) ==>
            ByIndex(s, rec, row, UnlikeGetter(), cache, at) != ByName(s, rec, row, UnlikeGetter())
    decreases s, 1
  {
    hide SlotByIndex, SlotByName, FieldReadable, FieldCache, FieldSlots, CoveredField, Readable, ByIndex, ByName, SlotsTo,
      HoldsCache;
    var get := UnlikeGetter();
    var k :| 0 <= k < |s.fields| && !CoveredField(s.fields[k], row.cols);
    FieldCacheAt(s, row.cols, cache, at, k);
    FieldDiffers(s, k, rec.slots[k], row, cache, at + SlotsTo(s, k));
    SlotOf(s, rec, row, get, cache, at, k);
  }

  lemma SlotOf(s: Schema, rec: Record, row: Row, get: Getter, cache: seq<int>, at: nat, k: nat)
    requires RowOk(row) && Fits(s, rec) && k < |s.fields|
    ensures Readable(s, cache, at, |row.cells|) ==> FieldReadable(s.fields[k], cache, at + SlotsTo(s, k), |row.cells|)
    ensures ByIndex(s, rec, row, get, cache, at).slots[k] ==
            SlotByIndex(s.fields[k], rec.slots[k], row, get, cache, at + SlotsTo(s, k))
    ensures ByName(s, rec, row, get).slots[k] == SlotByName(s.fields[k], rec.slots[k], row, get)
  {
    hide SlotByIndex, SlotByName, FieldReadable, SlotsTo, FieldSlots, CacheTo, Stored, Column;
  }

  ghost predicate Agree(s: Schema, rec: Record, row: Row, get: Getter)
    requires RowOk(row) && Fits(s, rec)
  {
    && Readable(s, Cache(s, row.cols), 0, |row.cells|)
    && ByIndex(s, rec, row, get, Cache(s, row.cols), 0) == ByName(s, rec, row, get)
  }

  /** The condition is exact: the two decoders agree on a row, whatever the driver yields for it, if and only
      if every handled leaf names a column.  A leaf without a column is left at its default by the first
      row, and reads the column of an earlier field of its level, or raises, in every later one. */
  lemma AgreeIffCovered(s: Schema, rec: Record, row: Row)
    requires RowOk(row) && Fits(s, rec)
    ensures (forall get: Getter :: Agree(s, rec, row, get)) <==> Covered(s, row.cols)
  {
    if Covered(s, row.cols) {
      forall get: Getter ensures Agree(s, rec, row, get) { CachedIsByName(s, rec, row, get); }
    } else {
      var cache := Cache(s, row.cols);
      assert cache[0..Slots(s)] == cache;
      RecordDiffers(s, rec, row, cache, 0);
      assert !Agree(s, rec, row, UnlikeGetter());
    }
  }

  // ---------- whole results ----------

  predicate RowsOk(rows: seq<Row>) {
    forall k :: 0 <= k < |rows| ==> RowOk(rows[k]) && rows[k].cols == rows[0].cols
  }

  // Entries of the cache that read alike decode alike.
  lemma {:induction false} SameEntries(s: Schema, rec: Record, row: Row, get: Getter, a: seq<int>, b: seq<int>, at: nat)
    requires Fits(s, rec) && forall i: nat :: At(a, i) == At(b, i)
    ensures Readable(s, a, at, |row.cells|) <==> Readable(s, b, at, |row.cells|)
    ensures ByIndex(s, rec, row, get, a, at) == ByIndex(s, rec, row, get, b, at)
    decreases s, 1
  {
    hide SlotByIndex, FieldReadable, SlotsTo, FieldSlots, At;
    forall k | 0 <= k < |s.fields|
      ensures SlotByIndex(s.fields[k], rec.slots[k], row, get, a, at + SlotsTo(s, k)) ==
              SlotByIndex(s.fields[k], rec.slots[k], row, get, b, at + SlotsTo(s, k))
      ensures FieldReadable(s.fields[k], a, at + SlotsTo(s, k), |row.cells|) <==>
              FieldReadable(s.fields[k], b, at + SlotsTo(s, k), |row.cells|)
    {
      SameEntry(s, k, rec.slots[k], row, get, a, b, at + SlotsTo(s, k));
    }
    assert ByIndex(s, rec, row, get, a, at).slots == ByIndex(s, rec, row, get, b, at).slots;
  }

  lemma {:induction false} SameEntry(s: Schema, k: nat, slot: Slot, row: Row, get: Getter, a: seq<int>, b: seq<int>, at: nat)
    requires k < |s.fields| && (s.fields[k].kind.Sub? && slot.Nested? ==> Fits(s.fields[k].kind.schema, slot.record))
    requires forall i: nat :: At(a, i) == At(b, i)
    ensures SlotByIndex(s.fields[k], slot, row, get, a, at) == SlotByIndex(s.fields[k], slot, row, get, b, at)
    ensures FieldReadable(s.fields[k], a, at, |row.cells|) <==> FieldReadable(s.fields[k], b, at, |row.cells|)
    decreases s, 0
  {
    hide At;
    if s.fields[k].kind.Sub? && !s.fields[k].repeated {
      var t := s.fields[k].kind.schema;
      SameEntries(t, Open(t, slot), row, get, a, b, at);
    }
  }

  // The array the first row has filled reads as the cache.
  lemma CacheReads(s: Schema, rec: Record, row: Row, get: Getter, cols: seq<string>, arr: seq<int>)
    requires Fits(s, rec) && Slots(s) <= |arr| && arr[..Slots(s)] == Cache(s, cols)
    requires forall i :: Slots(s) <= i < |arr| ==> arr[i] == 0
    ensures Readable(s, arr, 0, |row.cells|) <==> Readable(s, Cache(s, cols), 0, |row.cells|)
    ensures ByIndex(s, rec, row, get, arr, 0) == ByIndex(s, rec, row, get, Cache(s, cols), 0)
  {
    var cache := Cache(s, cols);
    forall i: nat ensures At(arr, i) == At(cache, i) { if i < |cache| { assert arr[i] == arr[..Slots(s)][i]; } }
    hide Readable, ByIndex, Fits, Slots, Cache, At;
    SameEntries(s, rec, row, get, arr, cache, 0);
  }

  // Whether rows after the first can be decoded.
  predicate CacheReadable(s: Schema, cols: seq<string>) { Readable(s, Cache(s, cols), 0, |cols|) }

  // The first result is the first row by name; every later one is its row by the cache, decoded into `before`.
  predicate DecodedFrom(s: Schema, before: Record, row: Row, get: Getter, after: Record) {
    Fits(s, before) && after == ByIndex(s, before, row, get, Cache(s, row.cols), 0)
  }

  /** ParseEntityResult: one record is decoded into again and again, by name and then by the cached columns; the
      second row raises if and only if some leaf has no column to read.  When every handled leaf names a
      column, each result is its own row decoded by name into the record as it was given, so nothing of an
      earlier row shows.  The cache takes Slots(s) entries, and the array has 256. */
  method ParseEntityResult(s: Schema, record: Record, rows: seq<Row>, get: Getter) returns (ok: bool, vResult: seq<Record>)
    requires Fits(s, record) && RowsOk(rows) && Slots(s) <= 256
    ensures ok <==> |rows| <= 1 || CacheReadable(s, rows[0].cols)
    ensures |vResult| == if ok then |rows| else 1
    ensures rows != [] ==> vResult[0] == ByName(s, record, rows[0], get)
    ensures forall k :: 0 < k < |vResult| ==> DecodedFrom(s, vResult[k - 1], rows[k], get, vResult[k])
    ensures rows != [] && Covered(s, rows[0].cols) ==>
            ok && forall k :: 0 <= k < |rows| ==> vResult[k] == ByName(s, record, rows[k], get)
  {
    hide ByName, ByIndex, Readable, Fits, Covered, Slots, Cache, Empty;
    var arrIndex := new int[256](_ => 0);
    ok, vResult := true, [];
    if rows == [] { return; }
    var rec, n := AddFirstReturnRecord(s, record, rows[0], get, arrIndex, 0);
    vResult := [rec];
    ByNameFits(s, record, rows[0], get);
    ghost var cols, arr := rows[0].cols, arrIndex[..];
    assert arr[..Slots(s)] == Cache(s, cols);
    var i := 1;
    while i < |rows|
      invariant 1 <= i <= |rows| && ok && Fits(s, rec) && |vResult| == i && arrIndex[..] == arr && rec == vResult[i - 1]
      invariant vResult[0] == ByName(s, record, rows[0], get) && (i > 1 ==> CacheReadable(s, cols))
      invariant forall k :: 0 < k < i ==> DecodedFrom(s, vResult[k - 1], rows[k], get, vResult[k])
    {
      CacheReads(s, rec, rows[i], get, cols, arr);
      ghost var was := rec;
      ok, rec, n := AddReturnRecord(s, rec, rows[i], get, arrIndex, 0);
      if !ok { break; }
      ByIndexFits(s, was, rows[i], get, arr, 0);
      vResult := vResult + [rec];
      i := i + 1;
    }
    if Covered(s, cols) { CoveredResults(s, record, rows, get, ok, vResult); }
  }

  lemma {:induction false} CoveredResults(s: Schema, record: Record, rows: seq<Row>, get: Getter, ok: bool, results: seq<Record>)
    requires Fits(s, record) && RowsOk(rows) && rows != [] && Covered(s, rows[0].cols)
    requires ok <==> |rows| <= 1 || CacheReadable(s, rows[0].cols)
    requires |results| == if ok then |rows| else 1
    requires results[0] == ByName(s, record, rows[0], get)
    requires forall k :: 0 < k < |results| ==> DecodedFrom(s, results[k - 1], rows[k], get, results[k])
    ensures ok && forall k :: 0 <= k < |rows| ==> results[k] == ByName(s, record, rows[k], get)
  {
    hide ByName, ByIndex, Readable, Fits, Covered, Slots, Cache;
    ByNameFits(s, record, rows[0], get);
    CachedIsByName(s, record, rows[0], get);
    var i := 1;
    while i < |rows|
      invariant 1 <= i <= |rows| && forall k :: 0 <= k < i ==> results[k] == ByName(s, record, rows[k], get)
    {
      assert DecodedFrom(s, results[i - 1], rows[i], get, results[i]);
      CachedIsByName(s, results[i - 1], rows[i], get);
      Redecode(s, record, rows[i - 1], rows[i], get);
      i := i + 1;
    }
  }

  lemma {:induction false} ByIndexFits(s: Schema, rec: Record, row: Row, get: Getter, cache: seq<int>, at: nat)
    requires Fits(s, rec)
    ensures Fits(s, ByIndex(s, rec, row, get, cache, at))
    decreases s, 1
  {
    hide SlotByIndex, SlotsTo, FieldSlots;
    var r := ByIndex(s, rec, row, get, cache, at);
    forall k | 0 <= k < |s.fields| && s.fields[k].kind.Sub? && r.slots[k].Nested?
      ensures Fits(s.fields[k].kind.schema, r.slots[k].record)
    {
      assert r.slots[k] == SlotByIndex(s.fields[k], rec.slots[k], row, get, cache, at + SlotsTo(s, k));
      SlotFits(s, k, rec.slots[k], row, get, cache, at + SlotsTo(s, k));
    }
  }

  lemma {:induction false} SlotFits(s: Schema, k: nat, slot: Slot, row: Row, get: Getter, cache: seq<int>, at: nat)
    requires k < |s.fields| && s.fields[k].kind.Sub? && (slot.Nested? ==> Fits(s.fields[k].kind.schema, slot.record))
    ensures var r := SlotByIndex(s.fields[k], slot, row, get, cache, at);
            r.Nested? ==> Fits(s.fields[k].kind.schema, r.record)
    decreases s, 0
  {
    var t := s.fields[k].kind.schema;
    if !s.fields[k].repeated { ByIndexFits(t, Open(t, slot), row, get, cache, at); }
  }

  lemma EmptyFits(s: Schema)
    ensures Fits(s, Empty(s))
  {
  }

  /** ParseProcResult: a new message for every row, and the same otherwise. */
  method ParseProcResult(s: Schema, rows: seq<Row>, get: Getter) returns (ok: bool, msgs: seq<Record>)
    requires RowsOk(rows) && Slots(s) <= 256
    ensures ok <==> |rows| <= 1 || CacheReadable(s, rows[0].cols)
    ensures |msgs| == if ok then |rows| else 1
    ensures rows != [] ==> msgs[0] == ByName(s, Empty(s), rows[0], get)
    ensures forall k :: 0 < k < |msgs| ==> DecodedFrom(s, Empty(s), rows[k], get, msgs[k])
    ensures rows != [] && Covered(s, rows[0].cols) ==>
            ok && forall k :: 0 <= k < |rows| ==> msgs[k] == ByName(s, Empty(s), rows[k], get)
  {
    EmptyFits(s);
    hide ByName, ByIndex, Readable, Fits, Covered, Slots, Cache, Empty;
    var arrIndex := new int[256](_ => 0);
    ok, msgs := true, [];
    if rows == [] { return; }
    var rec, n := AddFirstReturnRecord(s, Empty(s), rows[0], get, arrIndex, 0);
    msgs := [rec];
    ghost var cols, arr := rows[0].cols, arrIndex[..];
    assert arr[..Slots(s)] == Cache(s, cols);
    var i := 1;
    while i < |rows|
      invariant 1 <= i <= |rows| && ok && |msgs| == i && arrIndex[..] == arr
      invariant msgs[0] == ByName(s, Empty(s), rows[0], get) && (i > 1 ==> CacheReadable(s, cols))
      invariant forall k :: 0 < k < i ==> DecodedFrom(s, Empty(s), rows[k], get, msgs[k])
    {
      CacheReads(s, Empty(s), rows[i], get, cols, arr);
      ok, rec, n := AddReturnRecord(s, Empty(s), rows[i], get, arrIndex, 0);
      if !ok { break; }
      msgs := msgs + [rec];
      i := i + 1;
    }
    if Covered(s, cols) {
      forall k | 0 <= k < |rows| ensures Readable(s, Cache(s, cols), 0, |rows[k].cells|)
        && ByIndex(s, Empty(s), rows[k], get, Cache(s, cols), 0) == ByName(s, Empty(s), rows[k], get)
      {
        CachedIsByName(s, Empty(s), rows[k], get);
      }
      assert |rows[0].cells| == |cols|;
    }
  }
}
