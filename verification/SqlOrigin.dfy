/**
 Where the values bound for a SELECT come from: the traversal with the path of every leaf, and when each
 placeholder gets the field at the top that its WHERE column names.
 */
module SqlOrigin {
  import opened Sql

  // A leaf and the positions of the fields on the way to it.
  datatype Spot = Spot(path: seq<nat>, leaf: Leaf)

  function FieldSpots(f: Field, path: seq<nat>): seq<Spot>
    decreases f
  {
    if f.repeated || !f.present then []
    else if f.kind.Sub? then Spots(f.kind.message, path)
    else [Spot(path, Leaf(f.name, f.kind.ty, f.kind.value))]
  }

  function SpotsTo(m: Message, i: nat, pre: seq<nat>): seq<Spot>
    requires i <= |m.fields|
    decreases m, i
  {
    if i == 0 then [] else SpotsTo(m, i - 1, pre) + FieldSpots(m.fields[i - 1], pre + [i - 1])
  }

  function Spots(m: Message, pre: seq<nat>): seq<Spot>
    decreases m, |m.fields| + 1
  {
    SpotsTo(m, |m.fields|, pre)
  }

  function LeavesOf(spots: seq<Spot>): (r: seq<Leaf>)
    ensures |r| == |spots| && forall k :: 0 <= k < |spots| ==> r[k] == spots[k].leaf
  {
    seq(|spots|, k requires 0 <= k < |spots| => spots[k].leaf)
  }

  // The spots whose values are bound for these names.
  function Picked(spots: seq<Spot>, names: seq<string>): seq<Spot> {
    if spots == [] then []
    else
      var last := spots[|spots| - 1];
      Picked(spots[..|spots| - 1], names) + if last.leaf.name in names && Bindable(last.leaf.ty) then [last] else []
  }

  lemma LeavesOfAppend(a: seq<Spot>, b: seq<Spot>)
    ensures LeavesOf(a + b) == LeavesOf(a) + LeavesOf(b)
  {
  }

  // The spots are those of the leaves collected.
  lemma {:induction false} FieldSpotsAre(f: Field, path: seq<nat>)
    ensures LeavesOf(FieldSpots(f, path)) == FieldLeaves(f)
    decreases f
  {
    if !f.repeated && f.present && f.kind.Sub? { SpotsAre(f.kind.message, |f.kind.message.fields|, path); }
  }

  lemma {:induction false} SpotsAre(m: Message, i: nat, pre: seq<nat>)
    requires i <= |m.fields|
    ensures LeavesOf(SpotsTo(m, i, pre)) == LeavesTo(m, i)
    decreases m, i
  {
    if i > 0 {
      SpotsAre(m, i - 1, pre);
      FieldSpotsAre(m.fields[i - 1], pre + [i - 1]);
      LeavesOfAppend(SpotsTo(m, i - 1, pre), FieldSpots(m.fields[i - 1], pre + [i - 1]));
    }
  }

  /** The values picked are those ParseSelect binds. */
  lemma {:induction false} PickedAre(spots: seq<Spot>, names: seq<string>)
    ensures LeavesOf(Picked(spots, names)) == Keep(Bound(LeavesOf(spots)), names)
  {
    if spots == [] {
      BoundNothing();
    } else {
      var init, last := spots[..|spots| - 1], spots[|spots| - 1];
      var one := if last.leaf.name in names && Bindable(last.leaf.ty) then [last] else [];
      PickedAre(init, names);
      assert spots == init + [last];
      LeavesOfAppend(init, [last]);
      LeavesOfAppend(Picked(init, names), one);
      assert LeavesOf([last]) == [last.leaf];
      BoundAppend(LeavesOf(init), [last.leaf]);
      BoundOne(last.leaf);
      KeepAppend(Bound(LeavesOf(init)), Bound([last.leaf]), names);
      KeepOne(last.leaf, names);
      KeepNothing(names);
      hide Bound, Keep;
      assert LeavesOf(one) == Keep(Bound([last.leaf]), names);
    }
  }

  lemma {:induction false} PickedHas(spots: seq<Spot>, names: seq<string>, x: Spot)
    ensures x in Picked(spots, names) <==> x in spots && x.leaf.name in names && Bindable(x.leaf.ty)
  {
    if spots != [] {
      PickedHas(spots[..|spots| - 1], names, x);
      assert spots == spots[..|spots| - 1] + [spots[|spots| - 1]];
    }
  }

  // A path goes through the field it was collected from.
  lemma {:induction false} PathOfField(f: Field, path: seq<nat>, x: Spot)
    requires x in FieldSpots(f, path)
    ensures path <= x.path && (f.kind.Sub? ==> |x.path| > |path|)
    ensures f.kind.Scalar? ==> x.path == path && x.leaf == Leaf(f.name, f.kind.ty, f.kind.value)
    ensures f.present && !f.repeated
    decreases f
  {
    if f.kind.Sub? {
      var m := f.kind.message;
      var i := PathTo(m, |m.fields|, path, x);
      assert |path + [i]| <= |x.path|;
    }
  }

  lemma {:induction false} PathTo(m: Message, i: nat, pre: seq<nat>, x: Spot) returns (k: nat)
    requires i <= |m.fields| && x in SpotsTo(m, i, pre)
    ensures k < i && x in FieldSpots(m.fields[k], pre + [k]) && pre + [k] <= x.path
    decreases m, i
  {
    if x in FieldSpots(m.fields[i - 1], pre + [i - 1]) {
      k := i - 1;
      PathOfField(m.fields[k], pre + [k], x);
    } else {
      k := PathTo(m, i - 1, pre, x);
    }
  }

  lemma {:induction false} FieldIn(m: Message, i: nat, pre: seq<nat>, k: nat, x: Spot)
    requires k < i <= |m.fields| && x in FieldSpots(m.fields[k], pre + [k])
    ensures x in SpotsTo(m, i, pre)
    decreases i
  {
    if k < i - 1 { FieldIn(m, i - 1, pre, k, x); }
  }

  /** The j-th placeholder gets the value of the field at the top that the j-th WHERE column names. */
  predicate BindsColumns(m: Message, keys: seq<string>) {
    var valid := ValidKeys(m, keys);
    var picked := Picked(Spots(m, []), valid);
    && |picked| == |valid|
    && forall j :: 0 <= j < |valid| ==> AtTop(m, picked[j], valid[j])
  }

  predicate AtTop(m: Message, x: Spot, name: string) {
    |x.path| == 1 && x.path[0] < |m.fields| && m.fields[x.path[0]].name == name
  }

  // When everything bound is at the top, nothing below shares a name.
  lemma NothingBelow(m: Message, d: nat, names: seq<string>)
    requires d < |m.fields| && m.fields[d].kind.Sub?
    requires forall x :: x in Picked(Spots(m, []), names) ==> |x.path| == 1
    ensures NoneNamed(m.fields[d], names)
  {
    var f := m.fields[d];
    var path := [] + [d];
    var spots, below := FieldSpots(f, path), Bound(FieldLeaves(f));
    FieldSpotsAre(f, path);
    hide Picked, Bound;
    forall k | 0 <= k < |below| ensures below[k].name !in names {
      assert below[k] in below;
      BoundIn(LeavesOf(spots), below[k]);
      var j :| 0 <= j < |spots| && LeavesOf(spots)[j] == below[k];
      var x := spots[j];
      PathOfField(f, path, x);
      FieldIn(m, |m.fields|, [], d, x);
      PickedHas(Spots(m, []), names, x);
    }
  }

  lemma {:induction false} BoundIn(leaves: seq<Leaf>, leaf: Leaf)
    ensures leaf in Bound(leaves) <==> leaf in leaves && Bindable(leaf.ty)
  {
    if leaves != [] {
      BoundIn(Butlast(leaves), leaf);
      assert leaves == Butlast(leaves) + [Last(leaves)];
    }
  }

  // A spot at the top is the scalar it leads to.
  lemma TopSpot(m: Message, x: Spot)
    requires x in Spots(m, [])
    ensures x.path != [] && x.path[0] < |m.fields|
    ensures |x.path| == 1 <==> m.fields[x.path[0]].kind.Scalar?
    ensures |x.path| == 1 ==> x.leaf.name == m.fields[x.path[0]].name
    ensures x in FieldSpots(m.fields[x.path[0]], [x.path[0]])
  {
    var k := PathTo(m, |m.fields|, [], x);
    assert [] + [k] == [k];
    PathOfField(m.fields[k], [k], x);
  }

  /** Exactly when: each key found at the top is given once and names a scalar with a binder, and no bindable leaf
      below the top has the name of such a key. */
  lemma SelectBinds(m: Message, keys: seq<string>)
    requires UniqueFields(m)
    ensures BindsColumns(m, keys) <==> KeysAreColumns(m, keys) && Unshadowed(m, keys)
  {
    var valid := ValidKeys(m, keys);
    PickedNames(m, valid);
    hide ValidKeys, KeysAreColumns;
    if BindsColumns(m, keys) {
      BoundAtTop(m, keys);
    }
    if KeysAreColumns(m, keys) && Unshadowed(m, keys) {
      ColumnsBound(m, keys);
    }
  }

  // The names of the values picked.
  lemma PickedNames(m: Message, names: seq<string>)
    ensures var picked := Picked(Spots(m, []), names);
            && |NamesOf(Keep(Bound(Leaves(m)), names))| == |picked|
            && forall j :: 0 <= j < |picked| ==> NamesOf(Keep(Bound(Leaves(m)), names))[j] == picked[j].leaf.name
  {
    SpotsAre(m, |m.fields|, []);
    PickedAre(Spots(m, []), names);
    hide Keep, Bound, Picked, Leaves;
  }

  lemma BoundAtTop(m: Message, keys: seq<string>)
    requires UniqueFields(m) && BindsColumns(m, keys)
    ensures KeysAreColumns(m, keys) && Unshadowed(m, keys)
  {
    var valid := ValidKeys(m, keys);
    var picked := Picked(Spots(m, []), valid);
    hide ValidKeys, KeysAreColumns, Picked, NoneNamed;
    forall x | x in picked ensures |x.path| == 1 {
      var j :| 0 <= j < |picked| && picked[j] == x;
      assert AtTop(m, picked[j], valid[j]);
    }
    forall d | 0 <= d < |m.fields| && m.fields[d].kind.Sub? ensures NoneNamed(m.fields[d], valid) {
      NothingBelow(m, d, valid);
    }
    PickedNames(m, valid);
    forall j | 0 <= j < |valid| ensures NamesOf(Keep(Bound(Leaves(m)), valid))[j] == valid[j] {
      assert AtTop(m, picked[j], valid[j]) && picked[j] in picked;
      PickedHas(Spots(m, []), valid, picked[j]);
      TopSpot(m, picked[j]);
    }
    hide Keep, Bound, NamesOf, Leaves, Spots;
    AlignedCounts(m, keys);
    AlignedColumns(m, keys);
  }

  lemma ColumnsBound(m: Message, keys: seq<string>)
    requires UniqueFields(m) && KeysAreColumns(m, keys) && Unshadowed(m, keys)
    ensures BindsColumns(m, keys)
  {
    var valid := ValidKeys(m, keys);
    var picked := Picked(Spots(m, []), valid);
    ColumnsInOrder(m, keys, |m.fields|);
    PickedNames(m, valid);
    hide ValidKeys, KeysAreColumns, Picked, Keep, Bound, NamesOf, Leaves;
    forall j | 0 <= j < |valid| ensures AtTop(m, picked[j], valid[j]) {
      var x := picked[j];
      assert x in picked;
      PickedHas(Spots(m, []), valid, x);
      TopSpot(m, x);
      if m.fields[x.path[0]].kind.Sub? {
        NotBelow(m, x.path[0], valid, x);
      }
    }
  }

  lemma NotBelow(m: Message, d: nat, names: seq<string>, x: Spot)
    requires d < |m.fields| && x in FieldSpots(m.fields[d], [d]) && x.leaf.name in names && Bindable(x.leaf.ty)
    ensures !NoneNamed(m.fields[d], names)
  {
    var f := m.fields[d];
    FieldSpotsAre(f, [d]);
    var j :| 0 <= j < |FieldSpots(f, [d])| && FieldSpots(f, [d])[j] == x;
    assert LeavesOf(FieldSpots(f, [d]))[j] == x.leaf;
    BoundIn(FieldLeaves(f), x.leaf);
  }

  /** Then the names are aligned as well; but not the other way round. */
  lemma BindsMeansAligned(m: Message, table: string, keys: seq<string>)
    requires UniqueFields(m) && Quotable(table) && PlainNames(ValidKeys(m, keys)) && BindsColumns(m, keys)
    ensures SelectIsAligned(m, table, keys)
  {
    SelectBinds(m, keys);
    SelectExact(m, table, keys);
  }

  lemma NestedUnique()
    ensures UniqueFields(NESTED)
  {
    assert |NESTED.fields| == 2 && NESTED.fields[0].name == "id" && NESTED.fields[1].name == "part";
    assert "id" != "part" by { assert |"id"| == 2 && |"part"| == 4; }
  }

  /** There the second placeholder gets a value from below. */
  lemma CoincidenceMisbinds(table: string)
    requires Quotable(table)
    ensures SelectIsAligned(NESTED, table, ["id", "id"]) && !BindsColumns(NESTED, ["id", "id"])
  {
    SelectCoincides(table);
    NestedUnique();
    hide *;
    SelectBinds(NESTED, ["id", "id"]);
  }
}
