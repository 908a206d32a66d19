/**
 The symbol table of the dbug profile analyzer: a binary search tree in an array, in which a child always
 comes after its parent.  Names are compared as strcmp compares them.
 */
module ProfileTree {

  const MAXPROCS: nat := 10000     // also the absent child

  datatype Node = Node(lchild: nat, rchild: nat, pos: nat)

  // ---------- the order of names ----------

  predicate Less(a: string, b: string) {
    if b == "" then false
    else if a == "" then true
    else a[0] < b[0] || (a[0] == b[0] && Less(a[1..], b[1..]))
  }

  lemma {:induction false} LessTotal(a: string, b: string)
    ensures Less(a, b) || Less(b, a) || a == b
    ensures !(Less(a, b) && Less(b, a)) && !Less(a, a)
  {
    if a != "" && b != "" {
      LessTotal(a[1..], b[1..]);
      LessTotal(a[1..], a[1..]);
      if a[0] == b[0] && a[1..] == b[1..] { assert a == [a[0]] + a[1..] == b; }
    } else if a != "" {
      LessTotal(a[1..], a[1..]);
    }
  }

  lemma {:induction false} LessTrans(a: string, b: string, c: string)
    requires Less(a, b) && Less(b, c)
    ensures Less(a, c)
  {
    if a != "" && a[0] == b[0] && b[0] == c[0] { LessTrans(a[1..], b[1..], c[1..]); }
  }

  // ---------- the tree ----------

  predicate ChildOk(t: seq<Node>, i: nat, c: nat) { c == MAXPROCS || i < c < |t| }

  predicate Shape(t: seq<Node>) {
    && |t| <= MAXPROCS
    && forall i :: 0 <= i < |t| ==> t[i].pos == i && ChildOk(t, i, t[i].lchild) && ChildOk(t, i, t[i].rchild)
  }

  // The in-order listing of the subtree at r.
  function InOrder(t: seq<Node>, r: nat): seq<nat>
    requires Shape(t)
    decreases |t| - r
  {
    if r >= |t| then [] else InOrder(t, t[r].lchild) + [r] + InOrder(t, t[r].rchild)
  }

  predicate Sorted(names: seq<string>, list: seq<nat>) {
    && (forall k :: 0 <= k < |list| ==> list[k] < |names|)
    && forall j, k :: 0 <= j < k < |list| ==> Less(names[list[j]], names[list[k]])
  }

  predicate TableOk(t: seq<Node>, names: seq<string>) {
    && Shape(t) && |t| == |names|
    && Sorted(names, InOrder(t, 0))
    && forall i :: 0 <= i < |t| ==> i in InOrder(t, 0)
  }

  lemma {:induction false} InOrderRange(t: seq<Node>, r: nat)
    requires Shape(t)
    ensures forall i :: i in InOrder(t, r) ==> r <= i < |t|
    decreases |t| - r
  {
    if r < |t| {
      InOrderRange(t, t[r].lchild);
      InOrderRange(t, t[r].rchild);
    }
  }

  // The parts of a sorted listing are sorted and bounded by the node between them.
  lemma SortedParts(names: seq<string>, a: seq<nat>, r: nat, b: seq<nat>)
    requires Sorted(names, a + [r] + b)
    ensures r < |names| && Sorted(names, a) && Sorted(names, b)
    ensures forall i :: i in a ==> i < |names| && Less(names[i], names[r])
    ensures forall i :: i in b ==> i < |names| && Less(names[r], names[i])
  {
    var s := a + [r] + b;
    assert s[|a|] == r;
    forall k | 0 <= k < |a| ensures a[k] == s[k] && Less(names[a[k]], names[r]) {}
    forall k | 0 <= k < |b| ensures b[k] == s[|a| + 1 + k] && Less(names[r], names[b[k]]) {}
  }

  lemma SortedJoin(names: seq<string>, a: seq<nat>, r: nat, b: seq<nat>)
    requires r < |names| && Sorted(names, a) && Sorted(names, b)
    requires forall i :: i in a ==> i < |names| && Less(names[i], names[r])
    requires forall i :: i in b ==> i < |names| && Less(names[r], names[i])
    ensures Sorted(names, a + [r] + b)
  {
    var s := a + [r] + b;
    forall j, k | 0 <= j < k < |s| ensures Less(names[s[j]], names[s[k]]) {
      if j < |a| { assert s[j] in a; }
      if k > |a| { assert s[k] in b; }
      if j < |a| && k > |a| { LessTrans(names[s[j]], names[r], names[s[k]]); }
    }
  }

  // ---------- searching ----------

  datatype Where = Found(ind: nat) | Absent(parent: nat, left: bool)

  function Search(t: seq<Node>, names: seq<string>, name: string, ind: nat): (w: Where)
    requires Shape(t) && |t| == |names| && ind < |t|
    ensures w.Found? ==> ind <= w.ind < |t| && names[w.ind] == name
    ensures w.Absent? ==> ind <= w.parent < |t| && (if w.left then t[w.parent].lchild else t[w.parent].rchild) == MAXPROCS
    decreases |t| - ind
  {
    if name == names[ind] then Found(ind)
    else if Less(name, names[ind]) then
      if t[ind].lchild == MAXPROCS then Absent(ind, true) else Search(t, names, name, t[ind].lchild)
    else
      if t[ind].rchild == MAXPROCS then Absent(ind, false) else Search(t, names, name, t[ind].rchild)
  }

  // A new node under `parent`.
  function Grow(t: seq<Node>, parent: nat, left: bool): seq<Node>
    requires parent < |t|
  {
    var p := t[parent];
    t[parent := if left then p.(lchild := |t|) else p.(rchild := |t|)] + [Node(MAXPROCS, MAXPROCS, |t|)]
  }

  // A subtree that does not hold the parent is as before.
  lemma {:induction false} GrowElsewhere(t: seq<Node>, parent: nat, left: bool, r: nat)
    requires Shape(t) && parent < |t| < MAXPROCS && Shape(Grow(t, parent, left))
    requires parent !in InOrder(t, r) && r != |t|
    ensures InOrder(Grow(t, parent, left), r) == InOrder(t, r)
    decreases |t| - r
  {
    if r < |t| {
      var l, rr := t[r].lchild, t[r].rchild;
      assert r in InOrder(t, r);
      assert forall i :: i in InOrder(t, l) || i in InOrder(t, rr) ==> i in InOrder(t, r);
      GrowElsewhere(t, parent, left, l);
      GrowElsewhere(t, parent, left, rr);
    }
  }

  // `grown` lists a subtree with the new index added.
  ghost predicate Grew(names: seq<string>, name: string, list: seq<nat>, grown: seq<nat>) {
    && Sorted(names + [name], grown)
    && forall i :: i in grown <==> i in list || i == |names|
  }

  lemma GrewLeft(names: seq<string>, name: string, a: seq<nat>, r: nat, b: seq<nat>, a': seq<nat>)
    requires Sorted(names, a + [r] + b) && Grew(names, name, a, a') && r < |names| && Less(name, names[r])
    ensures Grew(names, name, a + [r] + b, a' + [r] + b)
  {
    SortedParts(names, a, r, b);
    SortedMore(names, name, b);
    SortedJoin(names + [name], a', r, b);
  }

  lemma GrewRight(names: seq<string>, name: string, a: seq<nat>, r: nat, b: seq<nat>, b': seq<nat>)
    requires Sorted(names, a + [r] + b) && Grew(names, name, b, b') && r < |names| && Less(names[r], name)
    ensures Grew(names, name, a + [r] + b, a + [r] + b')
  {
    SortedParts(names, a, r, b);
    SortedMore(names, name, a);
    SortedJoin(names + [name], a, r, b');
  }

  // The parent is on the side the search went, so the other side is as before.
  lemma OtherSide(names: seq<string>, a: seq<nat>, r: nat, b: seq<nat>, parent: nat)
    requires Sorted(names, a + [r] + b)
    ensures parent in a || parent == r ==> parent !in b
    ensures parent in b || parent == r ==> parent !in a
  {
    SortedParts(names, a, r, b);
    if parent < |names| { LessTotal(names[parent], names[r]); }
    LessTotal(names[r], names[r]);
  }

  lemma ShapeGrown(t: seq<Node>, parent: nat, left: bool)
    requires Shape(t) && parent < |t| < MAXPROCS && (if left then t[parent].lchild else t[parent].rchild) == MAXPROCS
    ensures Shape(Grow(t, parent, left)) && InOrder(Grow(t, parent, left), |t|) == [|t|]
  {
  }

  /** Hanging a new name where the search for it ended puts it where it belongs in the listing. */
  lemma {:induction false} GrowSorted(t: seq<Node>, names: seq<string>, name: string, r: nat)
    requires Shape(t) && |t| == |names| && r < |t| < MAXPROCS && Sorted(names, InOrder(t, r))
    requires Search(t, names, name, r).Absent?
    ensures var w := Search(t, names, name, r);
            var t' := Grow(t, w.parent, w.left);
            Shape(t') && w.parent in InOrder(t, r) && Grew(names, name, InOrder(t, r), InOrder(t', r))
    decreases |t| - r
  {
    hide Less, Grew, Sorted;
    var w := Search(t, names, name, r);
    var t', n := Grow(t, w.parent, w.left), |t|;
    ShapeGrown(t, w.parent, w.left);
    var l, rr := t[r].lchild, t[r].rchild;
    var a, b := InOrder(t, l), InOrder(t, rr);
    SortedParts(names, a, r, b);
    LessTotal(name, names[r]);
    OtherSide(names, a, r, b, w.parent);
    GrewNothing(names, name);
    if Less(name, names[r]) {
      if l != MAXPROCS { GrowSorted(t, names, name, l); }
      var l' := if l == MAXPROCS then n else l;
      GrowElsewhere(t, w.parent, w.left, rr);
      assert InOrder(t', r) == InOrder(t', l') + [r] + b;
      GrewLeft(names, name, a, r, b, InOrder(t', l'));
    } else {
      if rr != MAXPROCS { GrowSorted(t, names, name, rr); }
      var r' := if rr == MAXPROCS then n else rr;
      GrowElsewhere(t, w.parent, w.left, l);
      assert InOrder(t', r) == a + [r] + InOrder(t', r');
      GrewRight(names, name, a, r, b, InOrder(t', r'));
    }
  }

  lemma GrewNothing(names: seq<string>, name: string)
    ensures Grew(names, name, [], [|names|])
  {
  }

  lemma SortedMore(names: seq<string>, name: string, list: seq<nat>)
    requires Sorted(names, list)
    ensures Sorted(names + [name], list)
  {
  }

  /** A search that ends without finding the name means it is not in the table. */
  lemma {:induction false} AbsentMeansNew(t: seq<Node>, names: seq<string>, name: string, r: nat)
    requires Shape(t) && |t| == |names| && r < |t| && Sorted(names, InOrder(t, r))
    requires Search(t, names, name, r).Absent?
    ensures forall i :: i in InOrder(t, r) ==> i < |names| && names[i] != name
    decreases |t| - r
  {
    var l, rr := t[r].lchild, t[r].rchild;
    SortedParts(names, InOrder(t, l), r, InOrder(t, rr));
    LessTotal(name, names[r]);
    if Less(name, names[r]) {
      if l != MAXPROCS { AbsentMeansNew(t, names, name, l); }
    } else {
      if rr != MAXPROCS { AbsentMeansNew(t, names, name, rr); }
    }
  }

  /** add keeps the table a search tree that lists every name once, in increasing order. */
  lemma GrowTable(t: seq<Node>, names: seq<string>, name: string)
    requires TableOk(t, names) && 0 < |t| < MAXPROCS && Search(t, names, name, 0).Absent?
    ensures var w := Search(t, names, name, 0); TableOk(Grow(t, w.parent, w.left), names + [name])
    ensures name !in names
  {
    GrowSorted(t, names, name, 0);
    AbsentMeansNew(t, names, name, 0);
  }
}
