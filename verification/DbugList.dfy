/**
 The lists of names in a dbug control string: functions, keywords and processes.

 A linked list is a sequence; `included`, `excluded` and `subdir` are the bits of link.flags.  The glob
 match fnmatch is any predicate on a pattern and a name.
 */
module DbugList {

  datatype Link = Link(str: string, subdir: bool, included: bool, excluded: bool)

  datatype Todo = Include | Exclude

  type Pattern = (string, string) -> bool

  // isseparator: a comma or one of the six characters of isspace.
  predicate IsSeparator(c: char) { c == ',' || c == ' ' || ('\t' <= c <= '\r') }

  // ---------- the names in a comma separated list ----------

  function TokenEnd(t: string, i: nat): (e: nat)
    requires i <= |t|
    ensures i <= e <= |t|
    ensures forall k :: i <= k < e ==> !IsSeparator(t[k])
    ensures e == |t| || IsSeparator(t[e])
    decreases |t| - i
  {
    if i == |t| || IsSeparator(t[i]) then i else TokenEnd(t, i + 1)
  }

  // A token names itself; one trailing slash asks for the functions called from it as well.
  function Named(token: string): (string, bool)
    requires token != ""
  {
    if token[|token| - 1] == '/' then (token[..|token| - 1], true) else (token, false)
  }

  function Names(t: string): (names: seq<(string, bool)>)
    decreases |t|
  {
    if t == "" then []
    else if IsSeparator(t[0]) then Names(t[1..])
    else
      var e := TokenEnd(t, 0);
      var name := Named(t[..e]);
      (if name.0 == "" then [] else [name]) + Names(t[e..])
  }

  // ---------- adding and removing ----------

  predicate Has(link: Link, todo: Todo) { if todo == Include then link.included else link.excluded }

  function NewLink(name: (string, bool), todo: Todo): Link {
    Link(name.0, name.1, todo == Include, todo == Exclude)
  }

  function Changed(link: Link, subdir: bool, todo: Todo): seq<Link> {
    if Has(link, todo) then [link.(subdir := link.subdir || subdir)]
    else if todo == Exclude then []
    else [link.(subdir := subdir, included := true, excluded := false)]
  }

  function AddDel(list: seq<Link>, name: (string, bool), todo: Todo): seq<Link> {
    if list == [] then [NewLink(name, todo)]
    else if list[0].str == name.0 then Changed(list[0], name.1, todo) + list[1..]
    else [list[0]] + AddDel(list[1..], name, todo)
  }

  function AddDelAll(list: seq<Link>, names: seq<(string, bool)>, todo: Todo): seq<Link>
    decreases |names|
  {
    if names == [] then list else AddDelAll(AddDel(list, names[0], todo), names[1..], todo)
  }

  lemma {:induction false} AddDelAt(list: seq<Link>, cur: nat, name: (string, bool), todo: Todo)
    requires cur <= |list| && (forall k :: 0 <= k < cur ==> list[k].str != name.0)
    requires cur < |list| ==> list[cur].str == name.0
    ensures AddDel(list, name, todo) ==
            if cur == |list| then list + [NewLink(name, todo)]
            else list[..cur] + Changed(list[cur], name.1, todo) + list[cur + 1..]
  {
    if cur > 0 {
      AddDelAt(list[1..], cur - 1, name, todo);
      if cur < |list| { assert list[..cur] == [list[0]] + list[1..][..cur - 1]; }
    }
  }

  lemma AddOne(list: seq<Link>, name: (string, bool), others: seq<(string, bool)>, todo: Todo)
    ensures AddDelAll(list, [name] + others, todo) == AddDelAll(AddDel(list, name, todo), others, todo)
  {
    assert ([name] + others)[1..] == others;
  }

  // The search for one name in the list, and what is done about it.
  method AddOrDelete(list: seq<Link>, name: (string, bool), todo: Todo) returns (r: seq<Link>)
    ensures r == AddDel(list, name, todo)
  {
    var cur := 0;
    while cur < |list| && list[cur].str != name.0
      invariant 0 <= cur <= |list|
      invariant forall k :: 0 <= k < cur ==> list[k].str != name.0
    {
      cur := cur + 1;
    }
    AddDelAt(list, cur, name, todo);
    r := if cur == |list| then list + [NewLink(name, todo)]
         else list[..cur] + Changed(list[cur], name.1, todo) + list[cur + 1..];
  }

  /** ListAddDel: the control text is scanned in place, and each name is looked up in the list. */
  method ListAddDel(head: seq<Link>, text: string, todo: Todo) returns (list: seq<Link>)
    ensures list == AddDelAll(head, Names(text), todo)
  {
    hide AddDel;
    list := head;
    var at := 0;
    while at < |text|
      invariant 0 <= at <= |text|
      invariant AddDelAll(list, Names(text[at..]), todo) == AddDelAll(head, Names(text), todo)
    {
      var rest := text[at..];
      if IsSeparator(text[at]) {
        assert rest[1..] == text[at + 1..];
        at := at + 1;
        continue;
      }
      var end := at;
      while end < |text| && !IsSeparator(text[end])
        invariant at <= end <= |text|
        invariant forall k :: at <= k < end ==> !IsSeparator(text[k])
      {
        end := end + 1;
      }
      assert TokenEnd(rest, 0) == end - at by {
        assert end < |text| ==> rest[end - at] == text[end];
        assert forall k :: 0 <= k < end - at ==> rest[k] == text[at + k];
      }
      assert rest[..end - at] == text[at..end] && rest[end - at..] == text[end..];
      var name := Named(text[at..end]);
      ghost var others := Names(text[end..]);
      assert Names(rest) == if name.0 == "" then others else [name] + others;
      if name.0 != "" {
        AddOne(list, name, others, todo);
        list := AddOrDelete(list, name, todo);
      }
      at := end;
    }
    assert text[at..] == "";
  }

  // ---------- what a list means ----------

  datatype Option<+T> = None | Some(value: T)

  // The entry under a name.
  function Find(list: seq<Link>, name: string): (r: Option<Link>)
    ensures r.Some? <==> exists k :: 0 <= k < |list| && list[k].str == name
    ensures r.Some? ==> r.value in list && r.value.str == name
  {
    if list == [] then None else if list[0].str == name then Some(list[0]) else Find(list[1..], name)
  }

  predicate GoodLink(link: Link) {
    && (link.included <==> !link.excluded)
    && link.str != "" && (forall k :: 0 <= k < |link.str| ==> !IsSeparator(link.str[k]))
    && (link.str[|link.str| - 1] == '/' ==> link.subdir)
  }

  // Names are unique, and each entry is exactly one of INCLUDE and EXCLUDE.
  predicate GoodList(list: seq<Link>) {
    && (forall k :: 0 <= k < |list| ==> GoodLink(list[k]))
    && (forall j, k :: 0 <= j < k < |list| ==> list[j].str != list[k].str)
  }

  predicate GoodName(name: (string, bool)) { GoodLink(NewLink(name, Include)) }

  lemma {:induction false} NamesGood(t: string)
    ensures forall k :: 0 <= k < |Names(t)| ==> GoodName(Names(t)[k])
    decreases |t|
  {
    if t != "" {
      if IsSeparator(t[0]) { NamesGood(t[1..]); } else { NamesGood(t[TokenEnd(t, 0)..]); }
    }
  }

  // What the comment on ListAddDel promises for one name.
  function Promised(old_: Option<Link>, name: (string, bool), todo: Todo): Option<Link> {
    match old_
    case None => Some(NewLink(name, todo))
    case Some(link) =>
      if todo == Include && link.included then Some(NewLink((name.0, link.subdir || name.1), Include))
      else if todo == Include then Some(NewLink(name, Include))
      else if link.excluded then Some(NewLink((name.0, link.subdir || name.1), Exclude))
      else None
  }

  /** Adding or deleting a name keeps a list good, does to that name what is promised, and nothing to others. */
  lemma {:induction false} AddDelSpec(list: seq<Link>, name: (string, bool), todo: Todo)
    requires GoodList(list) && GoodName(name)
    ensures GoodList(AddDel(list, name, todo))
    ensures forall n :: Find(AddDel(list, name, todo), n) ==
                        if n == name.0 then Promised(Find(list, n), name, todo) else Find(list, n)
  {
    if list != [] && list[0].str != name.0 {
      AddDelSpec(list[1..], name, todo);
      var rest := AddDel(list[1..], name, todo);
      assert Find(list[1..], list[0].str) == None;
      assert Find(rest, list[0].str) == None;
      forall k | 0 <= k < |rest| ensures rest[k].str != list[0].str { assert rest[k] in rest; }
    } else if list != [] {
      ChangeFirst(list, name, todo);
    }
  }

  lemma ChangeFirst(list: seq<Link>, name: (string, bool), todo: Todo)
    requires GoodList(list) && GoodName(name) && list != [] && list[0].str == name.0
    ensures GoodList(AddDel(list, name, todo))
    ensures forall n :: Find(AddDel(list, name, todo), n) ==
                        if n == name.0 then Promised(Find(list, n), name, todo) else Find(list, n)
  {
    assert Find(list[1..], name.0) == None;
    var changed := Changed(list[0], name.1, todo);
    if changed == [] {
      assert changed + list[1..] == list[1..];
    } else {
      assert (changed + list[1..])[1..] == list[1..];
    }
  }

  lemma {:induction false} AddDelAllGood(list: seq<Link>, names: seq<(string, bool)>, todo: Todo)
    requires GoodList(list) && forall k :: 0 <= k < |names| ==> GoodName(names[k])
    ensures GoodList(AddDelAll(list, names, todo))
    decreases |names|
  {
    if names != [] {
      AddDelSpec(list, names[0], todo);
      AddDelAllGood(AddDel(list, names[0], todo), names[1..], todo);
    }
  }

  /** Whatever the control text, ListAddDel keeps a list good. */
  lemma ListAddDelGood(list: seq<Link>, text: string, todo: Todo)
    requires GoodList(list)
    ensures GoodList(AddDelAll(list, Names(text), todo))
  {
    NamesGood(text);
    AddDelAllGood(list, Names(text), todo);
  }

  // ---------- names that keep a field in one piece ----------

  // Every colon is the first of "::", ":\\" or ":/", reading from the left: the scan for the end of a field
  // passes over the text.
  predicate Unsplit(t: string)
    decreases |t|
  {
    if t == "" then true
    else if t[0] != ':' then Unsplit(t[1..])
    else if |t| > 1 && (t[1] == '\\' || t[1] == '/') then Unsplit(t[1..])
    else |t| > 1 && t[1] == ':' && Unsplit(t[2..])
  }

  // An entry as it is written in a list.
  function Token(link: Link): string { if link.subdir then link.str + "/" else link.str }

  predicate TidyList(list: seq<Link>) { forall k :: 0 <= k < |list| ==> Unsplit(Token(list[k])) }

  predicate TidyName(name: (string, bool)) { Unsplit(Token(NewLink(name, Include))) }

  lemma {:induction false} UnsplitAppend(a: string, b: string)
    requires Unsplit(a)
    ensures Unsplit(a + b) <==> Unsplit(b)
    decreases |a|
  {
    var t := a + b;
    if a == "" {
      assert t == b;
    } else if a[0] == ':' && a[1] == ':' {
      assert t[2..] == a[2..] + b;
      UnsplitAppend(a[2..], b);
    } else {
      assert t[1..] == a[1..] + b;
      UnsplitAppend(a[1..], b);
    }
  }

  lemma TakeDrop(t: string, i: nat, e: nat)
    requires i <= e <= |t|
    ensures t[..e][i..] == t[i..][..e - i] && t[e..] == t[i..][e - i..]
  {
    var a, b := t[..e][i..], t[i..][..e - i];
    assert |a| == |b| && forall j :: 0 <= j < |a| ==> a[j] == t[i + j] == b[j];
  }

  // A separator is never the second of a pair.
  lemma {:induction false} UnsplitCut(t: string, e: nat)
    requires Unsplit(t) && e <= |t| && (e < |t| ==> IsSeparator(t[e]))
    ensures Unsplit(t[..e]) && Unsplit(t[e..])
    decreases |t|
  {
    if e == 0 {
      assert t[..0] == "" && t[0..] == t;
    } else {
      var step := if t[0] == ':' && t[1] == ':' then 2 else 1;
      assert step <= e && (t[0] == ':' ==> e >= 2);
      UnsplitCut(t[step..], e - step);
      TakeDrop(t, step, e);
      var head := t[..e];
      assert head[0] == t[0] && (t[0] == ':' ==> head[1] == t[1]);
    }
  }

  lemma {:induction false} NamesTidy(t: string)
    requires Unsplit(t)
    ensures forall k :: 0 <= k < |Names(t)| ==> TidyName(Names(t)[k])
    decreases |t|
  {
    if t != "" {
      if IsSeparator(t[0]) {
        NamesTidy(t[1..]);
      } else {
        var e := TokenEnd(t, 0);
        UnsplitCut(t, e);
        NamesTidy(t[e..]);
        var token, name := t[..e], Named(t[..e]);
        assert token[|token| - 1] == '/' ==> token == token[..|token| - 1] + "/";
        assert Token(NewLink(name, Include)) == token;
      }
    }
  }

  lemma {:induction false} AddDelTidy(list: seq<Link>, name: (string, bool), todo: Todo)
    requires TidyList(list) && TidyName(name)
    ensures TidyList(AddDel(list, name, todo))
  {
    if list != [] {
      assert Unsplit(Token(list[0]));
      if list[0].str == name.0 {
        var changed := Changed(list[0], name.1, todo);
        assert changed != [] ==> Token(changed[0]) == Token(list[0]) || Token(changed[0]) == Token(NewLink(name, Include));
      } else {
        AddDelTidy(list[1..], name, todo);
      }
    }
  }

  lemma {:induction false} AddDelAllTidy(list: seq<Link>, names: seq<(string, bool)>, todo: Todo)
    requires TidyList(list) && forall k :: 0 <= k < |names| ==> TidyName(names[k])
    ensures TidyList(AddDelAll(list, names, todo))
    decreases |names|
  {
    if names != [] {
      AddDelTidy(list, names[0], todo);
      AddDelAllTidy(AddDel(list, names[0], todo), names[1..], todo);
    }
  }

  // ---------- copies ----------

  function Reversed(list: seq<Link>): (r: seq<Link>)
    ensures |r| == |list| && forall k :: 0 <= k < |list| ==> r[k] == list[|list| - 1 - k]
  {
    if list == [] then [] else Reversed(list[1..]) + [list[0]]
  }

  /** ListCopy: each link is added at the head, so the copy comes out reversed. */
  method ListCopy(orig: seq<Link>) returns (head: seq<Link>)
    ensures head == Reversed(orig)
  {
    head := [];
    var k := 0;
    while k < |orig|
      invariant 0 <= k <= |orig| && |head| == k
      invariant forall j :: 0 <= j < k ==> head[j] == orig[k - 1 - j]
    {
      head := [orig[k]] + head;
      k := k + 1;
    }
  }

  /** A copy has the same entries under the same names.  Which entry a pattern match meets first can change:
      CopyReadsSame. */
  lemma CopyMeansSame(list: seq<Link>)
    requires GoodList(list)
    ensures GoodList(Reversed(list)) && forall n :: Find(Reversed(list), n) == Find(list, n)
  {
    forall x | x in list ensures x in Reversed(list) {
      var k :| 0 <= k < |list| && list[k] == x;
      assert Reversed(list)[|list| - 1 - k] == x;
    }
    forall n ensures Find(Reversed(list), n) == Find(list, n) {
      SameEntries(list, Reversed(list), n);
    }
  }

  // Lists with the same entries, each name once, agree on every name.
  lemma SameEntries(a: seq<Link>, b: seq<Link>, name: string)
    requires GoodList(a) && GoodList(b)
    requires (forall x :: x in a ==> x in b) && (forall x :: x in b ==> x in a)
    ensures Find(a, name) == Find(b, name)
  {
    if Find(a, name).Some? {
      var x := Find(a, name).value;
      assert x in b;
    }
    if Find(b, name).Some? {
      var y := Find(b, name).value;
      assert y in a;
    }
  }

  // ---------- flags and matching ----------

  datatype Flags = Flags(subdir: bool, included: bool, excluded: bool)

  function ListFlags(list: seq<Link>): (f: Flags)
    ensures f.subdir <==> exists k :: 0 <= k < |list| && list[k].subdir
    ensures f.included <==> exists k :: 0 <= k < |list| && list[k].included
    ensures f.excluded <==> exists k :: 0 <= k < |list| && list[k].excluded
  {
    if list == [] then Flags(false, false, false)
    else
      var f := ListFlags(list[1..]);
      Flags(f.subdir || list[0].subdir, f.included || list[0].included, f.excluded || list[0].excluded)
  }

  function FlagsOf(link: Link): Flags { Flags(link.subdir, link.included, link.excluded) }

  // InList yields the flags of the first entry that matches; for a name that nothing matches, `matched`
  // says whether an unlisted name counts as listed.
  datatype Found = Entry(flags: Flags) | Unlisted(matched: bool, subdir: bool)

  predicate FirstAt(list: seq<Link>, cp: string, fnmatch: Pattern, k: nat) {
    k < |list| && fnmatch(list[k].str, cp) && forall j :: 0 <= j < k ==> !fnmatch(list[j].str, cp)
  }

  predicate LastAt(list: seq<Link>, cp: string, fnmatch: Pattern, k: nat) {
    k < |list| && fnmatch(list[k].str, cp) && forall j :: k < j < |list| ==> !fnmatch(list[j].str, cp)
  }

  predicate NoMatch(list: seq<Link>, cp: string, fnmatch: Pattern) {
    forall k :: 0 <= k < |list| ==> !fnmatch(list[k].str, cp)
  }

  predicate AllExcluded(list: seq<Link>) { forall k :: 0 <= k < |list| ==> list[k].excluded }

  // An entry that is not excluded clears the SUBDIR bit collected before it.
  predicate SubdirThenExcluded(list: seq<Link>, k: nat) {
    k < |list| && list[k].subdir && forall j :: k < j < |list| ==> list[j].excluded
  }

  predicate ExcludedThenSubdir(list: seq<Link>, k: nat) {
    k < |list| && list[k].subdir && forall j :: 0 <= j < k ==> list[j].excluded
  }

  ghost predicate TrailingSubdir(list: seq<Link>) { exists k: nat :: SubdirThenExcluded(list, k) }

  ghost predicate LeadingSubdir(list: seq<Link>) { exists k: nat :: ExcludedThenSubdir(list, k) }

  function InList(list: seq<Link>, cp: string, fnmatch: Pattern): Found {
    if list == [] then Unlisted(true, false)
    else if fnmatch(list[0].str, cp) then Entry(FlagsOf(list[0]))
    else
      match InList(list[1..], cp, fnmatch)
      case Entry(flags) => Entry(flags)
      case Unlisted(m, subdir) => Unlisted(m && list[0].excluded, subdir || (m && list[0].subdir))
  }

  method SearchList(list: seq<Link>, cp: string, fnmatch: Pattern) returns (r: Found)
    ensures r == InList(list, cp, fnmatch)
  {
    var matched, subdir := true, false;
    var k := 0;
    while k < |list|
      invariant 0 <= k <= |list|
      invariant InList(list, cp, fnmatch) ==
                match InList(list[k..], cp, fnmatch)
                case Entry(flags) => Entry(flags)
                case Unlisted(m, sub) => Unlisted(m && matched, sub || (m && subdir))
    {
      if fnmatch(list[k].str, cp) { return Entry(FlagsOf(list[k])); }
      if !list[k].excluded { matched, subdir := false, false; }
      if list[k].subdir { subdir := true; }
      assert list[k..][1..] == list[k + 1..];
      k := k + 1;
    }
    r := Unlisted(matched, subdir);
  }

  // The flags of the first and of the last entry that matches.
  function First(list: seq<Link>, cp: string, fnmatch: Pattern): (r: Option<Flags>)
    ensures r.Some? ==> exists k: nat :: FirstAt(list, cp, fnmatch, k) && r.value == FlagsOf(list[k])
    ensures r.None? <==> NoMatch(list, cp, fnmatch)
  {
    if list == [] then None
    else if fnmatch(list[0].str, cp) then
      assert FirstAt(list, cp, fnmatch, 0);
      Some(FlagsOf(list[0]))
    else
      assert forall k: nat :: FirstAt(list[1..], cp, fnmatch, k) ==> FirstAt(list, cp, fnmatch, k + 1);
      First(list[1..], cp, fnmatch)
  }

  function Last(list: seq<Link>, cp: string, fnmatch: Pattern): (r: Option<Flags>)
    ensures r.Some? ==> exists k: nat :: LastAt(list, cp, fnmatch, k) && r.value == FlagsOf(list[k])
    ensures r.None? <==> NoMatch(list, cp, fnmatch)
  {
    if list == [] then None
    else
      match Last(list[1..], cp, fnmatch)
      case Some(flags) =>
        assert forall k: nat :: LastAt(list[1..], cp, fnmatch, k) ==> LastAt(list, cp, fnmatch, k + 1);
        Some(flags)
      case None =>
        if fnmatch(list[0].str, cp) then
          assert LastAt(list, cp, fnmatch, 0);
          Some(FlagsOf(list[0]))
        else None
  }

  /** InList yields the flags of the first entry that matches; if none does, the name counts as listed when all
      entries are excluded, and SUBDIR is kept from entries that no other kind follows. */
  lemma {:induction false} InListFirst(list: seq<Link>, cp: string, fnmatch: Pattern)
    ensures match First(list, cp, fnmatch)
            case Some(flags) => InList(list, cp, fnmatch) == Entry(flags)
            case None => InList(list, cp, fnmatch) == Unlisted(AllExcluded(list), TrailingSubdir(list))
  {
    if list != [] && !fnmatch(list[0].str, cp) {
      InListFirst(list[1..], cp, fnmatch);
      if NoMatch(list, cp, fnmatch) { TrailingMore(list); }
    }
  }

  lemma TrailingMore(list: seq<Link>)
    requires list != []
    ensures TrailingSubdir(list) <==> TrailingSubdir(list[1..]) || (AllExcluded(list[1..]) && list[0].subdir)
  {
    var rest := list[1..];
    forall k: nat ensures SubdirThenExcluded(rest, k) <==> SubdirThenExcluded(list, k + 1) {
      if SubdirThenExcluded(rest, k) { assert forall j :: k + 1 < j < |list| ==> list[j] == rest[j - 1]; }
    }
    if TrailingSubdir(list) {
      var k: nat :| SubdirThenExcluded(list, k);
      if k > 0 { assert SubdirThenExcluded(rest, k - 1); }
    }
    if AllExcluded(rest) && list[0].subdir { assert SubdirThenExcluded(list, 0); }
  }

  // ---------- reading a copy ----------

  lemma {:induction false} FirstAppend(a: seq<Link>, x: Link, cp: string, fnmatch: Pattern)
    ensures First(a + [x], cp, fnmatch) ==
            if First(a, cp, fnmatch).Some? then First(a, cp, fnmatch)
            else if fnmatch(x.str, cp) then Some(FlagsOf(x)) else None
  {
    if a == [] {
      assert a + [x] == [x] && [x][1..] == [];
    } else {
      assert (a + [x])[1..] == a[1..] + [x];
      FirstAppend(a[1..], x, cp, fnmatch);
    }
  }

  lemma {:induction false} FirstReversed(list: seq<Link>, cp: string, fnmatch: Pattern)
    ensures First(Reversed(list), cp, fnmatch) == Last(list, cp, fnmatch)
  {
    if list != [] {
      FirstReversed(list[1..], cp, fnmatch);
      FirstAppend(Reversed(list[1..]), list[0], cp, fnmatch);
    }
  }

  lemma ExcludedReversed(list: seq<Link>)
    ensures AllExcluded(Reversed(list)) <==> AllExcluded(list)
    ensures TrailingSubdir(Reversed(list)) <==> LeadingSubdir(list)
  {
    var r, n := Reversed(list), |list|;
    forall k | 0 <= k < n ensures list[k] == r[n - 1 - k] {}
    forall k: nat | k < n ensures SubdirThenExcluded(r, k) <==> ExcludedThenSubdir(list, n - 1 - k) {
      assert r[k] == list[n - 1 - k];
    }
    if LeadingSubdir(list) {
      var k: nat :| ExcludedThenSubdir(list, k);
      assert SubdirThenExcluded(r, n - 1 - k);
    }
  }

  /** Reading a copy: the last entry that matches decides, where it was the first before. */
  lemma InListReversed(list: seq<Link>, cp: string, fnmatch: Pattern)
    ensures match Last(list, cp, fnmatch)
            case Some(flags) => InList(Reversed(list), cp, fnmatch) == Entry(flags)
            case None => InList(Reversed(list), cp, fnmatch) == Unlisted(AllExcluded(list), LeadingSubdir(list))
  {
    InListFirst(Reversed(list), cp, fnmatch);
    FirstReversed(list, cp, fnmatch);
    ExcludedReversed(list);
  }

  /** A copy reads as its original exactly when the first and the last entry that match carry the same flags,
      or nothing matches and SUBDIR survives the scan from both ends or from neither. */
  lemma CopyReadsSame(list: seq<Link>, cp: string, fnmatch: Pattern)
    ensures InList(Reversed(list), cp, fnmatch) == InList(list, cp, fnmatch) <==>
            if NoMatch(list, cp, fnmatch) then LeadingSubdir(list) <==> TrailingSubdir(list)
            else First(list, cp, fnmatch) == Last(list, cp, fnmatch)
  {
    InListFirst(list, cp, fnmatch);
    InListReversed(list, cp, fnmatch);
  }

  /** The order of a list is significant: with -f,foo and then +f,f* a function foo is excluded by the list
      and included by its copy, under any matching by which f* covers foo. */
  lemma CopyCanFlip(fnmatch: Pattern)
    requires fnmatch("foo", "foo") && fnmatch("f*", "foo")
    ensures var list := AddDelAll(AddDelAll([], Names("foo"), Exclude), Names("f*"), Include);
            && GoodList(list)
            && InList(list, "foo", fnmatch) == Entry(Flags(false, false, true))
            && InList(Reversed(list), "foo", fnmatch) == Entry(Flags(false, true, false))
  {
    OneName("foo");
    OneName("f*");
    ListAddDelGood([], "foo", Exclude);
    var foo, f := NewLink(("foo", false), Exclude), NewLink(("f*", false), Include);
    assert AddDelAll([], [("foo", false)], Exclude) == [foo];
    assert AddDelAll([foo], [("f*", false)], Include) == AddDel([foo], ("f*", false), Include) == [foo, f];
    ListAddDelGood([foo], "f*", Include);
    assert Last([foo, f][1..], "foo", fnmatch) == Some(FlagsOf(f));
    InListReversed([foo, f], "foo", fnmatch);
  }

  lemma OneName(t: string)
    requires t != "" && (forall k :: 0 <= k < |t| ==> !IsSeparator(t[k])) && t[|t| - 1] != '/'
    ensures Names(t) == [(t, false)]
  {
    assert TokenEnd(t, 0) == |t|;
    assert t[..|t|] == t && t[|t|..] == "";
  }
}
