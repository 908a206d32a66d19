/**
 Building SQL statements for an entity message and binding its fields to their placeholders: the clause
 builders of ZdbStatement, and the traversals of the message in Protobuf2DbEngine.

 A message is a tree of fields with values.  `Lex` reads the quoted names and the placeholders back out
 of the text.  Whether the driver can prepare a text is a parameter.
 */
module Sql {

  datatype Type = Enum | Time | Int64 | UInt64 | Int32 | UInt32 | String | Bytes | Double | Float | Bool | Unbindable

  datatype Kind = Scalar(ty: Type, value: int) | Sub(message: Message)
  datatype Field = Field(name: string, repeated: bool, present: bool, kind: Kind)
  datatype Message = Message(fields: seq<Field>)

  // pb_input_param_t: a field and its value.
  datatype Leaf = Leaf(name: string, ty: Type, value: int)

  // ---------- reading a text back ----------

  datatype Token = Ident(name: string) | Mark

  function QuoteEnd(s: string, i: nat): (e: nat)
    requires i <= |s|
    ensures i <= e <= |s| && (e < |s| ==> s[e] == '`') && forall k :: i <= k < e ==> s[k] != '`'
    decreases |s| - i
  {
    if i == |s| || s[i] == '`' then i else QuoteEnd(s, i + 1)
  }

  function Lex(s: string): seq<Token>
    decreases |s|
  {
    if s == "" then []
    else if s[0] == '?' then [Mark] + Lex(s[1..])
    else if s[0] == '`' then
      var e := QuoteEnd(s, 1);
      if e == |s| then [] else [Ident(s[1..e])] + Lex(s[e + 1..])
    else Lex(s[1..])
  }

  // Every quote is closed.
  predicate Closed(s: string)
    decreases |s|
  {
    if s == "" then true
    else if s[0] == '`' then var e := QuoteEnd(s, 1); e < |s| && Closed(s[e + 1..])
    else Closed(s[1..])
  }

  lemma {:induction false} LexAppend(a: string, b: string)
    requires Closed(a)
    ensures Lex(a + b) == Lex(a) + Lex(b)
    ensures Closed(b) ==> Closed(a + b)
    decreases |a|
  {
    var s := a + b;
    if a == "" {
      assert s == b;
    } else if a[0] == '`' {
      var e := QuoteEnd(a, 1);
      assert forall k :: 0 <= k < |a| ==> s[k] == a[k];
      QuoteAt(s, e);
      assert s[1..e] == a[1..e] && s[e + 1..] == a[e + 1..] + b;
      LexAppend(a[e + 1..], b);
    } else {
      assert s[1..] == a[1..] + b;
      LexAppend(a[1..], b);
    }
  }

  lemma QuoteAt(s: string, e: nat)
    requires 1 <= e < |s| && s[e] == '`' && forall k :: 1 <= k < e ==> s[k] != '`'
    ensures QuoteEnd(s, 1) == e
  {
  }

  predicate PlainText(t: string) { forall k :: 0 <= k < |t| ==> t[k] != '`' && t[k] != '?' }

  lemma {:induction false} LexText(t: string)
    requires PlainText(t)
    ensures Lex(t) == [] && Closed(t)
  {
    if t != "" { LexText(t[1..]); }
  }

  predicate Quotable(name: string) { forall k :: 0 <= k < |name| ==> name[k] != '`' }

  function Quoted(name: string): string { "`" + name + "`" }

  lemma LexQuoted(name: string)
    requires Quotable(name)
    ensures Lex(Quoted(name)) == [Ident(name)] && Closed(Quoted(name))
  {
    var q := Quoted(name);
    QuoteAt(q, |name| + 1);
    assert q[1..|name| + 1] == name && q[|name| + 2..] == "";
  }

  // ---------- the clauses ----------

  function Butlast<T>(s: seq<T>): seq<T>
    requires s != []
  {
    s[..|s| - 1]
  }

  function Last<T>(s: seq<T>): T
    requires s != []
  {
    s[|s| - 1]
  }

  // Names with something before the second and later ones, and something after each.
  function Listed(names: seq<string>, sep: string, after: string): string {
    if names == [] then ""
    else Listed(Butlast(names), sep, after) + (if |names| > 1 then sep else "") + Quoted(Last(names)) + after
  }

  function Marks(n: nat): string { if n == 0 then "" else Marks(n - 1) + (if n > 1 then "," else "") + "?" }

  function UpdateOf(name: string): string { Quoted(name) + "=" + (" VALUES(" + Quoted(name) + ")") }

  function Updates(names: seq<string>): string {
    if names == [] then ""
    else Updates(Butlast(names)) + (if |names| > 1 then "," else "") + UpdateOf(Last(names))
  }

  function FieldList(keys: seq<string>, sets: seq<string>): string { Listed(keys + sets, ",", "") }

  function WhereText(keys: seq<string>): string {
    if keys == [] then "" else " WHERE " + Listed(keys, " AND ", "=?")
  }

  function SelectText(table: string, keys: seq<string>): string { "SELECT * FROM " + Quoted(table) + WhereText(keys) }

  function DeleteText(table: string, keys: seq<string>): string { "DELETE FROM " + Quoted(table) + WhereText(keys) }

  function UpdateText(table: string, keys: seq<string>, sets: seq<string>): string {
    "UPDATE " + Quoted(table) + " SET " + Listed(sets, ",", "=?") + WhereText(keys)
  }

  // With nothing to set, the last key is set to itself.
  function Duplicate(keys: seq<string>, sets: seq<string>): seq<string> {
    if sets != [] then sets else if keys != [] then [Last(keys)] else []
  }

  function InsertText(table: string, keys: seq<string>, sets: seq<string>): string {
    var dup := Duplicate(keys, sets);
    "INSERT INTO " + Quoted(table) + " (" + FieldList(keys, sets) + ") VALUES (" + Marks(|keys| + |sets|) + ")"
    + if dup == [] then "" else " ON DUPLICATE KEY UPDATE " + Updates(dup) + " "
  }

  function CallText(proc: string, n: nat): string { "CALL " + proc + " (" + Marks(n) + ")" }

  // ---------- what the clauses say ----------

  predicate PlainNames(names: seq<string>) { forall k :: 0 <= k < |names| ==> Quotable(names[k]) }

  function Idents(names: seq<string>): seq<Token> {
    if names == [] then [] else Idents(Butlast(names)) + [Ident(Last(names))]
  }

  function Assigns(names: seq<string>): seq<Token> {
    if names == [] then [] else Assigns(Butlast(names)) + [Ident(Last(names)), Mark]
  }

  function Many(n: nat): seq<Token> { if n == 0 then [] else Many(n - 1) + [Mark] }

  lemma {:induction false} LexListed(names: seq<string>, sep: string, marked: bool)
    requires PlainNames(names) && PlainText(sep)
    ensures var s := Listed(names, sep, if marked then "=?" else "");
            Closed(s) && Lex(s) == if marked then Assigns(names) else Idents(names)
  {
    if names != [] {
      var after := if marked then "=?" else "";
      var name := Last(names);
      LexListed(Butlast(names), sep, marked);
      var a, b := Listed(Butlast(names), sep, after), if |names| > 1 then sep else "";
      LexText(b);
      LexQuoted(name);
      LexAfter(marked);
      LexAppend(a, b);
      LexAppend(a + b, Quoted(name));
      LexAppend(a + b + Quoted(name), after);
    }
  }

  lemma LexAfter(marked: bool)
    ensures var s := if marked then "=?" else ""; Closed(s) && Lex(s) == if marked then [Mark] else []
  {
    assert "=?"[1..] == "?" && "?"[1..] == "";
  }

  lemma {:induction false} LexMarks(n: nat)
    ensures Closed(Marks(n)) && Lex(Marks(n)) == Many(n)
  {
    if n > 0 {
      LexMarks(n - 1);
      var b := if n > 1 then "," else "";
      LexText(b);
      assert "?"[1..] == "";
      LexAppend(Marks(n - 1), b);
      LexAppend(Marks(n - 1) + b, "?");
    }
  }

  predicate NoMark(ts: seq<Token>) { forall k :: 0 <= k < |ts| ==> ts[k].Ident? }

  lemma LexUpdateOf(name: string)
    requires Quotable(name)
    ensures Closed(UpdateOf(name)) && NoMark(Lex(UpdateOf(name)))
  {
    var q := Quoted(name);
    LexQuoted(name);
    LexText("=");
    LexText(" VALUES(");
    LexText(")");
    hide Lex, Closed, Quoted, PlainText, Quotable;
    LexAppend(" VALUES(", q);
    LexAppend(" VALUES(" + q, ")");
    LexAppend(q, "=");
    LexAppend(q + "=", " VALUES(" + q + ")");
  }

  lemma {:induction false} LexUpdates(names: seq<string>)
    requires PlainNames(names)
    ensures Closed(Updates(names)) && NoMark(Lex(Updates(names)))
  {
    if names != [] {
      LexUpdates(Butlast(names));
      var a, b := Updates(Butlast(names)), if |names| > 1 then "," else "";
      LexUpdateOf(Last(names));
      LexText(b);
      hide Lex, Closed, UpdateOf, PlainText;
      LexAppend(a, b);
      LexAppend(a + b, UpdateOf(Last(names)));
    }
  }

  // What each placeholder is compared with or assigned to: the name before it.
  function Assigned(ts: seq<Token>): seq<string> {
    if ts == [] then []
    else if Last(ts) == Mark && |ts| > 1 && ts[|ts| - 2].Ident? then Assigned(Butlast(ts)) + [ts[|ts| - 2].name]
    else Assigned(Butlast(ts))
  }

  function Count(ts: seq<Token>): nat {
    if ts == [] then 0 else Count(Butlast(ts)) + if Last(ts) == Mark then 1 else 0
  }

  // The names before the first placeholder, the table aside: what the placeholders of an INSERT stand for.
  function FirstMark(ts: seq<Token>, i: nat): (e: nat)
    requires i <= |ts|
    ensures i <= e <= |ts| && (forall k :: i <= k < e ==> ts[k].Ident?) && (e < |ts| ==> ts[e] == Mark)
    decreases |ts| - i
  {
    if i == |ts| || ts[i] == Mark then i else FirstMark(ts, i + 1)
  }

  function Columns(ts: seq<Token>): seq<string> {
    if ts == [] then [] else var e := FirstMark(ts, 1); seq(e - 1, k requires 0 <= k < e - 1 => ts[k + 1].name)
  }

  lemma {:induction false} AssignedNames(pre: seq<Token>, names: seq<string>)
    requires pre == [] || Last(pre).Ident?
    ensures Assigned(pre + Assigns(names)) == Assigned(pre) + names
    ensures Count(pre + Assigns(names)) == Count(pre) + |names|
  {
    if names == [] {
      assert pre + Assigns(names) == pre;
    } else {
      AssignedNames(pre, Butlast(names));
      var rest, name := pre + Assigns(Butlast(names)), Last(names);
      AssignedPair(rest, name);
      assert pre + Assigns(names) == rest + [Ident(name), Mark];
      assert names == Butlast(names) + [name];
      hide Assigned, Count;
      assert Assigned(pre) + Butlast(names) + [name] == Assigned(pre) + names;
    }
  }

  lemma AssignedPair(rest: seq<Token>, name: string)
    ensures Assigned(rest + [Ident(name), Mark]) == Assigned(rest) + [name]
    ensures Count(rest + [Ident(name), Mark]) == Count(rest) + 1
  {
    var ts := rest + [Ident(name), Mark];
    assert Butlast(ts) == rest + [Ident(name)];
    assert Butlast(rest + [Ident(name)]) == rest;
  }

  lemma {:induction false} AssignsAppend(a: seq<string>, b: seq<string>)
    ensures Assigns(a + b) == Assigns(a) + Assigns(b)
  {
    if b == [] {
      assert a + b == a;
    } else {
      var init, pair := Butlast(b), [Ident(Last(b)), Mark];
      assert Butlast(a + b) == a + init && Last(a + b) == Last(b);
      AssignsAppend(a, init);
      assert Assigns(a + b) == Assigns(a + init) + pair;
    }
  }

  lemma LexWhere(keys: seq<string>)
    requires PlainNames(keys)
    ensures Closed(WhereText(keys)) && Lex(WhereText(keys)) == Assigns(keys)
  {
    if keys != [] {
      LexText(" WHERE ");
      LexListed(keys, " AND ", true);
      LexAppend(" WHERE ", Listed(keys, " AND ", "=?"));
    }
  }

  /** The placeholders of a SELECT or DELETE are the keys in the order given. */
  lemma WherePlaceholders(verb: string, table: string, keys: seq<string>)
    requires PlainText(verb) && Quotable(table) && PlainNames(keys)
    ensures var ts := Lex(verb + Quoted(table) + WhereText(keys)); Assigned(ts) == keys && Count(ts) == |keys|
  {
    LexText(verb);
    LexQuoted(table);
    LexWhere(keys);
    hide Lex, Closed, Quoted, WhereText;
    LexAppend(verb, Quoted(table));
    LexAppend(verb + Quoted(table), WhereText(keys));
    assert [] + [Ident(table)] == [Ident(table)];
    AssignedNames([Ident(table)], keys);
    AssignedOne(table);
  }

  lemma AssignedOne(table: string)
    ensures Assigned([Ident(table)]) == [] && Count([Ident(table)]) == 0
  {
  }

  lemma UpdateWords()
    ensures Lex("UPDATE ") == [] && Closed("UPDATE ") && Lex(" SET ") == [] && Closed(" SET ")
  {
    hide Lex, Closed;
    LexText("UPDATE ");
    LexText(" SET ");
  }

  lemma LexUpdate(table: string, keys: seq<string>, sets: seq<string>)
    requires Quotable(table) && PlainNames(keys) && PlainNames(sets)
    ensures Lex(UpdateText(table, keys, sets)) == [Ident(table)] + Assigns(sets) + Assigns(keys)
  {
    hide Lex, Closed, Quoted, WhereText, Listed, PlainText, PlainNames, Assigns;
    UpdateWords();
    LexQuoted(table);
    LexListed(sets, ",", true) by { PlainComma(); }
    LexWhere(keys);
    var head := "UPDATE " + Quoted(table) + " SET ";
    var body := Listed(sets, ",", "=?");
    LexAppend("UPDATE ", Quoted(table));
    LexAppend("UPDATE " + Quoted(table), " SET ");
    LexAppend(head, body);
    LexAppend(head + body, WhereText(keys));
  }

  lemma PlainComma()
    ensures PlainText(",")
  {
  }

  /** Those of an UPDATE are the columns set, then the keys. */
  lemma UpdatePlaceholders(table: string, keys: seq<string>, sets: seq<string>)
    requires Quotable(table) && PlainNames(keys) && PlainNames(sets)
    ensures var ts := Lex(UpdateText(table, keys, sets)); Assigned(ts) == sets + keys && Count(ts) == |sets| + |keys|
  {
    hide Lex, UpdateText, PlainText, PlainNames;
    LexUpdate(table, keys, sets);
    AssignsAppend(sets, keys);
    assert [Ident(table)] + Assigns(sets) + Assigns(keys) == [Ident(table)] + Assigns(sets + keys);
    AssignedNames([Ident(table)], sets + keys);
    AssignedOne(table);
  }

  lemma {:induction false} IdentsAre(names: seq<string>)
    ensures |Idents(names)| == |names| && forall k :: 0 <= k < |names| ==> Idents(names)[k] == Ident(names[k])
  {
    if names != [] { IdentsAre(Butlast(names)); }
  }

  lemma {:induction false} ManyAre(n: nat)
    ensures |Many(n)| == n && forall k :: 0 <= k < n ==> Many(n)[k] == Mark
  {
    if n > 0 { ManyAre(n - 1); }
  }

  lemma {:induction false} CountAppend(a: seq<Token>, b: seq<Token>)
    ensures Count(a + b) == Count(a) + Count(b)
  {
    if b == [] {
      assert a + b == a;
    } else {
      assert Butlast(a + b) == a + Butlast(b);
      CountAppend(a, Butlast(b));
    }
  }

  lemma {:induction false} CountSame(ts: seq<Token>, mark: bool)
    requires forall k :: 0 <= k < |ts| ==> ts[k].Mark? == mark
    ensures Count(ts) == if mark then |ts| else 0
  {
    if ts != [] { CountSame(Butlast(ts), mark); }
  }

  lemma FirstMarkAt(ts: seq<Token>, i: nat, e: nat)
    requires i <= e <= |ts| && (forall k :: i <= k < e ==> ts[k].Ident?) && (e < |ts| ==> ts[e] == Mark)
    ensures FirstMark(ts, i) == e
    decreases e - i
  {
    if i < e { FirstMarkAt(ts, i + 1, e); }
  }

  lemma InsertWords()
    ensures Lex("INSERT INTO ") == [] && Closed("INSERT INTO ") && Lex(" (") == [] && Closed(" (")
    ensures Lex(") VALUES (") == [] && Closed(") VALUES (") && Lex(")") == [] && Closed(")")
  {
    hide Lex, Closed;
    LexText("INSERT INTO ");
    LexText(" (");
    LexText(") VALUES (");
    LexText(")");
  }

  lemma DuplicateWords()
    ensures Lex(" ON DUPLICATE KEY UPDATE ") == [] && Closed(" ON DUPLICATE KEY UPDATE ") && Lex(" ") == [] && Closed(" ")
  {
    hide Lex, Closed;
    LexText(" ON DUPLICATE KEY UPDATE ");
    LexText(" ");
  }

  function InsertHead(table: string, keys: seq<string>, sets: seq<string>): string {
    "INSERT INTO " + Quoted(table) + " (" + FieldList(keys, sets) + ") VALUES (" + Marks(|keys| + |sets|) + ")"
  }

  function InsertTail(dup: seq<string>): string {
    if dup == [] then "" else " ON DUPLICATE KEY UPDATE " + Updates(dup) + " "
  }

  lemma LexFieldList(keys: seq<string>, sets: seq<string>)
    requires PlainNames(keys + sets)
    ensures Closed(FieldList(keys, sets)) && Lex(FieldList(keys, sets)) == Idents(keys + sets)
  {
    hide Lex, Closed, Listed;
    LexListed(keys + sets, ",", false);
  }

  // A piece without names or placeholders adds nothing.
  lemma LexSkip(a: string, b: string)
    requires Closed(a) && Closed(b) && Lex(b) == []
    ensures Closed(a + b) && Lex(a + b) == Lex(a)
  {
    LexAppend(a, b);
  }

  lemma LexInto(table: string)
    requires Quotable(table)
    ensures var a := "INSERT INTO " + Quoted(table) + " ("; Closed(a) && Lex(a) == [Ident(table)]
  {
    hide Lex, Closed, Quoted, PlainText, Quotable;
    InsertWords();
    LexQuoted(table);
    LexAppend("INSERT INTO ", Quoted(table));
    LexSkip("INSERT INTO " + Quoted(table), " (");
  }

  function InsertPart(table: string, keys: seq<string>, sets: seq<string>): string {
    "INSERT INTO " + Quoted(table) + " (" + FieldList(keys, sets) + ") VALUES ("
  }

  // The text up to and including n of the placeholders.
  lemma LexInsertPart(table: string, keys: seq<string>, sets: seq<string>, n: nat)
    requires Quotable(table) && PlainNames(keys) && PlainNames(sets)
    ensures var part := InsertPart(table, keys, sets) + Marks(n);
            Closed(part) && Lex(part) == [Ident(table)] + Idents(keys + sets) + Many(n)
  {
    assert PlainNames(keys + sets);
    hide Lex, Closed, Quoted, Marks, PlainText, PlainNames, Many, Idents, FieldList, Listed;
    var fields := FieldList(keys, sets);
    LexFieldList(keys, sets);
    LexInto(table);
    InsertWords();
    LexMarks(n);
    var a := "INSERT INTO " + Quoted(table) + " (";
    var b := a + fields + ") VALUES (";
    LexAppend(a, fields);
    LexSkip(a + fields, ") VALUES (");
    LexAppend(b, Marks(n));
  }

  lemma LexInsertHead(table: string, keys: seq<string>, sets: seq<string>)
    requires Quotable(table) && PlainNames(keys) && PlainNames(sets)
    ensures var head := InsertHead(table, keys, sets);
            Closed(head) && Lex(head) == [Ident(table)] + Idents(keys + sets) + Many(|keys| + |sets|)
  {
    LexInsertPart(table, keys, sets, |keys| + |sets|);
    InsertWords();
    hide Lex, Closed, Quoted, Marks, PlainText, PlainNames, Many, Idents, FieldList, Listed;
    LexSkip(InsertPart(table, keys, sets) + Marks(|keys| + |sets|), ")");
  }

  lemma LexInsertTail(dup: seq<string>)
    requires PlainNames(dup)
    ensures Closed(InsertTail(dup)) && NoMark(Lex(InsertTail(dup))) && (dup == [] ==> Lex(InsertTail(dup)) == [])
  {
    if dup != [] {
      hide Lex, Closed, Updates, PlainText;
      DuplicateWords();
      LexUpdates(dup);
      LexAppend(" ON DUPLICATE KEY UPDATE ", Updates(dup));
      LexAppend(" ON DUPLICATE KEY UPDATE " + Updates(dup), " ");
    }
  }

  // The tokens of an INSERT: table, columns, one placeholder for each column, and names only after that.
  lemma LexInsert(table: string, keys: seq<string>, sets: seq<string>) returns (tail: seq<Token>)
    requires Quotable(table) && PlainNames(keys) && PlainNames(sets)
    ensures NoMark(tail) && (keys + sets == [] ==> tail == [])
    ensures Lex(InsertText(table, keys, sets)) ==
            [Ident(table)] + Idents(keys + sets) + Many(|keys| + |sets|) + tail
  {
    var dup := Duplicate(keys, sets);
    LexInsertHead(table, keys, sets);
    LexInsertTail(dup);
    hide Lex, Closed, Quoted, Marks, Updates, FieldList, PlainText, Many, Idents;
    tail := Lex(InsertTail(dup));
    LexAppend(InsertHead(table, keys, sets), InsertTail(dup));
  }

  lemma ColumnsAre(ts: seq<Token>, cols: seq<string>)
    requires |ts| > |cols| && (forall k :: 0 <= k < |cols| ==> ts[k + 1] == Ident(cols[k]))
    requires |ts| > 1 + |cols| ==> ts[1 + |cols|] == Mark
    ensures Columns(ts) == cols
  {
    forall k | 1 <= k < 1 + |cols| ensures ts[k].Ident? { assert ts[k - 1 + 1] == Ident(cols[k - 1]); }
    FirstMarkAt(ts, 1, 1 + |cols|);
  }

  lemma InsertColumns(table: string, cols: seq<string>, tail: seq<Token>)
    requires cols == [] ==> tail == []
    ensures Columns([Ident(table)] + Idents(cols) + Many(|cols|) + tail) == cols
  {
    hide Idents, Many, Columns;
    IdentsAre(cols);
    ManyAre(|cols|);
    var ts, n := [Ident(table)] + Idents(cols) + Many(|cols|) + tail, |cols|;
    forall k | 0 <= k < n ensures ts[k + 1] == Ident(cols[k]) { assert ts[k + 1] == Idents(cols)[k]; }
    if n > 0 { assert ts[1 + n] == Many(n)[0]; }
    ColumnsAre(ts, cols);
  }

  lemma InsertTokens(table: string, cols: seq<string>, tail: seq<Token>)
    requires NoMark(tail) && (cols == [] ==> tail == [])
    ensures var ts := [Ident(table)] + Idents(cols) + Many(|cols|) + tail; Columns(ts) == cols && Count(ts) == |cols|
  {
    hide Idents, Many, Count, Columns;
    InsertColumns(table, cols, tail);
    var a, b := [Ident(table)] + Idents(cols), Many(|cols|);
    IdentsAre(cols);
    ManyAre(|cols|);
    CountAppend(a + b, tail);
    CountAppend(a, b);
    CountSame(a, false);
    CountSame(b, true);
    CountSame(tail, false);
  }

  /** Those of an INSERT stand for the keys, then the columns set; there are as many as columns. */
  lemma InsertPlaceholders(table: string, keys: seq<string>, sets: seq<string>)
    requires Quotable(table) && PlainNames(keys) && PlainNames(sets)
    ensures var ts := Lex(InsertText(table, keys, sets)); Columns(ts) == keys + sets && Count(ts) == |keys| + |sets|
  {
    hide Lex, InsertText, PlainNames, PlainText, Idents, Many, Count, Columns;
    var tail := LexInsert(table, keys, sets);
    InsertTokens(table, keys + sets, tail);
  }

  /** And a stored procedure call has the number of placeholders asked for. */
  lemma CallPlaceholders(proc: string, n: nat)
    requires PlainText(proc)
    ensures Count(Lex(CallText(proc, n))) == n
  {
    LexText("CALL ");
    LexText(proc);
    LexText(" (");
    LexText(")");
    LexMarks(n);
    hide Lex, Closed, Marks, PlainText;
    LexAppend("CALL ", proc);
    LexAppend("CALL " + proc, " (");
    LexAppend("CALL " + proc + " (", Marks(n));
    LexAppend("CALL " + proc + " (" + Marks(n), ")");
    ManyAre(n);
    CountSame(Many(n), true);
    assert Lex(CallText(proc, n)) == Many(n);
  }

  // ---------- buffers ----------

  const SQL_SIZE: nat := 4096        // sizeof(_sql)
  const CLAUSE_SIZE: nat := 4096     // chClause, chField, chPlaceholder, chDuplicate

  // What o_snprintf leaves of a text in _sql.
  function Cut(t: string): string { if |t| < SQL_SIZE then t else t[..SQL_SIZE - 1] }

  // A clause and its terminator have room in their buffer; the builders do not check it.
  predicate Fits(clause: string) { |clause| < CLAUSE_SIZE }

  // memcpy to buf + len.
  method Put(buf: array<char>, len: nat, text: string) returns (end: nat)
    requires len + |text| <= buf.Length
    modifies buf
    ensures end == len + |text| && buf[..end] == old(buf[..len]) + text
  {
    var j := 0;
    while j < |text|
      invariant 0 <= j <= |text| && buf[..len + j] == old(buf[..len]) + text[..j]
    {
      buf[len + j] := text[j];
      assert buf[..len + j + 1] == buf[..len + j] + [text[j]];
      assert text[..j + 1] == text[..j] + [text[j]];
      j := j + 1;
    }
    assert text[..j] == text;
    end := len + |text|;
  }

  // One quoted name, with something before and after it.
  method PutName(buf: array<char>, len: nat, lead: string, name: string, after: string) returns (end: nat)
    requires len + |lead + Quoted(name) + after| <= buf.Length
    modifies buf
    ensures end == len + |lead + Quoted(name) + after|
    ensures buf[..end] == old(buf[..len]) + (lead + Quoted(name) + after)
  {
    end := Put(buf, len, lead);
    end := Put(buf, end, "`");
    end := Put(buf, end, name);
    end := Put(buf, end, "`");
    end := Put(buf, end, after);
  }

  lemma {:induction false} ListedPrefix(names: seq<string>, j: nat, sep: string, after: string)
    requires j <= |names|
    ensures |Listed(names[..j], sep, after)| <= |Listed(names, sep, after)|
    decreases |names|
  {
    if j < |names| {
      assert Butlast(names)[..j] == names[..j];
      ListedPrefix(Butlast(names), j, sep, after);
    } else {
      assert names[..j] == names;
    }
  }

  lemma {:induction false} UpdatesPrefix(names: seq<string>, j: nat)
    requires j <= |names|
    ensures |Updates(names[..j])| <= |Updates(names)|
    decreases |names|
  {
    if j < |names| {
      assert Butlast(names)[..j] == names[..j];
      UpdatesPrefix(Butlast(names), j);
    } else {
      assert names[..j] == names;
    }
  }

  lemma {:induction false} MarksLength(n: nat)
    ensures |Marks(n)| == if n == 0 then 0 else 2 * n - 1
  {
    if n > 0 { MarksLength(n - 1); }
  }

  // ---------- the statement ----------

  predicate Bindable(ty: Type) { ty != Unbindable }

  class ZdbStatement {
    var sql: string
    var prepared: bool
    var parameterCount: nat
    var inParamIndex: nat
    var bound: seq<Leaf>      // what has been set for placeholders 1, 2, ...

    predicate Fresh()
      reads this
    {
      inParamIndex == 0 && bound == []
    }

    constructor ()
      ensures Fresh() && sql == "" && !prepared
    {
      sql := "";
      prepared := false;
      parameterCount := 0;
      inParamIndex := 0;
      bound := [];
    }

    /** Names joined in a buffer, as the clause builders do it. */
    static method Join(buf: array<char>, names: seq<string>, sep: string, after: string) returns (len: nat)
      requires |Listed(names, sep, after)| < buf.Length
      modifies buf
      ensures len == |Listed(names, sep, after)| && buf[..len] == Listed(names, sep, after) && buf[len] == '\0'
    {
      len := 0;
      var j := 0;
      while j < |names|
        invariant 0 <= j <= |names| && len == |Listed(names[..j], sep, after)| < buf.Length
        invariant buf[..len] == Listed(names[..j], sep, after)
      {
        ListedPrefix(names, j + 1, sep, after);
        assert Butlast(names[..j + 1]) == names[..j];
        ListedStep(names[..j + 1], sep, after);
        len := PutName(buf, len, if j > 0 then sep else "", names[j], after);
        j := j + 1;
      }
      assert names[..j] == names;
      buf[len] := '\0';
    }

    static method Placeholders(buf: array<char>, start: nat, n: nat) returns (len: nat)
      requires start + |Marks(n)| <= buf.Length
      modifies buf
      ensures len == start + |Marks(n)| && buf[..len] == old(buf[..start]) + Marks(n)
    {
      len := start;
      var j := 0;
      while j < n
        invariant 0 <= j <= n && len == start + |Marks(j)| <= buf.Length
        invariant buf[..len] == old(buf[..start]) + Marks(j)
      {
        MarksLength(n);
        MarksLength(j + 1);
        if j > 0 { len := Put(buf, len, ","); }
        len := Put(buf, len, "?");
        j := j + 1;
      }
    }

    method Prepare(accepted: bool) returns (ok: bool)
      modifies this`prepared, this`parameterCount
      ensures ok == accepted && prepared == accepted && (accepted ==> parameterCount == Count(Lex(sql)))
    {
      ok := accepted;
      prepared := accepted;
      if accepted { parameterCount := Count(Lex(sql)); }
    }

    method PrepareSelect(table: string, vKey: seq<string>, accepted: bool) returns (ok: bool)
      requires Fits(KeyClause(vKey))
      modifies this`sql, this`prepared, this`parameterCount
      ensures ok == prepared == accepted && sql == Cut(SelectText(table, vKey))
      ensures ok ==> parameterCount == Count(Lex(sql))
    {
      var chClause := new char[CLAUSE_SIZE];
      var len := Join(chClause, vKey, " AND ", "=?");
      ClauseStarts(vKey, " AND ", "=?");
      ghost var head := "SELECT * FROM " + Quoted(table);
      assert head == "SELECT * FROM `" + table + "`";
      if chClause[0] == '\0' {
        assert len == 0;
        sql := Cut("SELECT * FROM `" + table + "`");
      } else {
        sql := Cut("SELECT * FROM `" + table + "`" + (" WHERE " + chClause[..len]));
      }
      ok := Prepare(accepted);
    }

    method PrepareDelete(table: string, vKey: seq<string>, accepted: bool) returns (ok: bool)
      requires Fits(KeyClause(vKey))
      modifies this`sql, this`prepared, this`parameterCount
      ensures ok == prepared == accepted && sql == Cut(DeleteText(table, vKey))
      ensures ok ==> parameterCount == Count(Lex(sql))
    {
      var chClause := new char[CLAUSE_SIZE];
      var len := Join(chClause, vKey, " AND ", "=?");
      ClauseStarts(vKey, " AND ", "=?");
      ghost var head := "DELETE FROM " + Quoted(table);
      assert head == "DELETE FROM `" + table + "`";
      if chClause[0] == '\0' {
        assert len == 0;
        sql := Cut("DELETE FROM `" + table + "`");
      } else {
        sql := Cut("DELETE FROM `" + table + "`" + (" WHERE " + chClause[..len]));
      }
      ok := Prepare(accepted);
    }

    method PrepareUpdate(table: string, vKey: seq<string>, vSet: seq<string>, accepted: bool) returns (ok: bool)
      requires vSet != [] && Fits(KeyClause(vKey)) && Fits(Listed(vSet, ",", "=?"))
      modifies this`sql, this`prepared, this`parameterCount
      ensures ok == prepared == accepted && sql == Cut(UpdateText(table, vKey, vSet))
      ensures ok ==> parameterCount == Count(Lex(sql))
    {
      var chField := new char[CLAUSE_SIZE];
      var chClause := new char[CLAUSE_SIZE];
      var n := Join(chField, vSet, ",", "=?");
      var len := Join(chClause, vKey, " AND ", "=?");
      ClauseStarts(vKey, " AND ", "=?");
      ghost var head := "UPDATE " + Quoted(table) + " SET ";
      assert head == "UPDATE `" + table + "` SET ";
      if chClause[0] == '\0' {
        assert len == 0;
        sql := Cut("UPDATE `" + table + "` SET " + chField[..n]);
      } else {
        sql := Cut("UPDATE `" + table + "` SET " + chField[..n] + (" WHERE " + chClause[..len]));
      }
      ok := Prepare(accepted);
    }

    static method FieldClause(buf: array<char>, vKey: seq<string>, vSet: seq<string>) returns (len: nat)
      requires |FieldList(vKey, vSet)| < buf.Length
      modifies buf
      ensures len == |FieldList(vKey, vSet)| && buf[..len] == FieldList(vKey, vSet) && buf[len] == '\0'
    {
      hide Listed;
      var all := vKey + vSet;
      assert all[..|vKey|] == vKey;
      ListedPrefix(all, |vKey|, ",", "");
      len := Join(buf, vKey, ",", "");
      var j := 0;
      while j < |vSet|
        invariant 0 <= j <= |vSet| && len == |Listed(all[..|vKey| + j], ",", "")| < buf.Length
        invariant buf[..len] == Listed(all[..|vKey| + j], ",", "")
      {
        var k := |vKey| + j;
        ListedPrefix(all, k + 1, ",", "");
        assert Butlast(all[..k + 1]) == all[..k] && Last(all[..k + 1]) == vSet[j];
        ListedStep(all[..k + 1], ",", "");
        len := PutName(buf, len, if |vKey| > 0 || j > 0 then "," else "", vSet[j], "");
        j := j + 1;
      }
      assert all[..|vKey| + j] == all;
      buf[len] := '\0';
    }

    static method DuplicateClause(buf: array<char>, vKey: seq<string>, vSet: seq<string>) returns (len: nat)
      requires |Updates(Duplicate(vKey, vSet))| < buf.Length
      modifies buf
      ensures var text := Updates(Duplicate(vKey, vSet)); len == |text| && buf[..len] == text && buf[len] == '\0'
    {
      len := 0;
      if |vSet| > 0 {
        var j := 0;
        while j < |vSet|
          invariant 0 <= j <= |vSet| && len == |Updates(vSet[..j])| < buf.Length
          invariant buf[..len] == Updates(vSet[..j])
        {
          UpdatesPrefix(vSet, j + 1);
          assert Butlast(vSet[..j + 1]) == vSet[..j];
          UpdatesStep(vSet[..j + 1]);
          len := PutUpdate(buf, len, if j > 0 then "," else "", vSet[j]);
          j := j + 1;
        }
        assert vSet[..j] == vSet;
      } else if |vKey| > 0 {
        var key := vKey[|vKey| - 1];
        OneUpdate(key);
        len := PutUpdate(buf, len, "", key);
      }
      buf[len] := '\0';
    }

    method PrepareInsert(table: string, vKey: seq<string>, vSet: seq<string>, accepted: bool) returns (ok: bool)
      requires InsertFits(vKey, vSet)
      modifies this`sql, this`prepared, this`parameterCount
      ensures ok == prepared == accepted && sql == Cut(InsertText(table, vKey, vSet))
      ensures ok ==> parameterCount == Count(Lex(sql))
    {
      hide Lex, Duplicate, Listed, Marks, Updates, Cut;
      var chField := new char[CLAUSE_SIZE];
      var chPlaceholder := new char[CLAUSE_SIZE];
      var chDuplicate := new char[CLAUSE_SIZE];
      var n := FieldClause(chField, vKey, vSet);
      var k := Placeholders(chPlaceholder, 0, |vKey| + |vSet|);
      assert chPlaceholder[..k] == Marks(|vKey| + |vSet|);
      chPlaceholder[k] := '\0';
      assert chPlaceholder[..k] == Marks(|vKey| + |vSet|);
      var len := DuplicateClause(chDuplicate, vKey, vSet);
      UpdatesStart(Duplicate(vKey, vSet));
      assert chDuplicate[0] == '\0' <==> len == 0;
      var text := "INSERT INTO `" + table + "` (" + chField[..n] + ") VALUES (" + chPlaceholder[..k] + ")";
      if chDuplicate[0] != '\0' { text := text + (" ON DUPLICATE KEY UPDATE " + chDuplicate[..len] + " "); }
      InsertSqlIs(table, vKey, vSet);
      assert text == InsertSql(table, chField[..n], chPlaceholder[..k], chDuplicate[..len]) by {
        assert "INSERT INTO `" + table + "` (" == "INSERT INTO " + Quoted(table) + " (";
      }
      sql := Cut(text);
      ok := Prepare(accepted);
    }

    method PrepareStoredProcCall(proc: string, nParamsCount: nat, accepted: bool) returns (ok: bool)
      requires |CallText(proc, nParamsCount)| < SQL_SIZE
      modifies this`sql, this`prepared, this`parameterCount
      ensures ok == prepared == accepted && sql == CallText(proc, nParamsCount)
      ensures ok ==> parameterCount == Count(Lex(sql))
    {
      var buf := new char[SQL_SIZE];
      var p := Put(buf, 0, "CALL ");
      p := Put(buf, p, proc);
      p := Put(buf, p, " (");
      assert buf[..p] == "CALL " + proc + " (";
      p := Placeholders(buf, p, nParamsCount);
      p := Put(buf, p, ")");
      buf[p] := '\0';
      sql := buf[..p];
      ok := Prepare(accepted);
    }

    /** AddOneInputParam: the value goes to the next placeholder; a type without a binder is passed over. */
    method AddOneInputParam(param: Leaf) returns (ok: bool)
      requires inParamIndex == |bound|
      modifies this`inParamIndex, this`bound
      ensures ok == Bindable(param.ty) && inParamIndex == |bound|
      ensures bound == if ok then old(bound) + [param] else old(bound)
    {
      ok := Bindable(param.ty);
      if ok {
        inParamIndex := inParamIndex + 1;
        bound := bound + [param];
      }
    }

    method AddInputParams(vInParam: seq<Leaf>)
      requires Fresh()
      modifies this`inParamIndex, this`bound
      ensures bound == Bound(vInParam) && inParamIndex == |bound|
    {
      var j := 0;
      while j < |vInParam|
        invariant 0 <= j <= |vInParam| && inParamIndex == |bound| && bound == Bound(vInParam[..j])
      {
        var _ := AddOneInputParam(vInParam[j]);
        assert Butlast(vInParam[..j + 1]) == vInParam[..j];
        j := j + 1;
      }
      assert vInParam[..j] == vInParam;
    }
  }

  function KeyClause(keys: seq<string>): string { Listed(keys, " AND ", "=?") }

  // The four buffers of an INSERT.
  predicate InsertFits(keys: seq<string>, sets: seq<string>) {
    Fits(FieldList(keys, sets)) && Fits(Marks(|keys| + |sets|)) && Fits(Updates(Duplicate(keys, sets)))
  }

  lemma ListedStep(names: seq<string>, sep: string, after: string)
    requires names != []
    ensures Listed(names, sep, after) ==
            Listed(Butlast(names), sep, after) + ((if |names| > 1 then sep else "") + Quoted(Last(names)) + after)
  {
    var a, b, c := Listed(Butlast(names), sep, after), if |names| > 1 then sep else "", Quoted(Last(names));
    assert a + b + c + after == a + (b + c + after);
  }

  lemma Grouped(a: string, b: string, c: string)
    ensures a + b + c == a + (b + c)
  {
  }

  lemma UpdatesStep(names: seq<string>)
    requires names != []
    ensures Updates(names) == Updates(Butlast(names)) + ((if |names| > 1 then "," else "") + UpdateOf(Last(names)))
  {
    Grouped(Updates(Butlast(names)), if |names| > 1 then "," else "", UpdateOf(Last(names)));
    hide UpdateOf;
  }

  // A clause with a name in it starts with a quote.
  lemma {:induction false} ClauseStarts(names: seq<string>, sep: string, after: string)
    ensures names == [] ==> Listed(names, sep, after) == ""
    ensures names != [] ==> var s := Listed(names, sep, after); s != "" && s[0] == '`'
    decreases |names|
  {
    if |names| > 1 {
      ClauseStarts(Butlast(names), sep, after);
    }
  }

  lemma {:induction false} UpdatesStart(names: seq<string>)
    ensures names == [] ==> Updates(names) == ""
    ensures names != [] ==> Updates(names) != "" && Updates(names)[0] == '`'
    decreases |names|
  {
    if |names| > 1 {
      UpdatesStart(Butlast(names));
    }
  }

  // `name`= VALUES(`name`), with something before it.
  method PutUpdate(buf: array<char>, len: nat, lead: string, name: string) returns (end: nat)
    requires len + |lead + UpdateOf(name)| <= buf.Length
    modifies buf
    ensures end == len + |lead + UpdateOf(name)| && buf[..end] == old(buf[..len]) + (lead + UpdateOf(name))
  {
    end := PutName(buf, len, lead, name, "=");
    end := PutName(buf, end, " VALUES(", name, ")");
    assert lead + Quoted(name) + "=" + (" VALUES(" + Quoted(name) + ")") == lead + UpdateOf(name);
  }

  function Bound(params: seq<Leaf>): seq<Leaf> {
    if params == [] then [] else Bound(Butlast(params)) + if Bindable(Last(params).ty) then [Last(params)] else []
  }

  lemma OneUpdate(name: string)
    ensures Updates([name]) == UpdateOf(name)
  {
    assert Butlast([name]) == [];
  }

  function InsertSql(table: string, field: string, placeholder: string, duplicate: string): string {
    "INSERT INTO " + Quoted(table) + " (" + field + ") VALUES (" + placeholder + ")"
    + if duplicate == "" then "" else " ON DUPLICATE KEY UPDATE " + duplicate + " "
  }

  lemma InsertSqlIs(table: string, keys: seq<string>, sets: seq<string>)
    ensures InsertText(table, keys, sets) ==
            InsertSql(table, Listed(keys + sets, ",", ""), Marks(|keys| + |sets|), Updates(Duplicate(keys, sets)))
  {
    var dup := Duplicate(keys, sets);
    if dup != [] { assert UpdateOf(Last(dup))[0] == '`'; }
  }

  // ---------- traversals of the message ----------

  // The present leaves of a message, nested ones included, in the order of the traversals.
  function FieldLeaves(f: Field): seq<Leaf>
    decreases f
  {
    if f.repeated || !f.present then []
    else if f.kind.Sub? then Leaves(f.kind.message)
    else [Leaf(f.name, f.kind.ty, f.kind.value)]
  }

  function LeavesTo(m: Message, i: nat): seq<Leaf>
    requires i <= |m.fields|
    decreases m, i
  {
    if i == 0 then [] else LeavesTo(m, i - 1) + FieldLeaves(m.fields[i - 1])
  }

  function Leaves(m: Message): seq<Leaf>
    decreases m, |m.fields| + 1
  {
    LeavesTo(m, |m.fields|)
  }

  function Keep(leaves: seq<Leaf>, names: seq<string>): seq<Leaf> {
    if leaves == [] then [] else (if leaves[0].name in names then [leaves[0]] else []) + Keep(leaves[1..], names)
  }

  function NamesOf(leaves: seq<Leaf>): (r: seq<string>)
    ensures |r| == |leaves| && forall k :: 0 <= k < |leaves| ==> r[k] == leaves[k].name
  {
    if leaves == [] then [] else [leaves[0].name] + NamesOf(leaves[1..])
  }

  // The names of the leaves that are not keys.
  function Others(leaves: seq<Leaf>, keys: seq<string>): seq<string> {
    if leaves == [] then [] else (if leaves[0].name in keys then [] else [leaves[0].name]) + Others(leaves[1..], keys)
  }

  lemma {:induction false} KeepAppend(a: seq<Leaf>, b: seq<Leaf>, names: seq<string>)
    ensures Keep(a + b, names) == Keep(a, names) + Keep(b, names)
    ensures Others(a + b, names) == Others(a, names) + Others(b, names)
  {
    if a == [] {
      assert a + b == b;
    } else {
      var rest := a[1..];
      assert (a + b)[1..] == rest + b && (a + b)[0] == a[0];
      KeepAppend(rest, b, names);
      var one, other := if a[0].name in names then [a[0]] else [], if a[0].name in names then [] else [a[0].name];
      assert Keep(a + b, names) == one + Keep(rest + b, names) && Keep(a, names) == one + Keep(rest, names);
      assert Others(a + b, names) == other + Others(rest + b, names) && Others(a, names) == other + Others(rest, names);
    }
  }

  method Search(names: seq<string>, name: string) returns (found: bool)
    ensures found <==> name in names
  {
    for j := 0 to |names|
      invariant name !in names[..j]
    {
      if names[j] == name { return true; }
    }
    assert names[..|names|] == names;
    found := false;
  }

  lemma KeepOne(leaf: Leaf, names: seq<string>)
    ensures Keep([leaf], names) == if leaf.name in names then [leaf] else []
    ensures Others([leaf], names) == if leaf.name in names then [] else [leaf.name]
  {
    assert [leaf][1..] == [];
  }

  method AddIfNamed(vOut: seq<Leaf>, leaf: Leaf, names: seq<string>) returns (r: seq<Leaf>)
    ensures r == vOut + Keep([leaf], names)
  {
    KeepOne(leaf, names);
    var named := Search(names, leaf.name);
    r := if named then vOut + [leaf] else vOut;
  }

  /** CollectEntityInputParams. */
  method CollectEntityInputParams(m: Message, vInKey: seq<string>, vInSet: seq<string>, keys: seq<Leaf>, sets: seq<Leaf>)
    returns (vOutKeyParam: seq<Leaf>, vOutSetParam: seq<Leaf>)
    ensures vOutKeyParam == keys + Keep(Leaves(m), vInKey) && vOutSetParam == sets + Keep(Leaves(m), vInSet)
    decreases m
  {
    hide Keep;
    assert Keep([], vInKey) == [] && Keep([], vInSet) == [] by { KeepNothing(vInKey); KeepNothing(vInSet); }
    vOutKeyParam, vOutSetParam := keys, sets;
    for i := 0 to |m.fields|
      invariant vOutKeyParam == keys + Keep(LeavesTo(m, i), vInKey)
      invariant vOutSetParam == sets + Keep(LeavesTo(m, i), vInSet)
    {
      var f := m.fields[i];
      KeepAppend(LeavesTo(m, i), FieldLeaves(f), vInKey);
      KeepAppend(LeavesTo(m, i), FieldLeaves(f), vInSet);
      if !f.repeated && f.present {
        match f.kind {
          case Sub(sub) =>
            vOutKeyParam, vOutSetParam := CollectEntityInputParams(sub, vInKey, vInSet, vOutKeyParam, vOutSetParam);
          case Scalar(ty, value) =>
            vOutKeyParam := AddIfNamed(vOutKeyParam, Leaf(f.name, ty, value), vInKey);
            vOutSetParam := AddIfNamed(vOutSetParam, Leaf(f.name, ty, value), vInSet);
        }
      }
    }
  }

  lemma KeepNothing(names: seq<string>)
    ensures Keep([], names) == []
  {
  }

  lemma OthersNothing(names: seq<string>)
    ensures Others([], names) == []
  {
  }

  /** CollectEntitySetFields. */
  method CollectEntitySetFields(m: Message, vInKey: seq<string>, vIn: seq<string>) returns (vOut: seq<string>)
    ensures vOut == vIn + Others(Leaves(m), vInKey)
    decreases m
  {
    hide Others, Keep;
    assert Others([], vInKey) == [] by { OthersNothing(vInKey); }
    vOut := vIn;
    for i := 0 to |m.fields|
      invariant vOut == vIn + Others(LeavesTo(m, i), vInKey)
    {
      var f := m.fields[i];
      KeepAppend(LeavesTo(m, i), FieldLeaves(f), vInKey);
      if !f.repeated && f.present {
        match f.kind {
          case Sub(sub) => vOut := CollectEntitySetFields(sub, vInKey, vOut);
          case Scalar(ty, value) =>
            KeepOne(Leaf(f.name, ty, value), vInKey);
            var isKey := Search(vInKey, f.name);
            if !isKey { vOut := vOut + [f.name]; }
        }
      }
    }
  }

  /** CollectProcInputParams. */
  method CollectProcInputParams(m: Message, vIn: seq<Leaf>) returns (vOut: seq<Leaf>)
    ensures vOut == vIn + Leaves(m)
    decreases m
  {
    vOut := vIn;
    for i := 0 to |m.fields|
      invariant vOut == vIn + LeavesTo(m, i)
    {
      var f := m.fields[i];
      if !f.repeated && f.present {
        match f.kind {
          case Sub(sub) => vOut := CollectProcInputParams(sub, vOut);
          case Scalar(ty, value) => vOut := vOut + [Leaf(f.name, ty, value)];
        }
      }
    }
  }

  predicate AllBindable(leaves: seq<Leaf>) { forall k :: 0 <= k < |leaves| ==> Bindable(leaves[k].ty) }

  /** ParseProcParamsCount; a type without a binder is not counted (an assertion says that none occurs). */
  method ParseProcParamsCount(m: Message) returns (nCount: nat)
    ensures nCount == |Bound(Leaves(m))|
    decreases m
  {
    hide Bound;
    nCount := 0;
    assert Bound([]) == [] by { BoundNothing(); }
    for i := 0 to |m.fields|
      invariant nCount == |Bound(LeavesTo(m, i))|
    {
      var f := m.fields[i];
      BoundAppend(LeavesTo(m, i), FieldLeaves(f));
      if !f.repeated && f.present {
        match f.kind {
          case Sub(sub) =>
            var n := ParseProcParamsCount(sub);
            nCount := nCount + n;
          case Scalar(ty, value) =>
            BoundOne(Leaf(f.name, ty, value));
            if Bindable(ty) { nCount := nCount + 1; }
        }
      }
    }
  }

  lemma BoundNothing()
    ensures Bound([]) == []
  {
  }

  // ---------- the statements of an entity ----------

  // The keys a SELECT uses: those that name a present field at the top, in field order.
  function ValidKeysTo(m: Message, vInKey: seq<string>, i: nat): seq<string>
    requires i <= |m.fields|
  {
    if i == 0 then []
    else
      var f := m.fields[i - 1];
      ValidKeysTo(m, vInKey, i - 1) + if f.repeated || !f.present then [] else Copies(vInKey, f.name)
  }

  function ValidKeys(m: Message, vInKey: seq<string>): seq<string> { ValidKeysTo(m, vInKey, |m.fields|) }

  // A name as often as it occurs.
  function Copies(names: seq<string>, name: string): seq<string> {
    if names == [] then [] else Copies(Butlast(names), name) + if Last(names) == name then [name] else []
  }

  /** ParseEntityParams: the set fields, then the keys. */
  method ParseEntityParams(s: ZdbStatement, m: Message, vInKey: seq<string>, vSet: seq<string>)
    requires s.Fresh()
    modifies s`inParamIndex, s`bound
    ensures s.bound == Bound(Keep(Leaves(m), vSet) + Keep(Leaves(m), vInKey)) && s.inParamIndex == |s.bound|
  {
    var vKeyParam, vSetParam := CollectEntityInputParams(m, vInKey, vSet, [], []);
    assert vKeyParam == Keep(Leaves(m), vInKey) && vSetParam == Keep(Leaves(m), vSet);
    s.AddInputParams(vSetParam + vKeyParam);
  }

  /** ParseInsertParams: the keys, then the set fields. */
  method ParseInsertParams(s: ZdbStatement, m: Message, vInKey: seq<string>, vSet: seq<string>)
    requires s.Fresh()
    modifies s`inParamIndex, s`bound
    ensures s.bound == Bound(Keep(Leaves(m), vInKey) + Keep(Leaves(m), vSet)) && s.inParamIndex == |s.bound|
  {
    var vKeyParam, vSetParam := CollectEntityInputParams(m, vInKey, vSet, [], []);
    assert vKeyParam == Keep(Leaves(m), vInKey) && vSetParam == Keep(Leaves(m), vSet);
    s.AddInputParams(vKeyParam + vSetParam);
  }

  method ParseSelect(m: Message, table: string, vInKey: seq<string>, s: ZdbStatement, accepted: bool) returns (ok: bool)
    requires s.Fresh() && Fits(KeyClause(ValidKeys(m, vInKey)))
    modifies s
    ensures ok == accepted
    ensures ok ==> s.sql == Cut(SelectText(table, ValidKeys(m, vInKey)))
    ensures ok ==> s.bound == Bound(Keep(Leaves(m), ValidKeys(m, vInKey)))
  {
    var vValidKey := [];
    for i := 0 to |m.fields|
      invariant vValidKey == ValidKeysTo(m, vInKey, i) && s.Fresh()
    {
      var f := m.fields[i];
      if !f.repeated && f.present {
        ghost var before := vValidKey;
        for j := 0 to |vInKey|
          invariant vValidKey == before + Copies(vInKey[..j], f.name)
        {
          if vInKey[j] == f.name { vValidKey := vValidKey + [vInKey[j]]; }
          assert Butlast(vInKey[..j + 1]) == vInKey[..j];
        }
        assert vInKey[..|vInKey|] == vInKey;
      }
    }
    ok := s.PrepareSelect(table, vValidKey, accepted);
    if ok {
      ParseEntityParams(s, m, vValidKey, []);
      KeepNone(Leaves(m));
      assert [] + Keep(Leaves(m), vValidKey) == Keep(Leaves(m), vValidKey);
    }
  }

  lemma {:induction false} KeepNone(leaves: seq<Leaf>)
    ensures Keep(leaves, []) == []
  {
    if leaves != [] { KeepNone(leaves[1..]); }
  }

  method ParseInsert(m: Message, table: string, vInKey: seq<string>, s: ZdbStatement, accepted: bool) returns (ok: bool)
    requires s.Fresh() && InsertFits(vInKey, Others(Leaves(m), vInKey))
    modifies s
    ensures ok == accepted
    ensures var sets := Others(Leaves(m), vInKey);
            ok ==>
              && s.sql == Cut(InsertText(table, vInKey, sets))
              && s.bound == Bound(Keep(Leaves(m), vInKey) + Keep(Leaves(m), sets))
  {
    var vSet := CollectEntitySetFields(m, vInKey, []);
    assert vSet == Others(Leaves(m), vInKey);
    ok := s.PrepareInsert(table, vInKey, vSet, accepted);
    if ok { ParseInsertParams(s, m, vInKey, vSet); }
  }

  /** ParseUpdate; nothing is prepared when there is nothing to set. */
  method ParseUpdate(m: Message, table: string, vInKey: seq<string>, bHackInsert: bool, s: ZdbStatement, accepted: bool)
    returns (ok: bool)
    requires s.Fresh()
    requires var sets := Others(Leaves(m), vInKey);
             if bHackInsert then InsertFits(vInKey, sets)
             else sets != [] ==> Fits(KeyClause(vInKey)) && Fits(Listed(sets, ",", "=?"))
    modifies s
    ensures var sets := Others(Leaves(m), vInKey);
            && ok == (accepted || (!bHackInsert && sets == []))
            && (ok && bHackInsert ==>
                  && s.sql == Cut(InsertText(table, vInKey, sets))
                  && s.bound == Bound(Keep(Leaves(m), vInKey) + Keep(Leaves(m), sets)))
            && (ok && !bHackInsert && sets != [] ==>
                  && s.sql == Cut(UpdateText(table, vInKey, sets))
                  && s.bound == Bound(Keep(Leaves(m), sets) + Keep(Leaves(m), vInKey)))
            && (!bHackInsert && sets == [] ==> s.sql == old(s.sql) && s.bound == old(s.bound))
  {
    var vSet := CollectEntitySetFields(m, vInKey, []);
    assert vSet == Others(Leaves(m), vInKey);
    if bHackInsert {
      ok := s.PrepareInsert(table, vInKey, vSet, accepted);
      if ok { ParseInsertParams(s, m, vInKey, vSet); }
    } else if |vSet| > 0 {
      ok := s.PrepareUpdate(table, vInKey, vSet, accepted);
      if ok { ParseEntityParams(s, m, vInKey, vSet); }
    } else {
      ok := true;
    }
  }

  method ParseDelete(m: Message, table: string, vInKey: seq<string>, s: ZdbStatement, accepted: bool) returns (ok: bool)
    requires s.Fresh() && Fits(KeyClause(vInKey))
    modifies s
    ensures ok == accepted
    ensures ok ==> s.sql == Cut(DeleteText(table, vInKey)) && s.bound == Bound(Keep(Leaves(m), vInKey))
  {
    ok := s.PrepareDelete(table, vInKey, accepted);
    if ok {
      ParseEntityParams(s, m, vInKey, []);
      KeepNone(Leaves(m));
      assert [] + Keep(Leaves(m), vInKey) == Keep(Leaves(m), vInKey);
    }
  }

  /** The part of ParseProc that handles the field `param`: as many placeholders as parameters bound, whatever
      the types. */
  method ParseProcParam(param: Message, proc: string, s: ZdbStatement, accepted: bool) returns (ok: bool)
    requires s.Fresh() && PlainText(proc) && |CallText(proc, |Bound(Leaves(param))|)| < SQL_SIZE
    modifies s
    ensures ok == accepted
    ensures ok ==> s.sql == CallText(proc, |s.bound|) && s.bound == Bound(Leaves(param)) && s.parameterCount == |s.bound|
  {
    var n := ParseProcParamsCount(param);
    ok := s.PrepareStoredProcCall(proc, n, accepted);
    CallPlaceholders(proc, n);
    if ok {
      var vInParam := CollectProcInputParams(param, []);
      assert vInParam == Leaves(param);
      s.AddInputParams(vInParam);
    }
  }

  // ---------- alignment ----------

  lemma {:induction false} BoundAll(params: seq<Leaf>)
    requires AllBindable(params)
    ensures Bound(params) == params
  {
    if params != [] {
      var init, last := params[..|params| - 1], params[|params| - 1];
      assert Bindable(last.ty);
      BoundAll(init);
      assert params == init + [last];
    }
  }

  lemma {:induction false} BoundAppend(a: seq<Leaf>, b: seq<Leaf>)
    ensures Bound(a + b) == Bound(a) + Bound(b)
  {
    if b == [] {
      assert a + b == a;
    } else {
      assert Butlast(a + b) == a + Butlast(b);
      BoundAppend(a, Butlast(b));
    }
  }

  // Passing over the types without a binder commutes with picking names.
  lemma {:induction false} BoundKeep(leaves: seq<Leaf>, names: seq<string>)
    ensures Bound(Keep(leaves, names)) == Keep(Bound(leaves), names)
  {
    if leaves != [] {
      var init, last := Butlast(leaves), Last(leaves);
      var one := if Bindable(last.ty) then [last] else [];
      BoundKeep(init, names);
      assert leaves == init + [last];
      KeepAppend(init, [last], names);
      KeepOne(last, names);
      KeepNothing(names);
      BoundAppend(Keep(init, names), Keep([last], names));
      BoundOne(last);
      KeepAppend(Bound(init), one, names);
    }
  }

  lemma BoundOne(leaf: Leaf)
    ensures Bound([leaf]) == (if Bindable(leaf.ty) then [leaf] else []) && Bound([]) == []
  {
    assert Butlast([leaf]) == [];
  }

  lemma {:induction false} BoundLength(leaves: seq<Leaf>)
    ensures |Bound(leaves)| <= |leaves|
    ensures |Bound(leaves)| == |leaves| <==> AllBindable(leaves)
    ensures AllBindable(leaves) ==> Bound(leaves) == leaves
  {
    if leaves != [] {
      BoundLength(Butlast(leaves));
      assert leaves == Butlast(leaves) + [Last(leaves)];
    }
  }

  lemma {:induction false} NamesAppend(a: seq<Leaf>, b: seq<Leaf>)
    ensures NamesOf(a + b) == NamesOf(a) + NamesOf(b)
  {
  }

  // A name that is not a key is set exactly when a leaf has it.
  lemma {:induction false} OthersHas(leaves: seq<Leaf>, keys: seq<string>, name: string)
    ensures name in Others(leaves, keys) <==> name !in keys && exists k :: 0 <= k < |leaves| && leaves[k].name == name
  {
    if leaves != [] { OthersHas(leaves[1..], keys, name); }
  }

  lemma {:induction false} KeepOthers(leaves: seq<Leaf>, keys: seq<string>, sets: seq<string>)
    requires forall k :: 0 <= k < |leaves| ==> (leaves[k].name in sets <==> leaves[k].name !in keys)
    ensures NamesOf(Keep(leaves, sets)) == Others(leaves, keys)
  {
    if leaves != [] { KeepOthers(leaves[1..], keys, sets); }
  }

  /** The SET parameters bound are those of the SET column list, one for one, for every entity, nested or not
      and with whatever keys. */
  lemma SetsAligned(m: Message, keys: seq<string>)
    ensures NamesOf(Keep(Leaves(m), Others(Leaves(m), keys))) == Others(Leaves(m), keys)
  {
    var leaves := Leaves(m);
    forall k | 0 <= k < |leaves| ensures leaves[k].name in Others(leaves, keys) <==> leaves[k].name !in keys {
      OthersHas(leaves, keys, leaves[k].name);
    }
    KeepOthers(leaves, keys, Others(leaves, keys));
  }

  lemma {:induction false} KeepNamed(leaves: seq<Leaf>, names: seq<string>)
    ensures forall k :: 0 <= k < |Keep(leaves, names)| ==> Keep(leaves, names)[k].name in names
  {
    if leaves != [] { KeepNamed(leaves[1..], names); }
  }

  lemma OthersNamed(leaves: seq<Leaf>, keys: seq<string>)
    ensures forall k :: 0 <= k < |Others(leaves, keys)| ==> Others(leaves, keys)[k] !in keys
  {
    forall k | 0 <= k < |Others(leaves, keys)| ensures Others(leaves, keys)[k] !in keys {
      OthersHas(leaves, keys, Others(leaves, keys)[k]);
    }
  }

  // Two lists in which the names of one kind come first are equal part by part.
  lemma {:induction false} EqualParts(a: seq<string>, b: seq<string>, c: seq<string>, d: seq<string>, kind: string -> bool)
    requires forall x :: (x in a || x in c) ==> kind(x)
    requires forall x :: (x in b || x in d) ==> !kind(x)
    ensures a + b == c + d <==> a == c && b == d
  {
    if a == [] && c == [] {
      assert a + b == b && c + d == d;
    } else if a == [] {
      assert a + b == b && (c + d)[0] == c[0] && c[0] in c;
      if b != [] { assert b[0] in b; }
    } else if c == [] {
      assert c + d == d && (a + b)[0] == a[0] && a[0] in a;
      if d != [] { assert d[0] in d; }
    } else {
      EqualParts(a[1..], b, c[1..], d, kind);
      assert (a + b)[1..] == a[1..] + b && (c + d)[1..] == c[1..] + d;
      assert a + b == [a[0]] + (a[1..] + b) && c + d == [c[0]] + (c[1..] + d);
    }
  }

  // The names of what is bound for the set fields and for the keys.
  lemma BoundParts(m: Message, keys: seq<string>)
    ensures var sets, leaves := Others(Leaves(m), keys), Leaves(m);
            var a, b := NamesOf(Keep(Bound(leaves), sets)), NamesOf(Keep(Bound(leaves), keys));
            && NamesOf(Bound(Keep(leaves, sets) + Keep(leaves, keys))) == a + b
            && NamesOf(Bound(Keep(leaves, keys) + Keep(leaves, sets))) == b + a
            && (forall x :: x in a || x in sets ==> x !in keys) && (forall x :: x in b ==> x in keys)
            && (sets == a <==> AllBindable(Keep(leaves, sets)))
  {
    var sets, leaves := Others(Leaves(m), keys), Leaves(m);
    SetsAligned(m, keys);
    OthersNamed(leaves, keys);
    hide Others, Leaves, Keep, Bound, NamesOf;
    BoundKeep(leaves, sets);
    BoundKeep(leaves, keys);
    BoundAppend(Keep(leaves, sets), Keep(leaves, keys));
    BoundAppend(Keep(leaves, keys), Keep(leaves, sets));
    NamesAppend(Keep(Bound(leaves), sets), Keep(Bound(leaves), keys));
    NamesAppend(Keep(Bound(leaves), keys), Keep(Bound(leaves), sets));
    KeepNamed(Bound(leaves), sets);
    KeepNamed(Bound(leaves), keys);
    BoundLength(Keep(leaves, sets));
  }

  /** UPDATE: every placeholder gets the value of the column it stands for if and only if the type of every set
      field has a binder and the keys are given as the bindable key fields occur in the traversal. */
  lemma UpdateAligned(m: Message, table: string, keys: seq<string>)
    requires Quotable(table) && PlainNames(keys) && PlainNames(Others(Leaves(m), keys))
    ensures var sets := Others(Leaves(m), keys);
            var bound := Bound(Keep(Leaves(m), sets) + Keep(Leaves(m), keys));
            Assigned(Lex(UpdateText(table, keys, sets))) == NamesOf(bound) <==>
              AllBindable(Keep(Leaves(m), sets)) && keys == NamesOf(Keep(Bound(Leaves(m)), keys))
  {
    hide Lex, Assigned, UpdateText, Leaves, Others, Quotable, NamesOf, Keep, Bound;
    var leaves := Leaves(m);
    var sets := Others(leaves, keys);
    UpdatePlaceholders(table, keys, sets);
    BoundParts(m, keys);
    EqualParts(sets, keys, NamesOf(Keep(Bound(leaves), sets)), NamesOf(Keep(Bound(leaves), keys)), x => x !in keys);
  }

  /** INSERT: the same. */
  lemma InsertAligned(m: Message, table: string, keys: seq<string>)
    requires Quotable(table) && PlainNames(keys) && PlainNames(Others(Leaves(m), keys))
    ensures var sets := Others(Leaves(m), keys);
            var bound := Bound(Keep(Leaves(m), keys) + Keep(Leaves(m), sets));
            Columns(Lex(InsertText(table, keys, sets))) == NamesOf(bound) <==>
              AllBindable(Keep(Leaves(m), sets)) && keys == NamesOf(Keep(Bound(Leaves(m)), keys))
  {
    hide Lex, Columns, InsertText, Leaves, Others, Quotable, NamesOf, Keep, Bound;
    var leaves := Leaves(m);
    var sets := Others(leaves, keys);
    InsertPlaceholders(table, keys, sets);
    BoundParts(m, keys);
    EqualParts(keys, sets, NamesOf(Keep(Bound(leaves), keys)), NamesOf(Keep(Bound(leaves), sets)), x => x in keys);
  }

  /** DELETE: the same for the keys. */
  lemma DeleteAligned(m: Message, table: string, keys: seq<string>)
    requires Quotable(table) && PlainNames(keys)
    ensures var bound := Bound(Keep(Leaves(m), keys));
            Assigned(Lex(DeleteText(table, keys))) == NamesOf(bound) <==> keys == NamesOf(Keep(Bound(Leaves(m)), keys))
  {
    hide Lex, Assigned, Leaves;
    WherePlaceholders("DELETE FROM ", table, keys) by { DeleteWord(); }
    BoundKeep(Leaves(m), keys);
  }

  /** Two keys in the wrong order misalign all three, on any entity with these fields. */
  lemma OrderFails(m: Message, table: string, a: string, b: string)
    requires a != b && Quotable(table) && Quotable(a) && Quotable(b) && PlainNames(Others(Leaves(m), [b, a]))
    requires NamesOf(Keep(Bound(Leaves(m)), [b, a])) == [a, b]
    ensures var keys, leaves := [b, a], Leaves(m);
            var sets := Others(leaves, keys);
            && Assigned(Lex(UpdateText(table, keys, sets))) != NamesOf(Bound(Keep(leaves, sets) + Keep(leaves, keys)))
            && Columns(Lex(InsertText(table, keys, sets))) != NamesOf(Bound(Keep(leaves, keys) + Keep(leaves, sets)))
            && Assigned(Lex(DeleteText(table, keys))) != NamesOf(Bound(Keep(leaves, keys)))
  {
    assert PlainNames([b, a]);
    hide Lex, Assigned, Columns, UpdateText, InsertText, DeleteText, Leaves, Others, NamesOf, Keep, Bound;
    UpdateAligned(m, table, [b, a]);
    InsertAligned(m, table, [b, a]);
    DeleteAligned(m, table, [b, a]);
    assert [b, a][0] != [a, b][0];
  }

  lemma DeleteWord()
    ensures PlainText("DELETE FROM ") && PlainText("SELECT * FROM ")
  {
  }

  // ---------- SELECT ----------

  predicate Flat(m: Message) {
    forall k :: 0 <= k < |m.fields| && m.fields[k].present && !m.fields[k].repeated ==> m.fields[k].kind.Scalar?
  }

  predicate Distinct(names: seq<string>) { forall j, k :: 0 <= j < k < |names| ==> names[j] != names[k] }

  lemma {:induction false} CopiesOnce(names: seq<string>, name: string)
    requires Distinct(names)
    ensures Copies(names, name) == if name in names then [name] else []
  {
    if names != [] {
      CopiesOnce(Butlast(names), name);
      assert names == Butlast(names) + [Last(names)];
    }
  }

  lemma {:induction false} ValidKeysFlat(m: Message, keys: seq<string>, i: nat)
    requires Flat(m) && Distinct(keys) && i <= |m.fields|
    ensures ValidKeysTo(m, keys, i) == NamesOf(Keep(LeavesTo(m, i), keys))
    decreases i
  {
    hide Keep, Copies, NamesOf, Flat, Distinct, FieldLeaves;
    if i == 0 {
      NothingKept(keys);
    } else {
      var f := m.fields[i - 1];
      FlatField(m, i - 1);
      ValidKeysFlat(m, keys, i - 1);
      assert LeavesTo(m, i) == LeavesTo(m, i - 1) + FieldLeaves(f);
      hide LeavesTo;
      KeepAppend(LeavesTo(m, i - 1), FieldLeaves(f), keys);
      NamesAppend(Keep(LeavesTo(m, i - 1), keys), Keep(FieldLeaves(f), keys));
      KeyOf(f, keys);
    }
  }

  lemma NothingKept(names: seq<string>)
    ensures NamesOf(Keep([], names)) == []
  {
  }

  lemma FlatField(m: Message, i: nat)
    requires Flat(m) && i < |m.fields|
    ensures m.fields[i].present && !m.fields[i].repeated ==> m.fields[i].kind.Scalar?
  {
  }

  // A present leaf is a key at most once; any other field of a flat entity never is.
  lemma KeyOf(f: Field, keys: seq<string>)
    requires Distinct(keys) && (f.present && !f.repeated ==> f.kind.Scalar?)
    ensures NamesOf(Keep(FieldLeaves(f), keys)) == if f.repeated || !f.present then [] else Copies(keys, f.name)
  {
    if !f.repeated && f.present {
      KeepOne(FieldLeaves(f)[0], keys);
      CopiesOnce(keys, f.name);
    } else {
      KeepNothing(keys);
    }
  }

  lemma {:induction false} KeepSame(leaves: seq<Leaf>, a: seq<string>, b: seq<string>)
    requires forall k :: 0 <= k < |leaves| ==> (leaves[k].name in a <==> leaves[k].name in b)
    ensures Keep(leaves, a) == Keep(leaves, b)
  {
    if leaves != [] { KeepSame(leaves[1..], a, b); }
  }

  lemma {:induction false} KeepHas(leaves: seq<Leaf>, names: seq<string>, name: string)
    ensures name in NamesOf(Keep(leaves, names)) <==> name in names && exists k :: 0 <= k < |leaves| && leaves[k].name == name
  {
    if leaves != [] {
      KeepHas(leaves[1..], names, name);
      if leaves[0].name in names {
        assert Keep(leaves, names)[1..] == Keep(leaves[1..], names);
        assert NamesOf(Keep(leaves, names)) == [leaves[0].name] + NamesOf(Keep(leaves[1..], names));
      } else {
        assert Keep(leaves, names) == Keep(leaves[1..], names);
      }
    }
  }

  // The j-th placeholder gets the value of the j-th WHERE column.
  predicate SelectIsAligned(m: Message, table: string, keys: seq<string>) {
    var valid := ValidKeys(m, keys);
    Assigned(Lex(SelectText(table, valid))) == NamesOf(Bound(Keep(Leaves(m), valid)))
  }

  /** SELECT is aligned if and only if the keys found at the top are, in field order, the names of the bindable
      leaves they pick anywhere in the entity. */
  lemma SelectAligned(m: Message, table: string, keys: seq<string>)
    requires Quotable(table) && PlainNames(ValidKeys(m, keys))
    ensures SelectIsAligned(m, table, keys) <==>
            ValidKeys(m, keys) == NamesOf(Keep(Bound(Leaves(m)), ValidKeys(m, keys)))
  {
    hide Lex, Assigned, Leaves;
    WherePlaceholders("SELECT * FROM ", table, ValidKeys(m, keys)) by { DeleteWord(); }
    BoundKeep(Leaves(m), ValidKeys(m, keys));
  }

  /** So it is on a flat entity of bindable types with no key twice, in whatever order the keys are given. */
  lemma SelectFlatAligned(m: Message, table: string, keys: seq<string>)
    requires Flat(m) && Distinct(keys) && AllBindable(Leaves(m)) && Quotable(table) && PlainNames(ValidKeys(m, keys))
    ensures SelectIsAligned(m, table, keys)
  {
    var leaves, valid := Leaves(m), ValidKeys(m, keys);
    ValidKeysFlat(m, keys, |m.fields|);
    forall k | 0 <= k < |leaves| ensures leaves[k].name in valid <==> leaves[k].name in keys {
      KeepHas(leaves, keys, leaves[k].name);
    }
    KeepSame(leaves, valid, keys);
    BoundAll(leaves);
    SelectAligned(m, table, keys);
  }

  // ---------- SELECT on any entity ----------

  // Field names are unique within a message.
  predicate UniqueFields(m: Message) {
    forall i, j :: 0 <= i < j < |m.fields| ==> m.fields[i].name != m.fields[j].name
  }

  predicate Shown(m: Message, i: nat, name: string) {
    i < |m.fields| && m.fields[i].present && !m.fields[i].repeated && m.fields[i].name == name
  }

  // Field i is a present scalar of this name, of a type with a binder.
  predicate IsColumn(m: Message, i: nat, name: string) {
    Shown(m, i, name) && m.fields[i].kind.Scalar? && Bindable(m.fields[i].kind.ty)
  }

  // Every key found at the top is given once and names such a scalar.
  predicate KeysAreColumns(m: Message, keys: seq<string>) {
    forall name :: name in ValidKeys(m, keys) ==>
      multiset(keys)[name] == 1 && exists i | 0 <= i < |m.fields| :: IsColumn(m, i, name)
  }

  // No leaf that would be bound for a key lies below the top.
  predicate Unshadowed(m: Message, keys: seq<string>) {
    forall i :: 0 <= i < |m.fields| && m.fields[i].kind.Sub? ==> NoneNamed(m.fields[i], ValidKeys(m, keys))
  }

  predicate NoneNamed(f: Field, names: seq<string>) {
    var below := Bound(FieldLeaves(f));
    forall k :: 0 <= k < |below| ==> below[k].name !in names
  }

  lemma {:induction false} CopiesCount(names: seq<string>, name: string, n: string)
    ensures multiset(Copies(names, name))[n] == if n == name then multiset(names)[n] else 0
    ensures name in Copies(names, name) <==> name in names
  {
    if names != [] {
      CopiesCount(Butlast(names), name, n);
      assert names == Butlast(names) + [Last(names)];
    }
  }

  // A key found at the top is there as often as it is given.
  predicate ShownBefore(m: Message, i: nat, n: string) { exists j | 0 <= j < i :: Shown(m, j, n) }

  lemma ShownBeforeStep(m: Message, i: nat, n: string)
    requires UniqueFields(m) && 0 < i <= |m.fields|
    ensures ShownBefore(m, i, n) <==> ShownBefore(m, i - 1, n) || Shown(m, i - 1, n)
    ensures !(ShownBefore(m, i - 1, n) && Shown(m, i - 1, n))
  {
  }

  lemma {:induction false} ValidCount(m: Message, keys: seq<string>, i: nat, n: string)
    requires UniqueFields(m) && i <= |m.fields|
    ensures multiset(ValidKeysTo(m, keys, i))[n] == if ShownBefore(m, i, n) then multiset(keys)[n] else 0
    decreases i
  {
    hide Copies, UniqueFields, ShownBefore;
    if i == 0 {
      NoneShown(m, n);
    } else {
      var f := m.fields[i - 1];
      ShownBeforeStep(m, i, n);
      var before, more := ValidKeysTo(m, keys, i - 1), if f.repeated || !f.present then [] else Copies(keys, f.name);
      ValidCount(m, keys, i - 1, n);
      CopiesCount(keys, f.name, n);
      assert ValidKeysTo(m, keys, i) == before + more;
      assert multiset(before + more)[n] == multiset(before)[n] + multiset(more)[n];
    }
  }

  lemma NoneShown(m: Message, n: string)
    ensures !ShownBefore(m, 0, n)
  {
  }

  lemma {:induction false} KeepCount(leaves: seq<Leaf>, names: seq<string>, n: string)
    ensures multiset(NamesOf(Keep(leaves, names)))[n] == if n in names then multiset(NamesOf(leaves))[n] else 0
  {
    if leaves != [] {
      KeepCount(leaves[1..], names, n);
      var one := if leaves[0].name in names then [leaves[0]] else [];
      NamesAppend(one, Keep(leaves[1..], names));
    }
  }

  // The names of the bindable leaves of the first i fields.
  function BoundNames(m: Message, i: nat): seq<string>
    requires i <= |m.fields|
  {
    NamesOf(Bound(LeavesTo(m, i)))
  }

  lemma NoBoundNames(m: Message, n: string)
    ensures BoundNames(m, 0) == [] && !ColumnBefore(m, 0, n)
  {
  }

  lemma BoundNamesStep(m: Message, i: nat)
    requires 0 < i <= |m.fields|
    ensures BoundNames(m, i) == BoundNames(m, i - 1) + NamesOf(Bound(FieldLeaves(m.fields[i - 1])))
  {
    hide NamesOf;
    BoundAppend(LeavesTo(m, i - 1), FieldLeaves(m.fields[i - 1]));
    NamesAppend(Bound(LeavesTo(m, i - 1)), Bound(FieldLeaves(m.fields[i - 1])));
  }

  // A scalar field binds one value if it is a column, and none otherwise.
  lemma ScalarBound(m: Message, i: nat)
    requires i < |m.fields| && m.fields[i].kind.Scalar?
    ensures NamesOf(Bound(FieldLeaves(m.fields[i]))) ==
            if IsColumn(m, i, m.fields[i].name) then [m.fields[i].name] else []
  {
    var f := m.fields[i];
    BoundOne(Leaf(f.name, f.kind.ty, f.kind.value));
  }

  // With nothing below the top, a key binds once where it names a column and never otherwise.
  lemma FieldCount(m: Message, keys: seq<string>, i: nat, n: string)
    requires Unshadowed(m, keys) && n in ValidKeys(m, keys) && i < |m.fields|
    ensures multiset(NamesOf(Bound(FieldLeaves(m.fields[i]))))[n] == if IsColumn(m, i, n) then 1 else 0
  {
    var f := m.fields[i];
    hide ValidKeys, Bound, FieldLeaves;
    if f.kind.Scalar? {
      ScalarBound(m, i);
    } else {
      assert NoneNamed(f, ValidKeys(m, keys));
      assert n !in NamesOf(Bound(FieldLeaves(f)));
    }
  }

  predicate ColumnBefore(m: Message, i: nat, n: string)
    requires i <= |m.fields|
  {
    exists j | 0 <= j < i :: IsColumn(m, j, n)
  }

  lemma ColumnBeforeStep(m: Message, i: nat, n: string)
    requires UniqueFields(m) && 0 < i <= |m.fields|
    ensures ColumnBefore(m, i, n) <==> ColumnBefore(m, i - 1, n) || IsColumn(m, i - 1, n)
    ensures !(ColumnBefore(m, i - 1, n) && IsColumn(m, i - 1, n))
  {
  }

  lemma {:induction false} ColumnCount(m: Message, keys: seq<string>, i: nat, n: string)
    requires UniqueFields(m) && Unshadowed(m, keys) && n in ValidKeys(m, keys) && i <= |m.fields|
    ensures multiset(BoundNames(m, i))[n] == if ColumnBefore(m, i, n) then 1 else 0
    decreases i
  {
    hide *;
    if i == 0 {
      NoBoundNames(m, n);
    } else {
      ColumnCount(m, keys, i - 1, n);
      BoundNamesStep(m, i);
      FieldCount(m, keys, i - 1, n);
      ColumnBeforeStep(m, i, n);
      var before, more := BoundNames(m, i - 1), NamesOf(Bound(FieldLeaves(m.fields[i - 1])));
      assert multiset(before + more)[n] == multiset(before)[n] + multiset(more)[n];
    }
  }

  // A leaf below the top that shares its name with a column is bound as well.
  lemma {:induction false} ShadowCount(m: Message, i: nat, c: nat, d: nat, n: string)
    requires i <= |m.fields| && IsColumn(m, c, n)
    requires d < |m.fields| && m.fields[d].kind.Sub? && n in NamesOf(Bound(FieldLeaves(m.fields[d])))
    ensures multiset(BoundNames(m, i))[n] >= (if c < i then 1 else 0) + (if d < i then 1 else 0)
  {
    hide Bindable, Bound, NamesOf, FieldLeaves;
    if i > 0 {
      ShadowCount(m, i - 1, c, d, n);
      BoundNamesStep(m, i);
      if i - 1 == c { ScalarBound(m, c); }
    }
  }

  lemma PickedAppend(a: seq<Leaf>, b: seq<Leaf>, names: seq<string>)
    ensures NamesOf(Keep(Bound(a + b), names)) == NamesOf(Keep(Bound(a), names)) + NamesOf(Keep(Bound(b), names))
  {
    hide *;
    BoundAppend(a, b);
    KeepAppend(Bound(a), Bound(b), names);
    NamesAppend(Keep(Bound(a), names), Keep(Bound(b), names));
  }

  lemma NonePicked(names: seq<string>)
    ensures NamesOf(Keep(Bound([]), names)) == []
  {
  }

  lemma {:induction false} ColumnsInOrder(m: Message, keys: seq<string>, i: nat)
    requires UniqueFields(m) && KeysAreColumns(m, keys) && Unshadowed(m, keys) && i <= |m.fields|
    ensures ValidKeysTo(m, keys, i) == NamesOf(Keep(Bound(LeavesTo(m, i)), ValidKeys(m, keys)))
    decreases i
  {
    hide Bound, Keep, NamesOf, FieldLeaves, ValidKeys, Copies, KeysAreColumns, Unshadowed, UniqueFields;
    if i == 0 {
      NonePicked(ValidKeys(m, keys));
    } else {
      ColumnsInOrder(m, keys, i - 1);
      OneFieldInOrder(m, keys, i - 1);
      PickedAppend(LeavesTo(m, i - 1), FieldLeaves(m.fields[i - 1]), ValidKeys(m, keys));
    }
  }

  lemma OneFieldInOrder(m: Message, keys: seq<string>, i: nat)
    requires UniqueFields(m) && KeysAreColumns(m, keys) && Unshadowed(m, keys) && i < |m.fields|
    ensures var f := m.fields[i];
            (if f.repeated || !f.present then [] else Copies(keys, f.name)) ==
            NamesOf(Keep(Bound(FieldLeaves(f)), ValidKeys(m, keys)))
  {
    var f, valid := m.fields[i], ValidKeys(m, keys);
    ValidHas(m, keys, f.name);
    hide ValidKeys;
    if f.repeated || !f.present {
      assert Bound(FieldLeaves(f)) == [];
    } else {
      assert Shown(m, i, f.name);
      CopiesCount(keys, f.name, f.name);
      if f.name in valid { OnlyOne(keys, f.name); } else { NoCopies(keys, f.name); }
      if f.kind.Scalar? {
        var leaf := Leaf(f.name, f.kind.ty, f.kind.value);
        BoundOne(leaf);
        KeepOne(leaf, valid);
      } else {
        KeepNone2(Bound(FieldLeaves(f)), valid);
      }
    }
  }

  lemma ValidHas(m: Message, keys: seq<string>, n: string)
    requires UniqueFields(m)
    ensures n in ValidKeys(m, keys) <==> n in keys && exists i | 0 <= i < |m.fields| :: Shown(m, i, n)
    ensures n in ValidKeys(m, keys) ==> multiset(ValidKeys(m, keys))[n] == multiset(keys)[n]
  {
    ValidCount(m, keys, |m.fields|, n);
    assert n in ValidKeys(m, keys) <==> multiset(ValidKeys(m, keys))[n] > 0;
    assert n in keys <==> multiset(keys)[n] > 0;
  }

  lemma {:induction false} OnlyOne(keys: seq<string>, name: string)
    requires multiset(keys)[name] == 1
    ensures Copies(keys, name) == [name]
  {
    assert keys == Butlast(keys) + [Last(keys)];
    if Last(keys) == name {
      assert name !in multiset(Butlast(keys));
      NoCopies(Butlast(keys), name);
    } else {
      OnlyOne(Butlast(keys), name);
    }
  }

  lemma {:induction false} NoCopies(keys: seq<string>, name: string)
    requires name !in keys
    ensures Copies(keys, name) == []
  {
    if keys != [] {
      assert keys == Butlast(keys) + [Last(keys)];
      NoCopies(Butlast(keys), name);
    }
  }

  lemma {:induction false} KeepNone2(leaves: seq<Leaf>, names: seq<string>)
    requires forall k :: 0 <= k < |leaves| ==> leaves[k].name !in names
    ensures Keep(leaves, names) == []
  {
    if leaves != [] { KeepNone2(leaves[1..], names); }
  }

  /** In terms a caller can check: of the two conditions that each key found at the top is given once and names
      a scalar with a binder, and that no bindable leaf below the top has the name of such a key, both are needed
      and enough for SELECT to be aligned as soon as one of them holds.  (SelectCoincides: when both fail the
      names can agree by chance.) */
  lemma SelectExact(m: Message, table: string, keys: seq<string>)
    requires UniqueFields(m) && Quotable(table) && PlainNames(ValidKeys(m, keys))
    requires KeysAreColumns(m, keys) || Unshadowed(m, keys)
    ensures SelectIsAligned(m, table, keys) <==> KeysAreColumns(m, keys) && Unshadowed(m, keys)
  {
    hide SelectIsAligned;
    SelectAligned(m, table, keys);
    if KeysAreColumns(m, keys) && Unshadowed(m, keys) {
      ColumnsInOrder(m, keys, |m.fields|);
    } else if SelectIsAligned(m, table, keys) {
      AlignedCounts(m, keys);
      if Unshadowed(m, keys) { AlignedColumns(m, keys); } else { AlignedShadow(m, keys); }
    }
  }

  lemma AlignedCounts(m: Message, keys: seq<string>)
    requires UniqueFields(m) && ValidKeys(m, keys) == NamesOf(Keep(Bound(Leaves(m)), ValidKeys(m, keys)))
    ensures forall n :: n in ValidKeys(m, keys) ==> multiset(keys)[n] == multiset(BoundNames(m, |m.fields|))[n]
  {
    forall n | n in ValidKeys(m, keys) ensures multiset(keys)[n] == multiset(BoundNames(m, |m.fields|))[n] {
      ValidHas(m, keys, n);
      KeepCount(Bound(Leaves(m)), ValidKeys(m, keys), n);
    }
  }

  lemma AlignedColumns(m: Message, keys: seq<string>)
    requires UniqueFields(m) && Unshadowed(m, keys)
    requires forall n :: n in ValidKeys(m, keys) ==> multiset(keys)[n] == multiset(BoundNames(m, |m.fields|))[n]
    ensures KeysAreColumns(m, keys)
  {
    forall n | n in ValidKeys(m, keys)
      ensures multiset(keys)[n] == 1 && exists i | 0 <= i < |m.fields| :: IsColumn(m, i, n)
    {
      ValidHas(m, keys, n);
      ColumnCount(m, keys, |m.fields|, n);
      assert n in multiset(ValidKeys(m, keys));
    }
  }

  lemma AlignedShadow(m: Message, keys: seq<string>)
    requires UniqueFields(m) && KeysAreColumns(m, keys)
    requires forall n :: n in ValidKeys(m, keys) ==> multiset(keys)[n] == multiset(BoundNames(m, |m.fields|))[n]
    ensures Unshadowed(m, keys)
  {
    if d, k :| 0 <= d < |m.fields| && m.fields[d].kind.Sub? && 0 <= k < |Bound(FieldLeaves(m.fields[d]))|
               && Bound(FieldLeaves(m.fields[d]))[k].name in ValidKeys(m, keys) {
      var n := Bound(FieldLeaves(m.fields[d]))[k].name;
      assert n == NamesOf(Bound(FieldLeaves(m.fields[d])))[k];
      var c :| 0 <= c < |m.fields| && IsColumn(m, c, n);
      ShadowCount(m, |m.fields|, c, d, n);
    }
  }

  /** Three ways to misalign a SELECT: a key given twice, a key that names a message or a field without a binder,
      and a leaf below the top with the name of a key. */
  lemma SelectFails(m: Message, table: string, keys: seq<string>, name: string)
    requires UniqueFields(m) && Quotable(table) && PlainNames(ValidKeys(m, keys)) && name in ValidKeys(m, keys)
    requires
      || (Unshadowed(m, keys) && multiset(keys)[name] > 1)
      || (Unshadowed(m, keys) && forall i :: 0 <= i < |m.fields| ==> !IsColumn(m, i, name))
      || (KeysAreColumns(m, keys) && exists i :: 0 <= i < |m.fields| && m.fields[i].kind.Sub? && !NoneNamed(m.fields[i], [name]))
    ensures !SelectIsAligned(m, table, keys)
  {
    hide SelectIsAligned;
    SelectExact(m, table, keys);
  }

  // A field id and, one level down, another one.
  const ONE := Leaf("id", Int32, 1)
  const TWO := Leaf("id", Int32, 2)
  const NESTED := Message([Field("id", false, true, Scalar(Int32, 1)),
                           Field("part", false, true, Sub(Message([Field("id", false, true, Scalar(Int32, 2))])))])

  /** For instance: a key is looked for among the fields at the top only, but bound wherever a leaf has its
      name. */
  lemma SelectNestedFails(table: string)
    requires Quotable(table)
    ensures ValidKeys(NESTED, ["id"]) == ["id"] && Bound(Keep(Leaves(NESTED), ["id"])) == [ONE, TWO]
    ensures !SelectIsAligned(NESTED, table, ["id"])
  {
    hide Leaves, ValidKeys, SelectIsAligned, Bound, FieldLeaves, Keep, Copies;
    NestedFacts();
    KeysOnce(NESTED, ["id"]);
    KeepBoth(ONE, TWO, ["id"]);
    assert PlainNames(["id"]);
    SelectAligned(NESTED, table, ["id"]);
    assert NamesOf([ONE, TWO]) != ["id"];
  }

  /** When a key is given twice and a leaf below the top has its name too, the names agree by chance, and the
      second placeholder gets the value from below. */
  lemma SelectCoincides(table: string)
    requires Quotable(table)
    ensures !KeysAreColumns(NESTED, ["id", "id"]) && !Unshadowed(NESTED, ["id", "id"])
    ensures SelectIsAligned(NESTED, table, ["id", "id"])
    ensures Bound(Keep(Leaves(NESTED), ValidKeys(NESTED, ["id", "id"]))) == [ONE, TWO]
  {
    hide Leaves, ValidKeys, SelectIsAligned, Bound, FieldLeaves, Keep, NamesOf, KeysAreColumns, Unshadowed, Copies;
    NestedFacts();
    KeysTwice(NESTED, ["id", "id"]);
    KeepBoth(ONE, TWO, ["id", "id"]);
    Coincidence(NESTED, table, ["id", "id"], ONE, TWO);
  }

  lemma NestedFacts()
    ensures Leaves(NESTED) == [ONE, TWO] && FieldLeaves(NESTED.fields[1]) == [TWO]
    ensures Bound([TWO]) == [TWO] && Bound([ONE, TWO]) == [ONE, TWO]
  {
    IdTwice(NESTED);
    hide Leaves, FieldLeaves;
    BoundOne(TWO);
    BoundAll([ONE, TWO]);
  }

  lemma KeysOnce(m: Message, keys: seq<string>)
    requires keys == ["id"] && |m.fields| == 2 && Shown(m, 0, "id") && Shown(m, 1, "part")
    ensures ValidKeys(m, keys) == keys
  {
    OnlyOne(keys, "id");
    NoCopies(keys, "part");
    hide Copies;
    assert ValidKeysTo(m, keys, 1) == keys && ValidKeys(m, keys) == ValidKeysTo(m, keys, 2);
  }

  lemma Coincidence(m: Message, table: string, keys: seq<string>, one: Leaf, two: Leaf)
    requires |m.fields| == 2 && m.fields[1].kind.Sub? && FieldLeaves(m.fields[1]) == [two] && Bound([two]) == [two]
    requires Leaves(m) == [one, two] && Bound([one, two]) == [one, two] && Keep([one, two], keys) == [one, two]
    requires keys == [one.name, two.name] && one.name == two.name && NamesOf([one, two]) == keys
    requires ValidKeys(m, keys) == keys && Quotable(table) && Quotable(one.name)
    ensures !KeysAreColumns(m, keys) && !Unshadowed(m, keys) && SelectIsAligned(m, table, keys)
    ensures Bound(Keep(Leaves(m), ValidKeys(m, keys))) == [one, two]
  {
    hide Leaves, ValidKeys, SelectIsAligned, Bound, FieldLeaves, Keep, NamesOf;
    SelectAligned(m, table, keys);
    assert multiset(keys)[one.name] == 2;
    assert [two][0].name in keys;
    assert !NoneNamed(m.fields[1], keys);
  }

  lemma KeepBoth(one: Leaf, two: Leaf, names: seq<string>)
    requires one.name in names && two.name in names
    ensures Keep([one, two], names) == [one, two] && NamesOf([one, two]) == [one.name, two.name]
  {
    KeepOne(one, names);
    KeepOne(two, names);
    KeepAppend([one], [two], names);
    assert [one] + [two] == [one, two] && [one, two][1..] == [two] && [two][1..] == [];
  }

  lemma KeysTwice(m: Message, keys: seq<string>)
    requires keys == ["id", "id"] && |m.fields| == 2 && Shown(m, 0, "id") && Shown(m, 1, "part")
    ensures ValidKeys(m, keys) == keys
  {
    assert Butlast(keys) == ["id"];
    OnlyOne(["id"], "id");
    assert Copies(keys, "id") == keys;
    NoCopies(keys, "part");
    hide Copies;
    assert ValidKeysTo(m, keys, 1) == keys && ValidKeys(m, keys) == ValidKeysTo(m, keys, 2);
  }

  lemma IdTwice(m: Message)
    requires m == Message([Field("id", false, true, Scalar(Int32, 1)),
                           Field("part", false, true, Sub(Message([Field("id", false, true, Scalar(Int32, 2))])))])
    ensures Leaves(m) == [Leaf("id", Int32, 1), Leaf("id", Int32, 2)]
    ensures FieldLeaves(m.fields[1]) == [Leaf("id", Int32, 2)]
  {
    var inner := m.fields[1].kind.message;
    var one, two := Leaf("id", Int32, 1), Leaf("id", Int32, 2);
    assert Leaves(inner) == LeavesTo(inner, 1) == LeavesTo(inner, 0) + [two] == [two];
    assert Leaves(m) == LeavesTo(m, 2) == LeavesTo(m, 1) + [two] && LeavesTo(m, 1) == LeavesTo(m, 0) + [one];
  }
}
