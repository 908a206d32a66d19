/**
 What becomes of a statement that is longer than its buffer, and of the alignment of its parameters then.

 A builder cuts the text to what _sql holds; the parameters are bound all the same.
 */
module SqlFit {
  import opened Sql

  // ---------- a text that ends in a placeholder ----------

  lemma {:induction false} LexPrefix(t: string, k: nat)
    requires Closed(t) && k <= |t|
    ensures Lex(t[..k]) <= Lex(t)
    decreases |t|
  {
    hide Lex, Closed, QuoteEnd;
    if k == 0 {
      LexNothing(t[..0]);
    } else if t[0] == '`' {
      QuotedPrefix(t, k);
      if k > QuoteEnd(t, 1) { LexPrefix(t[QuoteEnd(t, 1) + 1..], k - QuoteEnd(t, 1) - 1); }
    } else {
      TakeDrop(t, 1, k);
      LexPlain(t);
      LexPlain(t[..k]);
      LexPrefix(t[1..], k - 1);
    }
  }

  lemma LexNothing(s: string)
    requires s == ""
    ensures Lex(s) == []
  {
  }

  lemma LexPlain(s: string)
    requires s != "" && s[0] != '`'
    ensures Lex(s) == (if s[0] == '?' then [Mark] else []) + Lex(s[1..]) && (Closed(s) ==> Closed(s[1..]))
  {
  }

  // A quote that is cut yields nothing; one that is not, its name.
  lemma QuotedPrefix(t: string, k: nat)
    requires Closed(t) && 0 < k <= |t| && t[0] == '`'
    ensures var e := QuoteEnd(t, 1);
            && e < |t| && Closed(t[e + 1..]) && Lex(t) == [Ident(t[1..e])] + Lex(t[e + 1..])
            && (k <= e ==> Lex(t[..k]) == [])
            && (k > e ==> Lex(t[..k]) == [Ident(t[1..e])] + Lex(t[e + 1..][..k - e - 1]))
  {
    var p, e := t[..k], QuoteEnd(t, 1);
    assert e < |t| && Closed(t[e + 1..]);
    hide Lex, Closed;
    LexQuote(t, e);
    if k <= e {
      QuoteOpen(p);
    } else {
      QuoteAt(p, e);
      LexQuote(p, e);
      TakeDrop(t, e + 1, k);
      assert p[1..e] == t[1..e];
    }
  }

  lemma LexQuote(s: string, e: nat)
    requires s != "" && s[0] == '`' && QuoteEnd(s, 1) == e < |s|
    ensures Lex(s) == [Ident(s[1..e])] + Lex(s[e + 1..])
  {
  }

  lemma TakeDrop(t: string, i: nat, k: nat)
    requires i <= k <= |t|
    ensures t[..k][i..] == t[i..][..k - i]
  {
    var a, b := t[..k][i..], t[i..][..k - i];
    assert |a| == |b| && forall j :: 0 <= j < |a| ==> a[j] == t[i + j] == b[j];
  }

  lemma QuoteOpen(p: string)
    requires p != "" && p[0] == '`' && forall k :: 1 <= k < |p| ==> p[k] != '`'
    ensures Lex(p) == []
  {
  }

  lemma {:induction false} CountPrefix(a: seq<Token>, b: seq<Token>)
    requires a <= b
    ensures Count(a) <= Count(b)
  {
    CountAppend(a, b[|a|..]);
    assert b == a + b[|a|..];
  }

  /** _sql holds the whole text if and only if it fits; of a longer statement that ends in a placeholder at
      least that placeholder is lost. */
  lemma CutLosesMark(u: string)
    requires Closed(u)
    ensures var t := u + "?";
            && (Cut(t) == t <==> |t| < SQL_SIZE)
            && (|t| >= SQL_SIZE ==> Count(Lex(Cut(t))) < Count(Lex(t)))
  {
    var t := u + "?";
    assert "?"[1..] == "" && Lex("?") == [Mark];
    hide Lex, Closed;
    LexAppend(u, "?");
    if |t| >= SQL_SIZE {
      LexPrefix(u, SQL_SIZE - 1);
      assert Cut(t) == u[..SQL_SIZE - 1];
      CountPrefix(Lex(Cut(t)), Lex(u));
      assert Butlast(Lex(u) + [Mark]) == Lex(u);
    }
  }

  /** So a SELECT or DELETE with keys that does not fit, or an UPDATE with keys, whose text before the WHERE is
      `head`, has fewer placeholders than it has columns and keys. */
  lemma WhereCut(head: string, keys: seq<string>)
    requires Closed(head) && PlainNames(keys) && keys != []
    ensures var t := head + WhereText(keys);
            |t| >= SQL_SIZE ==> Count(Lex(Cut(t))) < Count(Lex(t)) == Count(Lex(head)) + |keys|
  {
    var body := WhereBody(keys);
    LexWhere(keys);
    WhereCount(keys);
    hide Lex, Closed, WhereText, Cut, Assigns;
    LexAppend(head, body);
    CutLosesMark(head + body);
    LexAppend(head, WhereText(keys));
    CountAppend(Lex(head), Assigns(keys));
    assert head + WhereText(keys) == head + body + "?";
  }

  // A clause without its last placeholder.
  lemma ListedBody(names: seq<string>, sep: string) returns (body: string)
    requires PlainNames(names) && PlainText(sep) && names != []
    ensures Closed(body) && Listed(names, sep, "=?") == body + "?"
  {
    var a, b, name := Listed(Butlast(names), sep, "=?"), if |names| > 1 then sep else "", Last(names);
    SepWords(b, sep);
    LexListed(Butlast(names), sep, true);
    LexQuoted(name);
    hide Lex, Closed, Quoted, PlainText, Quotable, PlainNames, Assigns;
    LexAppend(a, b);
    LexAppend(a + b, Quoted(name));
    body := a + b + Quoted(name) + "=";
    LexAppend(a + b + Quoted(name), "=");
    assert Listed(names, sep, "=?") == a + b + Quoted(name) + "=?";
    assert "=?" == "=" + "?";
  }

  lemma SepWords(b: string, sep: string)
    requires PlainText(sep) && (b == sep || b == "")
    ensures Closed("=") && Closed(b)
  {
    hide Lex, Closed;
    LexText("=");
    LexText(b);
  }

  lemma WhereBody(keys: seq<string>) returns (body: string)
    requires PlainNames(keys) && keys != []
    ensures Closed(body) && WhereText(keys) == body + "?"
  {
    assert PlainText(" AND ") && PlainText(" WHERE ");
    var rest := ListedBody(keys, " AND ");
    LexText(" WHERE ");
    hide Lex, Closed, Listed;
    LexAppend(" WHERE ", rest);
    body := " WHERE " + rest;
    assert " WHERE " + (rest + "?") == body + "?";
  }

  lemma WhereCount(keys: seq<string>)
    ensures Count(Assigns(keys)) == |keys|
  {
    AssignedNames([], keys);
    assert [] + Assigns(keys) == Assigns(keys);
  }

  // ---------- alignment of a text that is cut ----------

  lemma {:induction false} AssignedFew(ts: seq<Token>)
    ensures |Assigned(ts)| <= Count(ts)
  {
    if ts != [] { AssignedFew(Butlast(ts)); }
  }

  // A statement that is aligned, ends in a placeholder and has no placeholder too many is aligned as it is
  // sent if and only if it fits.
  lemma CutAligned(u: string, names: seq<string>)
    requires Closed(u) && Assigned(Lex(u + "?")) == names && Count(Lex(u + "?")) == |names|
    ensures Assigned(Lex(Cut(u + "?"))) == names <==> |u + "?"| < SQL_SIZE
  {
    CutLosesMark(u);
    AssignedFew(Lex(Cut(u + "?")));
    hide Lex, Closed, Assigned, Count;
  }

  // The keys of a statement with a WHERE clause.
  lemma WhereFits(verb: string, table: string, keys: seq<string>)
    requires PlainText(verb) && Quotable(table) && PlainNames(keys) && keys != []
    ensures var t := verb + Quoted(table) + WhereText(keys); Assigned(Lex(Cut(t))) == keys <==> |t| < SQL_SIZE
  {
    var body := WhereBody(keys);
    var head := verb + Quoted(table);
    WherePlaceholders(verb, table, keys);
    LexText(verb);
    LexQuoted(table);
    hide Lex, Closed, WhereText, Quoted, Assigned, Count, Cut, PlainText, Quotable, PlainNames;
    LexAppend(verb, Quoted(table));
    LexAppend(head, body);
    assert head + WhereText(keys) == head + body + "?";
    CutAligned(head + body, keys);
  }

  /** SELECT and DELETE as they are sent: keys aligned in the text get their values if and only if the text
      fits. */
  lemma SelectFits(m: Message, table: string, keys: seq<string>)
    requires Quotable(table) && PlainNames(ValidKeys(m, keys)) && ValidKeys(m, keys) != [] && SelectIsAligned(m, table, keys)
    ensures var valid := ValidKeys(m, keys);
            Assigned(Lex(Cut(SelectText(table, valid)))) == NamesOf(Bound(Keep(Leaves(m), valid))) <==>
              |SelectText(table, valid)| < SQL_SIZE
  {
    SelectAligned(m, table, keys);
    BoundKeep(Leaves(m), ValidKeys(m, keys));
    hide Lex, Assigned, Leaves, ValidKeys, Keep, Bound, NamesOf, SelectIsAligned, Cut;
    WhereFits("SELECT * FROM ", table, ValidKeys(m, keys)) by { DeleteWord(); }
  }

  lemma DeleteFits(m: Message, table: string, keys: seq<string>)
    requires Quotable(table) && PlainNames(keys) && keys != [] && keys == NamesOf(Keep(Bound(Leaves(m)), keys))
    ensures Assigned(Lex(Cut(DeleteText(table, keys)))) == NamesOf(Bound(Keep(Leaves(m), keys))) <==>
              |DeleteText(table, keys)| < SQL_SIZE
  {
    BoundKeep(Leaves(m), keys);
    hide Lex, Assigned, Leaves, Keep, Bound, NamesOf, Cut;
    WhereFits("DELETE FROM ", table, keys) by { DeleteWord(); }
  }

  // An UPDATE ends in a placeholder too, with or without keys.
  lemma UpdateBody(table: string, keys: seq<string>, sets: seq<string>) returns (u: string)
    requires Quotable(table) && PlainNames(keys) && PlainNames(sets) && sets != []
    ensures Closed(u) && UpdateText(table, keys, sets) == u + "?"
  {
    UpdateWords();
    LexQuoted(table);
    PlainComma();
    LexListed(sets, ",", true);
    var head, body := "UPDATE " + Quoted(table) + " SET ", Listed(sets, ",", "=?");
    hide Lex, Closed, Quoted, Listed, PlainText, Quotable, PlainNames, Assigns;
    LexAppend("UPDATE ", Quoted(table));
    LexAppend("UPDATE " + Quoted(table), " SET ");
    if keys == [] {
      var rest := ListedBody(sets, ",");
      LexAppend(head, rest);
      u := head + rest;
      assert head + (rest + "?") + "" == u + "?";
    } else {
      var rest := WhereBody(keys);
      LexAppend(head, body);
      LexAppend(head + body, rest);
      u := head + body + rest;
      assert head + body + (rest + "?") == u + "?";
    }
  }

  lemma UpdateFits(m: Message, table: string, keys: seq<string>)
    requires Quotable(table) && PlainNames(keys) && PlainNames(Others(Leaves(m), keys)) && Others(Leaves(m), keys) != []
    requires AllBindable(Keep(Leaves(m), Others(Leaves(m), keys))) && keys == NamesOf(Keep(Bound(Leaves(m)), keys))
    ensures var sets := Others(Leaves(m), keys);
            Assigned(Lex(Cut(UpdateText(table, keys, sets)))) == NamesOf(Bound(Keep(Leaves(m), sets) + Keep(Leaves(m), keys))) <==>
              |UpdateText(table, keys, sets)| < SQL_SIZE
  {
    var sets := Others(Leaves(m), keys);
    BoundParts(m, keys);
    hide Lex, Closed, Assigned, Count, Leaves, Keep, Bound, NamesOf, Others, Cut, UpdateText, Quotable, PlainNames, AllBindable;
    UpdatePlaceholders(table, keys, sets);
    var u := UpdateBody(table, keys, sets);
    CutAligned(u, sets + keys);
  }

  // ---------- an INSERT that is cut ----------

  lemma TakeFirst(a: string, b: string, k: nat)
    requires k <= |a + b|
    ensures k <= |a| ==> (a + b)[..k] == a[..k]
    ensures k >= |a| ==> (a + b)[..k] == a + b[..k - |a|]
  {
  }

  lemma HeadParts(table: string, keys: seq<string>, sets: seq<string>)
    ensures InsertHead(table, keys, sets) == InsertPart(table, keys, sets) + Marks(|keys| + |sets|) + ")"
    ensures InsertText(table, keys, sets) == InsertHead(table, keys, sets) + InsertTail(Duplicate(keys, sets))
  {
    hide Marks, Quoted, FieldList, Updates;
  }

  // The first k characters, the placeholders among them: columns and placeholders are as in the whole text.
  lemma InsertKept(table: string, keys: seq<string>, sets: seq<string>, k: nat)
    requires Quotable(table) && PlainNames(keys) && PlainNames(sets)
    requires |InsertHead(table, keys, sets)| <= k + 1 && k <= |InsertText(table, keys, sets)|
    ensures var ts := Lex(InsertText(table, keys, sets)[..k]); Columns(ts) == keys + sets && Count(ts) == |keys| + |sets|
  {
    var n, head, dup := |keys| + |sets|, InsertHead(table, keys, sets), Duplicate(keys, sets);
    var text, tail := InsertText(table, keys, sets), InsertTail(Duplicate(keys, sets));
    LexInsertHead(table, keys, sets);
    LexInsertPart(table, keys, sets, n);
    LexInsertTail(dup);
    HeadParts(table, keys, sets);
    assert n == 0 ==> tail == "";
    assert |keys + sets| == n;
    hide Lex, Closed, Marks, InsertText, InsertHead, InsertPart, InsertTail, Idents, Many, Columns, Count, PlainNames, Quotable, Duplicate;
    var part := InsertPart(table, keys, sets) + Marks(n);
    if k < |head| {
      TakeFirst(head, tail, k);
      TakeFirst(part, ")", k);
      assert part + "" == part;
      InsertTokens(table, keys + sets, []);
      assert [Ident(table)] + Idents(keys + sets) + Many(n) + [] == Lex(part);
    } else {
      var rest := tail[..k - |head|];
      TakeFirst(head, tail, k);
      LexAppend(head, rest);
      LexPrefix(tail, k - |head|);
      TailMarks(Lex(rest), Lex(tail));
      InsertTokens(table, keys + sets, Lex(rest));
    }
  }

  lemma TailMarks(a: seq<Token>, b: seq<Token>)
    requires a <= b && NoMark(b)
    ensures NoMark(a) && (b == [] ==> a == [])
  {
    assert forall k :: 0 <= k < |a| ==> a[k] == b[k];
  }

  // Anything shorter has lost a placeholder.
  lemma InsertLost(table: string, keys: seq<string>, sets: seq<string>, k: nat)
    requires Quotable(table) && PlainNames(keys) && PlainNames(sets) && |keys| + |sets| > 0
    requires k + 1 < |InsertHead(table, keys, sets)|
    ensures Count(Lex(InsertText(table, keys, sets)[..k])) < |keys| + |sets|
  {
    var n := |keys| + |sets|;
    var a, b := InsertPart(table, keys, sets) + Marks(n - 1), if n > 1 then "," else "";
    LexInsertPart(table, keys, sets, n - 1);
    PlainComma();
    LexText(b) by { CommaOrNothing(b); }
    HeadParts(table, keys, sets);
    assert Marks(n) == Marks(n - 1) + b + "?";
    PartCount(table, keys + sets, n - 1);
    hide Lex, Closed, Marks, InsertText, InsertHead, InsertPart, InsertTail, Idents, Many, Count, PlainNames, Quotable, Duplicate;
    LexSkip(a, b);
    assert InsertHead(table, keys, sets) == a + b + "?" + ")" by { Regroup(InsertPart(table, keys, sets), Marks(n - 1), b); }
    TakeFirst(InsertHead(table, keys, sets), InsertTail(Duplicate(keys, sets)), k);
    TakeFirst(a + b + "?", ")", k);
    TakeFirst(a + b, "?", k);
    LexPrefix(a + b, k);
    CountPrefix(Lex((a + b)[..k]), Lex(a + b));
  }

  lemma Regroup(p: string, m: string, b: string)
    ensures p + (m + b + "?") == p + m + b + "?"
  {
  }

  lemma CommaOrNothing(b: string)
    requires b == "," || b == ""
    ensures PlainText(b)
  {
  }

  lemma PartCount(table: string, cols: seq<string>, n: nat)
    ensures Count([Ident(table)] + Idents(cols) + Many(n)) == n
  {
    IdentsAre(cols);
    ManyAre(n);
    CountAppend([Ident(table)] + Idents(cols), Many(n));
    CountSame([Ident(table)] + Idents(cols), false);
    CountSame(Many(n), true);
  }

  /** INSERT as it is sent: it has a placeholder for every column if and only if the text up to the last of them
      fits, and the columns are aligned in what is left as they are in the whole text; what is cut off then
      is the end of the duplicate clause, or the last parenthesis. */
  lemma InsertFitting(m: Message, table: string, keys: seq<string>)
    requires Quotable(table) && PlainNames(keys) && PlainNames(Others(Leaves(m), keys)) && keys + Others(Leaves(m), keys) != []
    ensures var sets := Others(Leaves(m), keys);
            var sent := Lex(Cut(InsertText(table, keys, sets)));
            && (Count(sent) == |keys| + |sets| <==> |InsertHead(table, keys, sets)| <= SQL_SIZE)
            && (|InsertHead(table, keys, sets)| <= SQL_SIZE ==>
                  Columns(sent) == keys + sets
                  && (Columns(sent) == NamesOf(Bound(Keep(Leaves(m), keys) + Keep(Leaves(m), sets))) <==>
                        AllBindable(Keep(Leaves(m), sets)) && keys == NamesOf(Keep(Bound(Leaves(m)), keys))))
  {
    var sets := Others(Leaves(m), keys);
    var text, head := InsertText(table, keys, sets), InsertHead(table, keys, sets);
    InsertAligned(m, table, keys);
    InsertPlaceholders(table, keys, sets);
    HeadParts(table, keys, sets);
    assert |keys| + |sets| > 0;
    hide Lex, Columns, Count, InsertText, InsertHead, InsertTail, Leaves, Others, NamesOf, Keep, Bound, AllBindable, PlainNames, Quotable;
    if |text| >= SQL_SIZE {
      if |head| <= SQL_SIZE {
        InsertKept(table, keys, sets, SQL_SIZE - 1);
      } else {
        InsertLost(table, keys, sets, SQL_SIZE - 1);
      }
    }
  }
}
