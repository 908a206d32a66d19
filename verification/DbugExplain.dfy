/**
 _db_explain_ and its round trip through DbugParse.

 PROFILE_ON is set by no field of a control string, so the field `g` is never printed.
 */
module DbugExplain {
  import opened DbugList
  import opened DbugControl

  // ---------- the text ----------

  function ListText(list: seq<Link>, todo: Todo): string {
    if list == [] then "" else (if Has(list[0], todo) then "," + Token(list[0]) else "") + ListText(list[1..], todo)
  }

  function ListField(c: char, list: seq<Link>, cond: bool): seq<string> {
    if !cond then []
    else [[c] + ListText(list, Include)] + if ListFlags(list).excluded then [['-', c] + ListText(list, Exclude)] else []
  }

  // The letter of a flag that is a field by itself.
  function Letter(f: Flag): char
    requires f != FlushOnWrite && f != OpenAppend
  {
    match f
    case DebugOn => 'd'
    case FileOn => 'F'
    case LineOn => 'L'
    case DepthOn => 'n'
    case ProcessOn => 'P'
    case NumberOn => 'N'
    case PidOn => 'i'
    case TimestampOn => 'T'
    case TraceOn => 't'
  }

  function FlagField(s: Settings, f: Flag): (r: seq<string>)
    requires f != FlushOnWrite && f != OpenAppend
    ensures |r| <= 1
  {
    if f in s.flags then [[Letter(f)]] else []
  }

  function IntField(c: char, val: nat, def: nat, cond: bool): (r: seq<string>)
    ensures |r| <= 1
  {
    if !cond then [] else if val != def then [[c, ','] + Decimal(val)] else [[c]]
  }

  function OutField(s: Settings): (r: seq<string>)
    ensures |r| <= 1
  {
    if s.out == Stderr then []
    else
      var append := OpenAppend in s.flags;
      var c := if FlushOnWrite in s.flags then (if append then 'A' else 'O') else if append then 'a' else 'o';
      [if s.name == "" then [c] else [c, ','] + s.name]
  }

  function LevelField(s: Settings): (r: seq<string>)
    ensures |r| <= 1
  {
    if s.subLevel != 0 then ["r"] else []
  }

  function Head(s: Settings): seq<string> {
    ListField('d', s.keywords.links, DebugOn in s.flags) + IntField('D', s.delay, 0, s.delay != 0)
    + ListField('f', s.functions.links, s.functions.links != [])
  }

  function Switches(s: Settings): seq<string> {
    FlagField(s, FileOn) + FlagField(s, PidOn) + FlagField(s, LineOn) + FlagField(s, DepthOn) + FlagField(s, NumberOn)
  }

  function Processes(s: Settings): seq<string> {
    ListField('p', s.processes.links, s.processes.links != []) + FlagField(s, ProcessOn) + LevelField(s)
  }

  function Tail(s: Settings): seq<string> {
    Processes(s) + IntField('t', s.maxdepth, MAXDEPTH, TraceOn in s.flags) + FlagField(s, TimestampOn)
  }

  function Fields(s: Settings): seq<string> { Head(s) + Switches(s) + OutField(s) + Tail(s) }

  // colon_to_buf: a field after the first is preceded by a colon.
  function AddField(buf: string, field: string): string { (if buf != "" then buf + ":" else "") + field }

  function AddFields(buf: string, fields: seq<string>): string
    decreases |fields|
  {
    if fields == [] then buf else AddFields(AddField(buf, fields[0]), fields[1..])
  }

  lemma {:induction false} AddFieldsAppend(buf: string, a: seq<string>, b: seq<string>)
    ensures AddFields(buf, a + b) == AddFields(AddFields(buf, a), b)
    decreases |a|
  {
    if a == [] {
      assert a + b == b;
    } else {
      assert (a + b)[1..] == a[1..] + b;
      AddFieldsAppend(AddField(buf, a[0]), a[1..], b);
    }
  }

  lemma {:induction false} AddFieldsGrow(buf: string, fields: seq<string>)
    ensures buf <= AddFields(buf, fields)
    decreases |fields|
  {
    if fields != [] { AddFieldsGrow(AddField(buf, fields[0]), fields[1..]); }
  }

  // ---------- printing ----------

  // The buffer given to _db_explain_; four characters are kept for the dots and the terminator.  A writer
  // returns false where the source jumps to `overflow`.
  class Buf {
    const data: array<char>
    const end: nat
    var at: nat
    ghost var text: string     // what has been written

    ghost predicate Valid()
      reads this, data
    {
      end + 4 <= data.Length && at == |text| <= data.Length && data[..at] == text
    }

    // There is room, if only for the terminator.
    ghost predicate Open()
      reads this, data
    {
      Valid() && (at == 0 || at < end)
    }

    // The jump was taken while writing `all`.
    ghost predicate Full(all: string)
      reads this, data
    {
      Valid() && text != "" && at >= end && text <= all
    }

    // All of it was written, or the jump was taken.
    ghost predicate Wrote(all: string, ok: bool)
      reads this, data
    {
      if ok then Open() && text == all else Full(all)
    }

    // Nothing from `from` on is touched.
    twostate predicate Inside(from: nat)
      reads data
    {
      forall k :: from <= k < data.Length ==> data[k] == old(data[k])
    }

    constructor (data: array<char>, len: nat)
      requires 4 <= len <= data.Length
      ensures Open() && text == "" && this.data == data && end == len - 4
    {
      this.data := data;
      end := len - 4;
      at := 0;
      text := "";
    }

    /** char_to_buf. */
    method CharToBuf(c: char) returns (ok: bool)
      requires Open()
      modifies this, data
      ensures Wrote(old(text) + [c], ok) && Inside(end + 4) && at == old(at) + 1 && text == old(text) + [c]
    {
      data[at] := c;
      at := at + 1;
      text := text + [c];
      assert data[..at] == text;
      ok := at < end;
    }

    // my_stpnmov(buf, s, end - buf): the string and a terminator, or as much as there is room for.
    method Stpnmov(s: string)
      requires Open() && at < end
      modifies this, data
      ensures Valid() && Inside(end + 4)
      ensures if old(at) + |s| < end then text == old(text) + s else at == end && text <= old(text) + s
    {
      var k := 0;
      assert s[..0] == "";
      while k < |s| && at < end
        invariant 0 <= k <= |s| && Valid() && at == old(at) + k <= end && text == old(text) + s[..k] && Inside(end + 4)
      {
        data[at] := s[k];
        at := at + 1;
        text := text + [s[k]];
        assert data[..at] == text && s[..k + 1] == s[..k] + [s[k]];
        k := k + 1;
      }
      assert s == s[..k] + s[k..];
      assert old(text) + s == (old(text) + s[..k]) + s[k..];
      if at < end {
        assert s[..k] == s;
        ghost var kept := data[..at];
        data[at] := '\0';
        assert data[..at] == kept;
      }
    }

    /** str_to_buf. */
    method StrToBuf(s: string) returns (ok: bool)
      requires Open()
      modifies this, data
      ensures Wrote(old(text) + ("," + s), ok) && Inside(end + 4)
    {
      ghost var was := text;
      assert was + ("," + s) == was + [','] + s;
      ok := CharToBuf(',');
      if !ok { return; }
      Stpnmov(s);
      ok := at < end;
    }

    // One entry of a list.
    method TokenToBuf(link: Link) returns (ok: bool)
      requires Open()
      modifies this, data
      ensures Wrote(old(text) + ("," + Token(link)), ok) && Inside(end + 4)
    {
      ghost var was := text;
      ghost var part, all := was + ("," + link.str), was + ("," + Token(link));
      assert link.subdir ==> all == part + ['/'];
      ok := StrToBuf(link.str);
      if ok && link.subdir { ok := CharToBuf('/'); }
    }

    /** list_to_buf. */
    method ListToBuf(list: seq<Link>, todo: Todo) returns (ok: bool)
      requires Open()
      modifies this, data
      ensures Wrote(old(text) + ListText(list, todo), ok) && Inside(end + 4)
    {
      hide Token;
      ok := true;
      var k := 0;
      while k < |list|
        invariant 0 <= k <= |list| && ok && Open() && Inside(end + 4)
        invariant text + ListText(list[k..], todo) == old(text) + ListText(list, todo)
      {
        ghost var was, rest := text, ListText(list[k + 1..], todo);
        assert list[k..][1..] == list[k + 1..];
        if Has(list[k], todo) {
          ghost var word := "," + Token(list[k]);
          assert was + (word + rest) == was + word + rest;
          ok := TokenToBuf(list[k]);
          if !ok { return; }
        }
        k := k + 1;
      }
      assert list[k..] == [];
    }

    /** colon_to_buf, unless nothing has been written yet. */
    method ColonToBuf() returns (ok: bool)
      requires Open()
      modifies this, data
      ensures Wrote(if old(text) != "" then old(text) + ":" else old(text), ok) && Inside(end + 4)
    {
      ok := true;
      if at != 0 { ok := CharToBuf(':'); }
    }

    // A field of one letter, and perhaps a text after a comma.
    method FieldToBuf(field: seq<string>) returns (ok: bool)
      requires Open() && (field == [] || OneLetter(field) || WithText(field))
      modifies this, data
      ensures Wrote(AddFields(old(text), field), ok) && Inside(end + 4)
    {
      ok := true;
      if field == [] { return; }
      ghost var lead := if text != "" then text + ":" else text;
      var f := field[0];
      assert AddFields(text, field) == lead + f;
      ok := ColonToBuf();
      if !ok { return; }
      assert f == [f[0]] + f[1..];
      assert lead + f == lead + [f[0]] + f[1..];
      ok := CharToBuf(f[0]);
      if !ok { return; }
      if |f| > 1 {
        assert f[1..] == "," + f[2..];
        ok := StrToBuf(f[2..]);
      }
    }

    static predicate OneLetter(field: seq<string>) { |field| == 1 && |field[0]| == 1 }

    static predicate WithText(field: seq<string>) { |field| == 1 && |field[0]| > 2 && field[0][1] == ',' }

    // The letter of a field, with the minus before it if there is one.
    method LeadToBuf(lead: string) returns (ok: bool)
      requires Open() && (|lead| == 1 || |lead| == 2)
      modifies this, data
      ensures Wrote(AddField(old(text), lead), ok) && Inside(end + 4)
    {
      ghost var start := if text != "" then text + ":" else text;
      assert start + lead == if |lead| == 1 then start + [lead[0]] else start + [lead[0]] + [lead[1]];
      ok := ColonToBuf();
      if !ok { return; }
      ok := CharToBuf(lead[0]);
      if ok && |lead| == 2 { ok := CharToBuf(lead[1]); }
    }

    // The names of one kind.
    method NamesToBuf(lead: string, list: seq<Link>, todo: Todo) returns (ok: bool)
      requires Open() && (|lead| == 1 || |lead| == 2)
      modifies this, data
      ensures Wrote(AddField(old(text), lead + ListText(list, todo)), ok) && Inside(end + 4)
    {
      hide ListText;
      ghost var start, names := if text != "" then text + ":" else text, ListText(list, todo);
      assert start + (lead + names) == start + lead + names;
      ok := LeadToBuf(lead);
      if ok { ok := ListToBuf(list, todo); }
    }

    /** op_list_to_buf. */
    method ListFieldToBuf(c: char, list: seq<Link>, cond: bool) returns (ok: bool)
      requires Open()
      modifies this, data
      ensures Wrote(AddFields(old(text), ListField(c, list, cond)), ok) && Inside(end + 4)
    {
      hide ListText;
      ok := true;
      if !cond { return; }
      ghost var was, a, b := text, [c] + ListText(list, Include), ['-', c] + ListText(list, Exclude);
      assert AddFields(was, [a]) == AddField(was, a) by { OneAdded(was, a); }
      AddFieldsAppend(was, [a], [b]);
      AddFieldsGrow(AddField(was, a), [b]);
      OneAdded(AddField(was, a), b);
      assert [a] + [b] == [a, b];
      ok := NamesToBuf([c], list, Include);
      if !ok { return; }
      if ListFlags(list).excluded {
        ok := NamesToBuf(['-', c], list, Exclude);
      }
    }

    static lemma OneAdded(buf: string, f: string)
      ensures AddFields(buf, [f]) == AddField(buf, f)
    {
      assert [f][1..] == [];
    }

    // Having written `a` of the fields a + b, whether or not it fitted.
    lemma Going(start: string, a: seq<string>, b: seq<string>, ok: bool)
      requires Wrote(AddFields(start, a), ok)
      ensures AddFields(start, a + b) == AddFields(AddFields(start, a), b)
      ensures ok || Wrote(AddFields(start, a + b), false)
    {
      AddFieldsAppend(start, a, b);
      AddFieldsGrow(AddFields(start, a), b);
    }

    method HeadToBuf(s: Settings) returns (ok: bool)
      requires Open()
      modifies this, data
      ensures Wrote(AddFields(old(text), Head(s)), ok) && Inside(end + 4)
    {
      hide ListField, AddFields, Wrote, Open;
      ghost var start := text;
      ghost var d := ListField('d', s.keywords.links, DebugOn in s.flags);
      ghost var f := ListField('f', s.functions.links, s.functions.links != []);
      var dd := IntField('D', s.delay, 0, s.delay != 0);
      ok := ListFieldToBuf('d', s.keywords.links, DebugOn in s.flags);
      Going(start, d, dd, ok);
      if ok { StillOpen(AddFields(start, d)); ok := FieldToBuf(dd); }
      Going(start, d + dd, f, ok);
      if ok { StillOpen(AddFields(start, d + dd)); ok := ListFieldToBuf('f', s.functions.links, s.functions.links != []); }
    }

    lemma StillOpen(all: string)
      requires Wrote(all, true)
      ensures Open() && text == all
    {
    }

    method SwitchesToBuf(s: Settings) returns (ok: bool)
      requires Open()
      modifies this, data
      ensures Wrote(AddFields(old(text), Switches(s)), ok) && Inside(end + 4)
    {
      assert forall x :: x in [FileOn, PidOn, LineOn, DepthOn, NumberOn] ==> FlagField(s, x) == [] || OneLetter(FlagField(s, x));
      hide AddFields, Wrote, Open, FlagField;
      ghost var start := text;
      var f, i, l, n := FlagField(s, FileOn), FlagField(s, PidOn), FlagField(s, LineOn), FlagField(s, DepthOn);
      var m := FlagField(s, NumberOn);
      ok := FieldToBuf(f);
      Going(start, f, i, ok);
      if ok { StillOpen(AddFields(start, f)); ok := FieldToBuf(i); }
      Going(start, f + i, l, ok);
      if ok { StillOpen(AddFields(start, f + i)); ok := FieldToBuf(l); }
      Going(start, f + i + l, n, ok);
      if ok { StillOpen(AddFields(start, f + i + l)); ok := FieldToBuf(n); }
      Going(start, f + i + l + n, m, ok);
      if ok { StillOpen(AddFields(start, f + i + l + n)); ok := FieldToBuf(m); }
    }

    method ProcessesToBuf(s: Settings) returns (ok: bool)
      requires Open()
      modifies this, data
      ensures Wrote(AddFields(old(text), Processes(s)), ok) && Inside(end + 4)
    {
      assert FlagField(s, ProcessOn) == [] || OneLetter(FlagField(s, ProcessOn));
      assert LevelField(s) == [] || OneLetter(LevelField(s));
      hide AddFields, Wrote, Open, FlagField, ListField, LevelField;
      ghost var start, p := text, ListField('p', s.processes.links, s.processes.links != []);
      var pp, r := FlagField(s, ProcessOn), LevelField(s);
      ok := ListFieldToBuf('p', s.processes.links, s.processes.links != []);
      Going(start, p, pp, ok);
      if ok { StillOpen(AddFields(start, p)); ok := FieldToBuf(pp); }
      Going(start, p + pp, r, ok);
      if ok { StillOpen(AddFields(start, p + pp)); ok := FieldToBuf(r); }
    }

    method TailToBuf(s: Settings) returns (ok: bool)
      requires Open()
      modifies this, data
      ensures Wrote(AddFields(old(text), Tail(s)), ok) && Inside(end + 4)
    {
      assert FlagField(s, TimestampOn) == [] || OneLetter(FlagField(s, TimestampOn));
      hide AddFields, Wrote, Open, FlagField, Processes;
      ghost var start := text;
      var p, n := Processes(s), FlagField(s, TimestampOn);
      var t := IntField('t', s.maxdepth, MAXDEPTH, TraceOn in s.flags);
      ok := ProcessesToBuf(s);
      Going(start, p, t, ok);
      if ok { StillOpen(AddFields(start, p)); ok := FieldToBuf(t); }
      Going(start, p + t, n, ok);
      if ok { StillOpen(AddFields(start, p + t)); ok := FieldToBuf(n); }
    }

    // All the fields, in the order of the source.
    method FieldsToBuf(s: Settings) returns (ok: bool)
      requires Open() && text == ""
      modifies this, data
      ensures Wrote(AddFields("", Fields(s)), ok) && Inside(end + 4)
    {
      hide Head, Switches, Tail, AddFields, Wrote, Open;
      var h, w, o, t := Head(s), Switches(s), OutField(s), Tail(s);
      ok := HeadToBuf(s);
      Going("", h, w, ok);
      if ok { StillOpen(AddFields("", h)); ok := SwitchesToBuf(s); }
      Going("", h + w, o, ok);
      if ok { StillOpen(AddFields("", h + w)); ok := FieldToBuf(o); }
      Going("", h + w + o, t, ok);
      if ok { StillOpen(AddFields("", h + w + o)); ok := TailToBuf(s); }
    }
  }

  /** _db_explain_ into a buffer of `len` characters: the terminated text, or with the result 1 as much of it as
      fits before three dots; nothing behind the `len` characters is touched.  The writing stops at the
      character that reaches the limit. */
  method Explain(s: Settings, buf: array<char>, len: nat) returns (overflow: bool)
    requires 4 <= len <= buf.Length
    modifies buf
    ensures var text := AddFields("", Fields(s));
            && (overflow <==> text != "" && |text| >= len - 4)
            && (!overflow ==> |text| < len && buf[..|text|] == text && buf[|text|] == '\0')
            && (overflow ==> buf[..len] == text[..len - 4] + "..." + "\0")
    ensures forall k :: len <= k < buf.Length ==> buf[k] == old(buf[k])
  {
    hide Fields, AddFields;
    ghost var text := AddFields("", Fields(s));
    var b := new Buf(buf, len);
    var ok := b.FieldsToBuf(s);
    if ok {
      ghost var kept := buf[..b.at];
      buf[b.at] := '\0';
      assert buf[..b.at] == kept;
      overflow := false;
    } else {
      var e := b.end;
      ghost var kept := buf[..e];
      assert kept == b.text[..e] == text[..e];
      buf[e], buf[e + 1], buf[e + 2], buf[e + 3] := '.', '.', '.', '\0';
      assert buf[..e] == kept;
      overflow := true;
    }
  }

  // ---------- reading the fields back ----------

  // A field that the scan for ':' neither splits nor joins to what comes before it.
  predicate Plain(field: string) { field != "" && !Second(field[0]) && Unsplit(field) }

  // The second character of a pair.
  predicate Second(c: char) { c == '\\' || c == '/' || c == ':' }

  function Joined(fields: seq<string>): string
    decreases |fields|
  {
    if fields == [] then "" else if |fields| == 1 then fields[0] else fields[0] + ":" + Joined(fields[1..])
  }

  lemma {:induction false} AddFieldsJoined(buf: string, fields: seq<string>)
    requires forall k :: 0 <= k < |fields| ==> Plain(fields[k])
    ensures AddFields(buf, fields) == if fields == [] then buf else AddField(buf, Joined(fields))
    decreases |fields|
  {
    if fields != [] {
      AddFieldsJoined(AddField(buf, fields[0]), fields[1..]);
      assert Plain(fields[0]);
      if |fields| > 1 {
        assert AddField(AddField(buf, fields[0]), Joined(fields[1..])) == AddField(buf, fields[0] + ":" + Joined(fields[1..]));
      }
    }
  }

  // The scan passes over the text and stops behind it.
  lemma {:induction false} FieldEndAt(s: string, i: nat, j: nat)
    requires i <= j <= |s| && Unsplit(s[i..j])
    requires j == |s| || (s[j] == ':' && j + 1 < |s| && !Second(s[j + 1]))
    ensures FieldEnd(s, i) == j
    decreases j - i
  {
    if i < j {
      var t := s[i..j];
      assert t[0] == s[i] && t[1..] == s[i + 1..j];
      if |t| > 1 { assert t[1] == s[i + 1] && t[2..] == s[i + 2..j]; }
      if t[0] == ':' && t[1] == ':' { FieldEndAt(s, i + 2, j); } else { FieldEndAt(s, i + 1, j); }
    }
  }

  /** What the scan takes for a field it would take again. */
  lemma {:induction false} FieldUnsplit(s: string, i: nat)
    requires i <= |s|
    ensures Unsplit(s[i..FieldEnd(s, i)])
    decreases |s| - i
  {
    var e := FieldEnd(s, i);
    if i < e {
      var t := s[i..e];
      var step := if s[i] == ':' && s[i + 1] == ':' then 2 else 1;
      FieldUnsplit(s, i + step);
      assert FieldEnd(s, i + step) == e && t[step..] == s[i + step..e];
      if s[i] == ':' && step == 1 { assert FieldEnd(s, i + 1) > i + 1; }
    }
  }

  lemma {:induction false} FieldsUnsplit(s: string, i: nat)
    requires i <= |s|
    ensures forall k :: 0 <= k < |FieldsFrom(s, i)| ==> Unsplit(FieldsFrom(s, i)[k])
    decreases |s| - i
  {
    var e := FieldEnd(s, i);
    FieldUnsplit(s, i);
    if i < e < |s| { FieldsUnsplit(s, e + 1); }
  }

  lemma OneField(pre: string, f: string, tail: string)
    requires Plain(f) && (tail == "" || (tail[0] == ':' && |tail| > 1 && !Second(tail[1])))
    ensures var text := pre + f + tail; var j := |pre| + |f|;
            FieldEnd(text, |pre|) == j && text[|pre|..j] == f && (tail != "" ==> text[j] == ':')
  {
    hide FieldEnd, Unsplit;
    var text, j := pre + f + tail, |pre| + |f|;
    assert text[|pre|..j] == f;
    if tail != "" { assert text[j] == tail[0] && text[j + 1] == tail[1]; }
    FieldEndAt(text, |pre|, j);
  }

  lemma {:induction false} FieldsJoined(pre: string, fields: seq<string>)
    requires forall k :: 0 <= k < |fields| ==> Plain(fields[k])
    ensures FieldsFrom(pre + Joined(fields), |pre|) == fields
    decreases |fields|
  {
    hide FieldEnd, FieldsFrom, Unsplit;
    if |fields| <= 1 {
      LastField(pre, fields);
    } else {
      var f, rest := fields[0], fields[1..];
      var more := Joined(rest);
      assert Plain(rest[0]) && more[0] == rest[0][0];
      OneField(pre, f, ":" + more);
      FieldsJoined(pre + f + ":", rest);
      FirstField(pre, f, more, rest);
      Grouped(pre, f, more);
      assert fields == [f] + rest;
    }
  }

  lemma Grouped(pre: string, f: string, more: string)
    ensures pre + (f + ":" + more) == pre + f + (":" + more) == pre + f + ":" + more
  {
  }

  lemma LastField(pre: string, fields: seq<string>)
    requires |fields| <= 1 && forall k :: 0 <= k < |fields| ==> Plain(fields[k])
    ensures FieldsFrom(pre + Joined(fields), |pre|) == fields
  {
    hide FieldEnd, Unsplit;
    if fields == [] {
      assert pre + "" == pre && pre[|pre|..|pre|] == "";
      NoColons("");
      FieldEndAt(pre, |pre|, |pre|);
    } else {
      OneField(pre, fields[0], "");
      assert pre + fields[0] + "" == pre + Joined(fields);
    }
  }

  lemma FirstField(pre: string, f: string, more: string, rest: seq<string>)
    requires f != "" && FieldEnd(pre + f + (":" + more), |pre|) == |pre| + |f|
    requires FieldsFrom(pre + f + ":" + more, |pre + f + ":"|) == rest
    ensures FieldsFrom(pre + f + (":" + more), |pre|) == [f] + rest
  {
    hide FieldEnd;
    Grouped(pre, f, more);
    assert (pre + f + (":" + more))[|pre|..|pre| + |f|] == f;
  }

  lemma ExplainedFields(fields: seq<string>)
    requires forall k :: 0 <= k < |fields| ==> Plain(fields[k])
    requires fields != [] ==> Plain(fields[0]) && fields[0][0] != '+' && fields[0][0] != '-'
    ensures !Relative(AddFields("", fields))
    ensures FieldsFrom(Stripped(AddFields("", fields)), 0) == fields
  {
    AddFieldsJoined("", fields);
    FieldsJoined("", fields);
    assert "" + Joined(fields) == Joined(fields);
    if fields != [] { assert Joined(fields)[0] == fields[0][0]; }
  }

  // ---------- reading one list back ----------

  function Keep(list: seq<Link>, todo: Todo): seq<Link> {
    if list == [] then [] else (if Has(list[0], todo) then [list[0]] else []) + Keep(list[1..], todo)
  }

  function Pairs(list: seq<Link>, todo: Todo): seq<(string, bool)> {
    if list == [] then []
    else (if Has(list[0], todo) then [(list[0].str, list[0].subdir)] else []) + Pairs(list[1..], todo)
  }

  lemma NamesToken(link: Link, rest: string)
    requires GoodLink(link) && (rest == "" || rest[0] == ',')
    ensures Names("," + Token(link) + rest) == [(link.str, link.subdir)] + Names(rest)
  {
    var token := Token(link);
    var t := token + rest;
    assert ("," + token + rest)[1..] == t;
    TokenWhole(link, rest);
    assert t[..|token|] == token && t[|token|..] == rest;
    assert link.subdir ==> token[..|token| - 1] == link.str;
  }

  lemma TokenWhole(link: Link, rest: string)
    requires GoodLink(link) && (rest == "" || rest[0] == ',')
    ensures var t := Token(link) + rest; TokenEnd(t, 0) == |Token(link)| && !IsSeparator(t[0])
  {
    var token := Token(link);
    var t := token + rest;
    assert t[0] == link.str[0];
    assert forall k :: 0 <= k < |token| ==> t[k] == token[k] && !IsSeparator(t[k]);
    assert rest != "" ==> t[|token|] == rest[0];
  }

  lemma {:induction false} NamesListText(list: seq<Link>, todo: Todo)
    requires forall k :: 0 <= k < |list| ==> GoodLink(list[k])
    ensures Names(ListText(list, todo)) == Pairs(list, todo)
    ensures ListText(list, todo) == "" || ListText(list, todo)[0] == ','
  {
    if list != [] {
      NamesListText(list[1..], todo);
      if Has(list[0], todo) {
        NamesToken(list[0], ListText(list[1..], todo));
      } else {
        assert ListText(list, todo) == ListText(list[1..], todo);
      }
    }
  }

  lemma {:induction false} AddPairs(acc: seq<Link>, list: seq<Link>, todo: Todo)
    requires GoodList(list)
    requires forall j, k :: 0 <= j < |acc| && 0 <= k < |list| && Has(list[k], todo) ==> acc[j].str != list[k].str
    ensures AddDelAll(acc, Pairs(list, todo), todo) == acc + Keep(list, todo)
    decreases |list|
  {
    if list != [] {
      if Has(list[0], todo) {
        var pair := (list[0].str, list[0].subdir);
        AddDelAt(acc, |acc|, pair, todo);
        assert NewLink(pair, todo) == list[0];
        assert Pairs(list, todo)[1..] == Pairs(list[1..], todo);
        AddPairs(acc + [list[0]], list[1..], todo);
        assert acc + [list[0]] + Keep(list[1..], todo) == acc + Keep(list, todo);
      } else {
        AddPairs(acc, list[1..], todo);
        assert Pairs(list, todo) == Pairs(list[1..], todo);
      }
    }
  }

  lemma {:induction false} KeepEntries(list: seq<Link>, todo: Todo)
    requires GoodList(list)
    ensures forall x :: x in Keep(list, todo) <==> x in list && Has(x, todo)
    ensures GoodList(Keep(list, todo))
  {
    if list != [] {
      KeepEntries(list[1..], todo);
      var rest := Keep(list[1..], todo);
      forall k | 0 <= k < |rest| ensures rest[k].str != list[0].str { assert rest[k] in rest; }
    }
  }

  // The list that comes back: the included names, then the excluded ones.
  function Canon(list: seq<Link>): seq<Link> { Keep(list, Include) + Keep(list, Exclude) }

  /** The list that comes back means the same, and is as good. */
  lemma CanonMeansSame(list: seq<Link>)
    requires GoodList(list)
    ensures GoodList(Canon(list)) && forall n :: Find(Canon(list), n) == Find(list, n)
  {
    KeepEntries(list, Include);
    KeepEntries(list, Exclude);
    var a, b := Keep(list, Include), Keep(list, Exclude);
    forall j, k | 0 <= j < |a| && 0 <= k < |b| ensures a[j].str != b[k].str {
      assert a[j] in a && b[k] in b;
    }
    assert GoodList(a + b);
    forall n ensures Find(a + b, n) == Find(list, n) { SameEntries(a + b, list, n); }
  }

  lemma KeepNone(list: seq<Link>)
    requires GoodList(list)
    ensures ListFlags(list).excluded <==> Keep(list, Exclude) != []
  {
    KeepEntries(list, Exclude);
    assert Keep(list, Exclude) == [] || Keep(list, Exclude)[0] in list;
    if ListFlags(list).excluded {
      var k :| 0 <= k < |list| && list[k].excluded;
      assert list[k] in Keep(list, Exclude);
    }
  }

  lemma ReadList(list: seq<Link>)
    requires GoodList(list)
    ensures AddDelAll([], Names(ListText(list, Include)), Include) == Keep(list, Include)
    ensures AddDelAll(Keep(list, Include), Names(ListText(list, Exclude)), Exclude) == Canon(list)
  {
    NamesListText(list, Include);
    NamesListText(list, Exclude);
    AddPairs([], list, Include);
    KeepEntries(list, Include);
    var a := Keep(list, Include);
    forall j, k | 0 <= j < |a| && 0 <= k < |list| && Has(list[k], Exclude) ensures a[j].str != list[k].str {
      assert a[j] in a;
    }
    hide AddDelAll, Names, ListText, Pairs;
    AddPairs(a, list, Exclude);
  }

  // ---------- the round trip ----------

  // What every settings made by DbugParse satisfies.
  predicate GoodSettings(s: Settings) {
    && GoodList(s.functions.links) && GoodList(s.keywords.links) && GoodList(s.processes.links)
    && TidyList(s.functions.links) && TidyList(s.keywords.links) && TidyList(s.processes.links)
    && (s.keywords.links != [] ==> DebugOn in s.flags)
    && (TraceOn in s.flags <==> s.maxdepth > 0)
    && s.maxdepth < WORD && s.delay < WORD
  }

  lemma {:induction false} TextUnsplit(list: seq<Link>, todo: Todo)
    requires TidyList(list)
    ensures Unsplit(ListText(list, todo))
  {
    if list != [] {
      TextUnsplit(list[1..], todo);
      if Has(list[0], todo) {
        assert ("," + Token(list[0]))[1..] == Token(list[0]);
        UnsplitAppend("," + Token(list[0]), ListText(list[1..], todo));
      } else {
        assert ListText(list, todo) == ListText(list[1..], todo);
      }
    }
  }

  lemma {:induction false} FoldAppend(s: Settings, a: seq<string>, b: seq<string>, rel: bool, env: Env)
    ensures Fold(s, a + b, rel, env) == Fold(Fold(s, a, rel, env), b, rel, env)
    decreases |a|
  {
    if a == [] {
      assert a + b == b;
    } else {
      assert (a + b)[1..] == a[1..] + b;
      FoldAppend(ApplyField(s, a[0], rel, env), a[1..], b, rel, env);
    }
  }

  // The argument of a printed list field names what its text names.
  lemma ListArg(c: char, list: seq<Link>, todo: Todo)
    requires GoodList(list) && c != '+' && c != '-'
    ensures var text := ListText(list, todo);
            && Sign([c] + text) == 0 && Body([c] + text) == [c] + text
            && Sign(['-', c] + text) == -1 && Body(['-', c] + text) == [c] + text
            && Names(Arg([c] + text)) == Names(text)
            && (Arg([c] + text) == "" <==> text == "")
  {
    var text := ListText(list, todo);
    NamesListText(list, todo);
    assert (['-', c] + text)[1..] == [c] + text;
    if text != "" {
      assert ([c] + text)[2..] == text[1..];
      TextLong(list, todo);
    }
  }

  lemma {:induction false} TextLong(list: seq<Link>, todo: Todo)
    requires GoodList(list)
    ensures ListText(list, todo) != "" ==> |ListText(list, todo)| > 1
  {
    if list != [] {
      TextLong(list[1..], todo);
      assert GoodLink(list[0]);
    }
  }

  lemma ChangeBack(list: seq<Link>, c: char)
    requires GoodList(list) && c != '+' && c != '-'
    ensures var text := [c] + ListText(list, Include);
            Change(NO_LIST, 0, Arg(text), false) == List(Keep(list, Include), false)
    ensures var text := [c] + ListText(list, Exclude);
            ListFlags(list).excluded ==>
              Change(List(Keep(list, Include), false), -1, Arg(text), false) == List(Canon(list), false)
    ensures !ListFlags(list).excluded ==> Keep(list, Include) == Canon(list)
    ensures ListFlags(list).excluded ==> Arg([c] + ListText(list, Exclude)) != ""
  {
    ReadList(list);
    KeepNone(list);
    ListArg(c, list, Include);
    ListArg(c, list, Exclude);
    if ListText(list, Exclude) == "" {
      NamesListText(list, Exclude);
      assert Canon(list) == Keep(list, Include);
      assert Names("") == [];
      KeepEntries(list, Include);
      assert |Canon(list)| == |Keep(list, Include)| + |Keep(list, Exclude)|;
    }
  }

  // The one or two fields of a list, applied in order.
  lemma FoldList(s: Settings, c: char, list: seq<Link>, env: Env)
    ensures var first := ApplyField(s, [c] + ListText(list, Include), false, env);
            Fold(s, ListField(c, list, true), false, env) ==
            if ListFlags(list).excluded then ApplyField(first, ['-', c] + ListText(list, Exclude), false, env) else first
  {
    hide ApplyField, ListText, ListFlags;
    var a, b := [c] + ListText(list, Include), ['-', c] + ListText(list, Exclude);
    FoldSnoc(s, [], a, false, env);
    assert [] + [a] == [a];
    FoldSnoc(s, [a], b, false, env);
  }

  lemma ApplyFunctions(s: Settings, field: string, rel: bool, env: Env)
    requires Body(field) != "" && Body(field)[0] == 'f'
    ensures ApplyField(s, field, rel, env) == s.(functions := Change(s.functions, Sign(field), Arg(Body(field)), rel))
  {
    hide Change, Keywords, Output, Depth, Arg, Atoi, Sign, Body;
  }

  lemma ReadFunctions(s: Settings, list: seq<Link>, env: Env)
    requires GoodList(list) && s.functions == NO_LIST
    ensures Fold(s, ListField('f', list, list != []), false, env) == s.(functions := List(Canon(list), false))
  {
    if list != [] {
      FoldList(s, 'f', list, env);
      ListArg('f', list, Include);
      ListArg('f', list, Exclude);
      hide Fold, ListField, ListText, Keep, Canon, Change, ListFlags, GoodList, ApplyField, Arg, Sign, Body;
      var first := ['f'] + ListText(list, Include);
      ApplyFunctions(s, first, false, env);
      ApplyFunctions(ApplyField(s, first, false, env), ['-', 'f'] + ListText(list, Exclude), false, env);
      ChangeBack(list, 'f');
    }
  }

  lemma ApplyProcesses(s: Settings, field: string, rel: bool, env: Env)
    requires Body(field) != "" && Body(field)[0] == 'p'
    ensures ApplyField(s, field, rel, env) == s.(processes := Change(s.processes, Sign(field), Arg(Body(field)), rel))
  {
    hide Change, Keywords, Output, Depth, Arg, Atoi, Sign, Body;
  }

  lemma ReadProcesses(s: Settings, list: seq<Link>, env: Env)
    requires GoodList(list) && s.processes == NO_LIST
    ensures Fold(s, ListField('p', list, list != []), false, env) == s.(processes := List(Canon(list), false))
  {
    if list != [] {
      FoldList(s, 'p', list, env);
      ListArg('p', list, Include);
      ListArg('p', list, Exclude);
      hide Fold, ListField, ListText, Keep, Canon, Change, ListFlags, GoodList, ApplyField, Arg, Sign, Body;
      var first := ['p'] + ListText(list, Include);
      ApplyProcesses(s, first, false, env);
      ApplyProcesses(ApplyField(s, first, false, env), ['-', 'p'] + ListText(list, Exclude), false, env);
      ChangeBack(list, 'p');
    }
  }

  lemma ReadKeywords(s: Settings, list: seq<Link>, debug: bool, env: Env)
    requires GoodList(list) && s.keywords == NO_LIST && DebugOn !in s.flags && (list != [] ==> debug)
    ensures Fold(s, ListField('d', list, debug), false, env) ==
            Switch(s, DebugOn, debug).(keywords := List(Canon(list), false))
  {
    if debug {
      FoldList(s, 'd', list, env);
      KeepNone(list);
      hide Fold, ListField, ListText, Keep, ListFlags, GoodList;
      ListArg('d', list, Include);
      ListArg('d', list, Exclude);
      ChangeBack(list, 'd');
      assert ListFlags(list).excluded ==> Canon(list) != [];
    }
  }

  function Given(s: Settings, f: Flag): set<Flag> { if f in s.flags then {f} else {} }

  lemma ReadFlag(base: Settings, s: Settings, f: Flag, env: Env)
    requires f in {FileOn, PidOn, LineOn, DepthOn, NumberOn, ProcessOn, TimestampOn}
    ensures Fold(base, FlagField(s, f), false, env) == base.(flags := base.flags + Given(s, f))
  {
    if f in s.flags {
      FoldSnoc(base, [], [Letter(f)], false, env);
    }
  }

  lemma NumberArg(c: char, val: nat)
    requires c != '+' && c != '-'
    ensures var f := [c, ','] + Decimal(val); Sign(f) == 0 && Arg(f) == Decimal(val) && Atoi(Arg(f)) == val
  {
    AtoiDecimal(val);
    assert ([c, ','] + Decimal(val))[2..] == Decimal(val);
  }

  lemma ReadDelay(s: Settings, val: nat, env: Env)
    requires s.delay == 0 && val < WORD
    ensures Fold(s, IntField('D', val, 0, val != 0), false, env) == s.(delay := val)
  {
    if val != 0 {
      NumberArg('D', val);
      FoldSnoc(s, [], ['D', ','] + Decimal(val), false, env);
    }
  }

  lemma ReadDepth(base: Settings, s: Settings, env: Env)
    requires base.maxdepth == 0 && s.maxdepth < WORD && (TraceOn in s.flags <==> s.maxdepth > 0)
    ensures Fold(base, IntField('t', s.maxdepth, MAXDEPTH, TraceOn in s.flags), false, env) ==
            base.(maxdepth := s.maxdepth, flags := base.flags + Given(s, TraceOn))
  {
    var val := s.maxdepth;
    if val > 0 {
      NumberArg('t', val);
      FoldSnoc(base, [], if val != MAXDEPTH then ['t', ','] + Decimal(val) else ['t'], false, env);
    }
  }

  // The settings that come back.
  function Restored(s: Settings): Settings {
    s.(flags := s.flags - {FlushOnWrite, OpenAppend}, name := "", functions := List(Canon(s.functions.links), false),
       keywords := List(Canon(s.keywords.links), false), processes := List(Canon(s.processes.links), false))
  }

  lemma ListFieldPlain(c: char, list: seq<Link>, cond: bool)
    requires TidyList(list) && (c == 'd' || c == 'f' || c == 'p')
    ensures forall k :: 0 <= k < |ListField(c, list, cond)| ==> Plain(ListField(c, list, cond)[k])
  {
    TextUnsplit(list, Include);
    TextUnsplit(list, Exclude);
    WithLetter(c, ListText(list, Include));
    WithLetter(c, ListText(list, Exclude));
    hide ListText, Unsplit;
  }

  lemma WithLetter(c: char, text: string)
    requires Unsplit(text) && !Second(c)
    ensures Plain([c] + text) && Plain(['-', c] + text)
  {
    assert ([c] + text)[1..] == text;
    assert (['-', c] + text)[1..] == [c] + text;
  }

  lemma IntFieldPlain(c: char, val: nat, def: nat, cond: bool)
    requires c == 'D' || c == 't'
    ensures forall k :: 0 <= k < |IntField(c, val, def, cond)| ==> Plain(IntField(c, val, def, cond)[k])
  {
    NoColons([c, ','] + Decimal(val));
    NoColons([c]);
    hide Decimal, Unsplit;
  }

  lemma OneLetterPlain(s: Settings, f: Flag)
    requires f != FlushOnWrite && f != OpenAppend
    ensures AllPlain(FlagField(s, f)) && AllPlain(LevelField(s))
  {
    NoColons([Letter(f)]);
    NoColons("r");
    hide Unsplit;
  }

  lemma {:induction false} NoColons(t: string)
    requires forall k :: 0 <= k < |t| ==> t[k] != ':'
    ensures Unsplit(t)
  {
    if t != "" { NoColons(t[1..]); }
  }

  // Fields that come back one by one, in a control string that is not relative.
  predicate AllPlain(fields: seq<string>) {
    && (forall k :: 0 <= k < |fields| ==> Plain(fields[k]))
    && (fields != [] ==> Plain(fields[0]) && fields[0][0] != '+' && fields[0][0] != '-')
  }

  lemma AllPlainAppend(a: seq<string>, b: seq<string>)
    requires AllPlain(a) && AllPlain(b)
    ensures AllPlain(a + b)
  {
  }

  lemma FieldsPlain(s: Settings)
    requires TidyList(s.functions.links) && TidyList(s.keywords.links) && TidyList(s.processes.links)
    requires s.out == Stderr
    ensures AllPlain(Fields(s))
  {
    HeadPlain(s);
    TailPlain(s);
    assert AllPlain(Switches(s)) by { SwitchesPlain(s); }
    hide Head, Switches, Tail, AllPlain;
    AllPlainAppend(Head(s), Switches(s));
    assert Head(s) + Switches(s) + [] == Head(s) + Switches(s);
    AllPlainAppend(Head(s) + Switches(s), Tail(s));
  }

  lemma SwitchesPlain(s: Settings)
    ensures AllPlain(Switches(s))
  {
    var f, i, l, n := FlagField(s, FileOn), FlagField(s, PidOn), FlagField(s, LineOn), FlagField(s, DepthOn);
    OneLetterPlain(s, FileOn);
    OneLetterPlain(s, PidOn);
    OneLetterPlain(s, LineOn);
    OneLetterPlain(s, DepthOn);
    OneLetterPlain(s, NumberOn);
    hide FlagField, AllPlain;
    AllPlainAppend(f, i);
    AllPlainAppend(f + i, l);
    AllPlainAppend(f + i + l, n);
    AllPlainAppend(f + i + l + n, FlagField(s, NumberOn));
  }

  lemma HeadPlain(s: Settings)
    requires TidyList(s.functions.links) && TidyList(s.keywords.links)
    ensures AllPlain(Head(s))
  {
    ListFieldPlain('d', s.keywords.links, DebugOn in s.flags);
    ListFieldPlain('f', s.functions.links, s.functions.links != []);
    var d, dd := ListField('d', s.keywords.links, DebugOn in s.flags), IntField('D', s.delay, 0, s.delay != 0);
    IntFieldPlain('D', s.delay, 0, s.delay != 0);
    assert AllPlain(dd);
    hide ListField, IntField, AllPlain;
    AllPlainAppend(d, dd);
    AllPlainAppend(d + dd, ListField('f', s.functions.links, s.functions.links != []));
  }

  lemma TailPlain(s: Settings)
    requires TidyList(s.processes.links)
    ensures AllPlain(Tail(s))
  {
    ListFieldPlain('p', s.processes.links, s.processes.links != []);
    var p, pp := ListField('p', s.processes.links, s.processes.links != []), FlagField(s, ProcessOn);
    var r, t := LevelField(s), IntField('t', s.maxdepth, MAXDEPTH, TraceOn in s.flags);
    IntFieldPlain('t', s.maxdepth, MAXDEPTH, TraceOn in s.flags);
    OneLetterPlain(s, ProcessOn);
    OneLetterPlain(s, TimestampOn);
    assert AllPlain(t);
    hide ListField, IntField, FlagField, LevelField, AllPlain;
    AllPlainAppend(p, pp);
    AllPlainAppend(p + pp, r);
    AllPlainAppend(p + pp + r, t);
    AllPlainAppend(p + pp + r + t, FlagField(s, TimestampOn));
  }

  lemma FoldHead(s: Settings, env: Env)
    requires GoodSettings(s)
    ensures Fold(RESET, Head(s), false, env) ==
            RESET.(keywords := List(Canon(s.keywords.links), false), flags := Given(s, DebugOn), delay := s.delay,
                   functions := List(Canon(s.functions.links), false))
  {
    hide ApplyField, ListField, IntField, Fold, Canon, GoodList;
    var d, dd := ListField('d', s.keywords.links, DebugOn in s.flags), IntField('D', s.delay, 0, s.delay != 0);
    var f := ListField('f', s.functions.links, s.functions.links != []);
    var s1 := Switch(RESET, DebugOn, DebugOn in s.flags).(keywords := List(Canon(s.keywords.links), false));
    FoldAppend(RESET, d + dd, f, false, env);
    FoldAppend(RESET, d, dd, false, env);
    ReadKeywords(RESET, s.keywords.links, DebugOn in s.flags, env);
    ReadDelay(s1, s.delay, env);
    ReadFunctions(s1.(delay := s.delay), s.functions.links, env);
    assert s1.flags == Given(s, DebugOn);
  }

  lemma FoldSwitches(s: Settings, base: Settings, env: Env)
    ensures Fold(base, Switches(s), false, env) ==
            base.(flags := base.flags + Given(s, FileOn) + Given(s, PidOn) + Given(s, LineOn) + Given(s, DepthOn)
                           + Given(s, NumberOn))
  {
    hide ApplyField, FlagField, Fold, Given;
    var f, i, l, n := FlagField(s, FileOn), FlagField(s, PidOn), FlagField(s, LineOn), FlagField(s, DepthOn);
    FoldAppend(base, f + i + l + n, FlagField(s, NumberOn), false, env);
    FoldAppend(base, f + i + l, n, false, env);
    FoldAppend(base, f + i, l, false, env);
    FoldAppend(base, f, i, false, env);
    var a := base.flags + Given(s, FileOn);
    ReadFlag(base, s, FileOn, env);
    ReadFlag(base.(flags := a), s, PidOn, env);
    ReadFlag(base.(flags := a + Given(s, PidOn)), s, LineOn, env);
    ReadFlag(base.(flags := a + Given(s, PidOn) + Given(s, LineOn)), s, DepthOn, env);
    ReadFlag(base.(flags := a + Given(s, PidOn) + Given(s, LineOn) + Given(s, DepthOn)), s, NumberOn, env);
  }

  lemma FoldTail(s: Settings, base: Settings, env: Env)
    requires GoodSettings(s) && base.processes == NO_LIST && base.maxdepth == 0 && s.subLevel == 0
    ensures Fold(base, Tail(s), false, env) ==
            base.(processes := List(Canon(s.processes.links), false), maxdepth := s.maxdepth,
                  flags := base.flags + Given(s, ProcessOn) + Given(s, TraceOn) + Given(s, TimestampOn))
  {
    assert LevelField(s) == [];
    hide ApplyField, ListField, FlagField, IntField, LevelField, Fold, Canon, GoodList, Given;
    var p, pp := ListField('p', s.processes.links, s.processes.links != []), FlagField(s, ProcessOn);
    var t := IntField('t', s.maxdepth, MAXDEPTH, TraceOn in s.flags);
    assert p + pp + [] == p + pp;
    FoldAppend(base, p + pp + t, FlagField(s, TimestampOn), false, env);
    FoldAppend(base, p + pp, t, false, env);
    FoldAppend(base, p, pp, false, env);
    ReadProcesses(base, s.processes.links, env);
    var s1 := base.(processes := List(Canon(s.processes.links), false));
    ReadFlag(s1, s, ProcessOn, env);
    var s2 := s1.(flags := s1.flags + Given(s, ProcessOn));
    ReadDepth(s2, s, env);
    ReadFlag(s2.(maxdepth := s.maxdepth, flags := s2.flags + Given(s, TraceOn)), s, TimestampOn, env);
  }

  lemma AllGiven(s: Settings)
    ensures Given(s, DebugOn) + Given(s, FileOn) + Given(s, PidOn) + Given(s, LineOn) + Given(s, DepthOn)
            + Given(s, NumberOn) + Given(s, ProcessOn) + Given(s, TraceOn) + Given(s, TimestampOn)
            == s.flags - {FlushOnWrite, OpenAppend}
  {
    forall f: Flag | f in s.flags && f != FlushOnWrite && f != OpenAppend
      ensures f == DebugOn || f == FileOn || f == PidOn || f == LineOn || f == DepthOn || f == NumberOn
              || f == ProcessOn || f == TraceOn || f == TimestampOn
    {
      match f {
        case DebugOn => case FileOn => case LineOn => case DepthOn => case ProcessOn => case NumberOn =>
        case PidOn => case TimestampOn => case TraceOn =>
        case FlushOnWrite => case OpenAppend =>
      }
    }
  }

  lemma FoldFields(s: Settings, env: Env)
    requires GoodSettings(s) && s.out == Stderr && s.subLevel == 0
    ensures Fold(RESET, Fields(s), false, env) == Restored(s)
  {
    assert OutField(s) == [];
    hide Head, Tail, Switches, OutField, Fold, Canon, GoodList, Given;
    assert Head(s) + Switches(s) + [] == Head(s) + Switches(s);
    FoldAppend(RESET, Head(s) + Switches(s), Tail(s), false, env);
    FoldAppend(RESET, Head(s), Switches(s), false, env);
    FoldHead(s, env);
    var s1 := Fold(RESET, Head(s), false, env);
    FoldSwitches(s, s1, env);
    FoldTail(s, Fold(s1, Switches(s), false, env), env);
    AllGiven(s);
  }

  lemma ParsedExplained(s: Settings, top: Settings, next: Settings, global: bool, env: Env)
    requires GoodSettings(s) && s.out == Stderr && s.subLevel == 0
    ensures Parsed(top, next, global, AddFields("", Fields(s)), env) == Restored(s)
  {
    FieldsPlain(s);
    var fields := Fields(s);
    ExplainedFields(fields);
    hide Fold, Fields, Restored, AddFields, FieldsFrom, Stripped, Relative;
    FoldFields(s, env);
  }

  ghost predicate SameMeaning(a: seq<Link>, b: seq<Link>) { forall n :: Find(a, n) == Find(b, n) }

  /** Parsing the control string that _db_explain_ prints restores the settings: the three lists as maps from
      names to flags, and every number and switch that is printed. */
  lemma ExplainRoundTrip(s: Settings, top: Settings, next: Settings, global: bool, env: Env)
    requires GoodSettings(s) && s.out == Stderr && s.subLevel == 0
    ensures var r := Parsed(top, next, global, AddFields("", Fields(s)), env);
            && SameMeaning(r.functions.links, s.functions.links)
            && SameMeaning(r.keywords.links, s.keywords.links)
            && SameMeaning(r.processes.links, s.processes.links)
            && r.maxdepth == s.maxdepth && r.delay == s.delay && r.subLevel == s.subLevel && r.out == s.out
            && r.flags == s.flags - {FlushOnWrite, OpenAppend}
            && GoodSettings(r)
  {
    hide Parsed, Fields, AddFields, Canon, SameMeaning, GoodList, TidyList;
    ParsedExplained(s, top, next, global, env);
    CanonSame(s.functions.links);
    CanonSame(s.keywords.links);
    CanonSame(s.processes.links);
    CanonEmpty(s.keywords.links);
  }

  lemma CanonSame(list: seq<Link>)
    requires GoodList(list) && TidyList(list)
    ensures GoodList(Canon(list)) && TidyList(Canon(list)) && SameMeaning(Canon(list), list)
  {
    CanonMeansSame(list);
    KeepEntries(list, Include);
    KeepEntries(list, Exclude);
    forall k | 0 <= k < |Canon(list)| ensures Unsplit(Token(Canon(list)[k])) {
      var x := Canon(list)[k];
      assert x in Keep(list, Include) || x in Keep(list, Exclude);
    }
  }

  lemma CanonEmpty(list: seq<Link>)
    ensures list == [] ==> Canon(list) == []
  {
  }

  // ---------- every settings made by parsing qualifies ----------

  lemma ChangeGood(l: List, sign: int, arg: string, rel: bool)
    requires GoodList(l.links) && TidyList(l.links) && Unsplit(arg)
    ensures GoodList(Change(l, sign, arg, rel).links) && TidyList(Change(l, sign, arg, rel).links)
  {
    OwnGood(l, rel);
    assert GoodList([]) && TidyList([]);
    hide GoodList, TidyList, AddDelAll, Names, Own, Unsplit;
    AddedGood(Own(l, rel).links, arg, if sign < 0 then Exclude else Include);
  }

  lemma KeywordsGood(s: Settings, sign: int, arg: string, rel: bool)
    requires GoodSettings(s) && Unsplit(arg)
    ensures GoodSettings(Keywords(s, sign, arg, rel))
  {
    KeywordsList(s, sign, arg, rel);
    OwnGood(s.keywords, rel);
    hide GoodList, TidyList, AddDelAll, Names, Own, Unsplit;
  }

  lemma KeywordsList(s: Settings, sign: int, arg: string, rel: bool)
    requires GoodList(s.keywords.links) && TidyList(s.keywords.links) && Unsplit(arg)
    ensures var r := Keywords(s, sign, arg, rel); GoodList(r.keywords.links) && TidyList(r.keywords.links)
  {
    var own := Own(s.keywords, rel);
    OwnGood(s.keywords, rel);
    assert GoodList([]) && TidyList([]);
    hide GoodList, TidyList, AddDelAll, Names, Own, Unsplit, Switch;
    AddedGood(own.links, arg, Include);
    AddedGood(own.links, arg, Exclude);
  }

  lemma OwnGood(l: List, rel: bool)
    requires GoodList(l.links) && TidyList(l.links)
    ensures GoodList(Own(l, rel).links) && TidyList(Own(l, rel).links) && |Own(l, rel).links| == |l.links|
  {
    CopyMeansSame(l.links);
  }

  lemma AddedGood(list: seq<Link>, arg: string, todo: Todo)
    requires GoodList(list) && TidyList(list) && Unsplit(arg)
    ensures GoodList(AddDelAll(list, Names(arg), todo)) && TidyList(AddDelAll(list, Names(arg), todo))
  {
    NamesTidy(arg);
    hide GoodList, TidyList, AddDelAll, Names, Unsplit, TidyName;
    ListAddDelGood(list, arg, todo);
    AddDelAllTidy(list, Names(arg), todo);
  }

  lemma OutputGood(s: Settings, letter: char, sign: int, arg: string, writable: set<string>)
    requires GoodSettings(s)
    ensures GoodSettings(Output(s, letter, sign, arg, writable))
  {
    hide GoodList, TidyList;
  }

  lemma SwitchGood(s: Settings, f: Flag, on: bool)
    requires GoodSettings(s) && f != DebugOn && f != TraceOn
    ensures GoodSettings(Switch(s, f, on))
  {
    hide GoodList, TidyList;
  }

  lemma DepthGood(s: Settings, sign: int, arg: string)
    requires GoodSettings(s)
    ensures GoodSettings(Depth(s, sign, arg))
  {
    hide GoodList, TidyList, Atoi;
  }

  predicate IsSwitch(c: char) { c == 'F' || c == 'i' || c == 'L' || c == 'n' || c == 'N' || c == 'P' || c == 'T' }

  lemma ApplySwitchGood(s: Settings, field: string, rel: bool, env: Env)
    requires GoodSettings(s) && Body(field) != "" && IsSwitch(Body(field)[0])
    ensures GoodSettings(ApplyField(s, field, rel, env))
  {
    hide Keywords, Change, Output, Depth, Switch, GoodSettings, Sign, Body, Arg, Atoi;
    var on := Sign(field) >= 0;
    SwitchGood(s, FileOn, on);
    SwitchGood(s, PidOn, on);
    SwitchGood(s, LineOn, on);
    SwitchGood(s, DepthOn, on);
    SwitchGood(s, NumberOn, on);
    SwitchGood(s, ProcessOn, on);
    SwitchGood(s, TimestampOn, on);
  }

  // Sign, letter and comma take no half of a pair away.
  lemma ArgUnsplit(field: string)
    requires Unsplit(field) && Body(field) != "" && Body(field)[0] != ':'
    ensures Unsplit(Arg(Body(field)))
  {
    var body := Body(field);
    if Sign(field) != 0 { assert body == field[1..]; }
    assert Unsplit(body[1..]);
    if |body| > 1 && body[1] == ',' { assert body[1..][1..] == body[2..]; }
  }

  lemma ApplyFieldGood(s: Settings, field: string, rel: bool, env: Env)
    requires GoodSettings(s) && Unsplit(field)
    ensures GoodSettings(ApplyField(s, field, rel, env))
  {
    hide Keywords, Change, Output, Depth, Switch, GoodList, TidyList, Sign, Body, Arg, Atoi, Unsplit;
    var sign, body := Sign(field), Body(field);
    if body != "" {
      var arg, c := Arg(body), body[0];
      if IsSwitch(c) {
        ApplySwitchGood(s, field, rel, env);
      } else {
        if c == 'd' || c == 'f' || c == 'p' {
          ArgUnsplit(field);
          KeywordsGood(s, sign, arg, rel);
          ChangeGood(s.functions, sign, arg, rel);
          ChangeGood(s.processes, sign, arg, rel);
        }
        DepthGood(s, sign, arg);
        OutputGood(s, c, sign, arg, env.writable);
      }
    }
  }

  lemma {:induction false} FoldGood(s: Settings, fields: seq<string>, rel: bool, env: Env)
    requires GoodSettings(s) && forall k :: 0 <= k < |fields| ==> Unsplit(fields[k])
    ensures GoodSettings(Fold(s, fields, rel, env))
    decreases |fields|
  {
    if fields != [] {
      ApplyFieldGood(s, fields[0], rel, env);
      FoldGood(ApplyField(s, fields[0], rel, env), fields[1..], rel, env);
    }
  }

  /** DbugParse, whatever the control string, leaves good settings: names unique and each entry exactly one
      of INCLUDE and EXCLUDE, DEBUG_ON whenever a keyword is listed, TRACE_ON just when the depth is not 0. */
  lemma ParsedGood(top: Settings, next: Settings, global: bool, control: string, env: Env)
    requires GoodSettings(next) && (top.out == Unset || GoodSettings(top))
    ensures GoodSettings(Parsed(top, next, global, control, env))
  {
    CopyMeansSame(next.functions.links);
    CopyMeansSame(next.keywords.links);
    CopyMeansSame(next.processes.links);
    var rel := Relative(control);
    FieldsUnsplit(Stripped(control), 0);
    hide Fold, Find, Reversed, FieldsFrom, Stripped, Relative, Unsplit;
    FoldGood(Start(top, next, global, rel), FieldsFrom(Stripped(control), 0), rel, env);
  }
}
