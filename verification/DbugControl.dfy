/**
 Debugging settings, the control string that sets them (DbugParse) and the control string that describes
 them (_db_explain_).

 A list shared with the next settings on the stack carries the mark `shared`; it is copied, and so comes
 out reversed, before it is changed.  `writable` says which files can be opened.
 */
module DbugControl {
  import opened DbugList

  const MAXDEPTH: nat := 200
  const WORD: nat := 0x1_0000_0000     // unsigned int

  datatype List = List(links: seq<Link>, shared: bool)

  const NO_LIST := List([], false)

  datatype Out = Unset | Stderr | Stdout | File(name: string)

  // The bits of settings.flags.
  datatype Flag =
    | DebugOn | FileOn | LineOn | DepthOn | ProcessOn | NumberOn | PidOn | TimestampOn
    | FlushOnWrite | OpenAppend | TraceOn

  datatype Settings = Settings(
    flags: set<Flag>, maxdepth: nat, delay: nat, subLevel: nat,
    out: Out, name: string,
    functions: List, keywords: List, processes: List)

  // What DbugParse starts from when the control string is absolute.
  const RESET := Settings({}, 0, 0, 0, Stderr, "", NO_LIST, NO_LIST, NO_LIST)

  function Switch(s: Settings, f: Flag, on: bool): Settings {
    s.(flags := if on then s.flags + {f} else s.flags - {f})
  }

  // ---------- fields ----------

  /** DbugStrTok: the next ':' that does not start one of "::", ":\" and ":/". */
  function FieldEnd(s: string, i: nat): (e: nat)
    requires i <= |s|
    ensures i <= e <= |s| && (e == |s| || s[e] == ':')
    decreases |s| - i
  {
    if i == |s| then i
    else if s[i] != ':' then FieldEnd(s, i + 1)
    else if i + 1 < |s| && (s[i + 1] == '\\' || s[i + 1] == '/') then FieldEnd(s, i + 1)
    else if i + 1 < |s| && s[i + 1] == ':' then FieldEnd(s, i + 2)
    else i
  }

  method StrTok(s: string, i: nat) returns (e: nat)
    requires i <= |s|
    ensures e == FieldEnd(s, i)
  {
    e := i;
    while e < |s| && (s[e] != ':' || (e + 1 < |s| && s[e + 1] in "\\/:"))
      invariant i <= e <= |s| && FieldEnd(s, e) == FieldEnd(s, i)
    {
      if s[e] == ':' && s[e + 1] == ':' { e := e + 1; }
      e := e + 1;
    }
  }

  // ---------- numbers ----------

  predicate IsDigit(c: char) { '0' <= c <= '9' }

  function Value(c: char): nat
    requires IsDigit(c)
  {
    c as int - '0' as int
  }

  // The digits at the start of s, after `acc`.
  function Digits(s: string, acc: nat): nat {
    if s != "" && IsDigit(s[0]) then Digits(s[1..], 10 * acc + Value(s[0])) else acc
  }

  function Atoi(s: string): int {
    if s == "" then 0
    else if s[0] == ' ' || '\t' <= s[0] <= '\r' then Atoi(s[1..])
    else if s[0] == '-' then 0 - Digits(s[1..], 0)
    else if s[0] == '+' then Digits(s[1..], 0)
    else Digits(s, 0)
  }

  function Digit(d: nat): char
    requires d < 10
  {
    ('0' as int + d) as char
  }

  // int10_to_str.
  function Decimal(n: nat): (s: string)
    ensures s != "" && forall k :: 0 <= k < |s| ==> IsDigit(s[k])
  {
    if n < 10 then [Digit(n)] else Decimal(n / 10) + [Digit(n % 10)]
  }

  lemma {:induction false} DigitsAppend(s: string, c: char, acc: nat)
    requires (forall k :: 0 <= k < |s| ==> IsDigit(s[k])) && IsDigit(c)
    ensures Digits(s + [c], acc) == 10 * Digits(s, acc) + Value(c)
  {
    if s == "" {
      assert ([c])[1..] == "";
      assert s + [c] == [c];
    } else {
      assert (s + [c])[1..] == s[1..] + [c];
      DigitsAppend(s[1..], c, 10 * acc + Value(s[0]));
    }
  }

  /** atoi reads back what int10_to_str writes. */
  lemma {:induction false} AtoiDecimal(n: nat)
    ensures Atoi(Decimal(n)) == n
  {
    DigitsDecimal(n);
    assert IsDigit(Decimal(n)[0]);
  }

  lemma {:induction false} DigitsDecimal(n: nat)
    ensures Digits(Decimal(n), 0) == n
  {
    if n < 10 {
      assert Decimal(n)[1..] == "";
    } else {
      DigitsDecimal(n / 10);
      DigitsAppend(Decimal(n / 10), Digit(n % 10), 0);
    }
  }

  // ---------- one field ----------

  function Sign(field: string): int {
    if field == "" then 0 else if field[0] == '+' then 1 else if field[0] == '-' then -1 else 0
  }

  function Body(field: string): string { if Sign(field) != 0 then field[1..] else field }

  // What follows the letter, without the first comma.
  function Arg(body: string): string
    requires body != ""
  {
    if |body| > 1 && body[1] == ',' then body[2..] else body[1..]
  }

  // Copy on write.
  function Own(l: List, rel: bool): List {
    if rel && l.shared then List(Reversed(l.links), false) else l
  }

  function Change(l: List, sign: int, arg: string, rel: bool): List {
    if sign < 0 && arg == "" then NO_LIST
    else
      var own := Own(l, rel);
      own.(links := AddDelAll(own.links, Names(arg), if sign < 0 then Exclude else Include))
  }

  function Keywords(s: Settings, sign: int, arg: string, rel: bool): Settings {
    if sign < 0 && arg == "" then Switch(s, DebugOn, false).(keywords := NO_LIST)
    else
      var own := Own(s.keywords, rel);
      var names := Names(arg);
      if sign < 0 then
        if DebugOn !in s.flags then s.(keywords := own)
        else
          var links := AddDelAll(own.links, names, Exclude);
          Switch(s, DebugOn, links != []).(keywords := own.(links := links))
      else
        // no keyword is added while everything is enabled
        var s' := if DebugOn in s.flags && own.links == [] then s.(keywords := own)
                  else Switch(s, DebugOn, true).(keywords := own.(links := AddDelAll(own.links, names, Include)));
        if sign == 1 && arg == "" then s'.(keywords := NO_LIST) else s'
  }

  function Output(s: Settings, letter: char, sign: int, arg: string, writable: set<string>): Settings {
    var s := if letter == 'A' || letter == 'O' then Switch(s, FlushOnWrite, true) else s;
    if sign < 0 then Switch(s, FlushOnWrite, false).(out := Stderr)
    else
      var s := Switch(s, OpenAppend, letter == 'a' || letter == 'A');
      if arg == "" || arg == "-" then Switch(s, FlushOnWrite, true).(out := Stdout, name := "")
      else s.(name := arg, out := if arg in writable then File(arg) else s.out)
  }

  function Depth(s: Settings, sign: int, arg: string): Settings {
    var d := if arg == "" then (if sign < 0 then 0 else MAXDEPTH)
             else (s.maxdepth + (if sign < 0 then -Atoi(arg) else Atoi(arg))) % WORD;
    Switch(s, TraceOn, d > 0).(maxdepth := d)
  }

  datatype Env = Env(level: nat, writable: set<string>)

  function ApplyField(s: Settings, field: string, rel: bool, env: Env): Settings {
    var sign, body := Sign(field), Body(field);
    if body == "" then s
    else
      var arg, on := Arg(body), sign >= 0;
      match body[0]
      case 'd' => Keywords(s, sign, arg, rel)
      case 'D' => s.(delay := Atoi(arg) % WORD)
      case 'f' => s.(functions := Change(s.functions, sign, arg, rel))
      case 'F' => Switch(s, FileOn, on)
      case 'i' => Switch(s, PidOn, on)
      case 'L' => Switch(s, LineOn, on)
      case 'n' => Switch(s, DepthOn, on)
      case 'N' => Switch(s, NumberOn, on)
      case 'A' => Output(s, 'A', sign, arg, env.writable)
      case 'O' => Output(s, 'O', sign, arg, env.writable)
      case 'a' => Output(s, 'a', sign, arg, env.writable)
      case 'o' => Output(s, 'o', sign, arg, env.writable)
      case 'p' => s.(processes := Change(s.processes, sign, arg, rel))
      case 'P' => Switch(s, ProcessOn, on)
      case 'r' => s.(subLevel := env.level)
      case 't' => Depth(s, sign, arg)
      case 'T' => Switch(s, TimestampOn, on)
      case _ => s
  }

  predicate UsesF(field: string) { Body(field) != "" && Body(field)[0] == 'f' }

  // ---------- the whole string ----------

  // The fields that are processed: an empty one ends the string.
  function FieldsFrom(control: string, i: nat): seq<string>
    requires i <= |control|
    decreases |control| - i
  {
    var e := FieldEnd(control, i);
    if e == i then []
    else if e == |control| then [control[i..e]]
    else [control[i..e]] + FieldsFrom(control, e + 1)
  }

  function Fold(s: Settings, fields: seq<string>, rel: bool, env: Env): Settings
    decreases |fields|
  {
    if fields == [] then s else Fold(ApplyField(s, fields[0], rel, env), fields[1..], rel, env)
  }

  function Stripped(control: string): string { if "-#" <= control then control[2..] else control }

  predicate Relative(control: string) { Sign(Stripped(control)) != 0 }

  // A fresh relative settings starts from a copy of the next one; nothing is shared with the global settings.
  function Inherited(next: Settings, global: bool): Settings {
    if global then
      next.(out := Stderr, functions := List(Reversed(next.functions.links), false),
            keywords := List(Reversed(next.keywords.links), false),
            processes := List(Reversed(next.processes.links), false))
    else
      next.(functions := next.functions.(shared := true), keywords := next.keywords.(shared := true),
            processes := next.processes.(shared := true))
  }

  function Start(top: Settings, next: Settings, global: bool, rel: bool): Settings {
    if !rel then RESET else if top.out == Unset then Inherited(next, global) else top
  }

  function Parsed(top: Settings, next: Settings, global: bool, control: string, env: Env): Settings {
    var rel := Relative(control);
    Fold(Start(top, next, global, rel), FieldsFrom(Stripped(control), 0), rel, env)
  }

  predicate ParseReturns(control: string) {
    !Relative(control) || exists f :: f in FieldsFrom(Stripped(control), 0) && UsesF(f)
  }

  lemma {:induction false} FoldSnoc(s: Settings, fields: seq<string>, f: string, rel: bool, env: Env)
    ensures Fold(s, fields + [f], rel, env) == ApplyField(Fold(s, fields, rel, env), f, rel, env)
    decreases |fields|
  {
    if fields == [] {
      assert fields + [f] == [f] && [f][1..] == [];
    } else {
      assert (fields + [f])[1..] == fields[1..] + [f];
      FoldSnoc(ApplyField(s, fields[0], rel, env), fields[1..], f, rel, env);
    }
  }

  /** DbugParse on the settings `top` above `next`: a scan of the control string, field by field.  The second
      result is the return value: a list of functions was possibly changed. */
  method DbugParse(top: Settings, next: Settings, global: bool, control: string, env: Env)
    returns (s: Settings, changed: bool)
    ensures s == Parsed(top, next, global, control, env)
    ensures changed <==> ParseReturns(control)
  {
    hide ApplyField, Start, UsesF, FieldEnd;
    var text := Stripped(control);
    var rel := Sign(text) != 0;
    s := Start(top, next, global, rel);
    ghost var start, all := s, FieldsFrom(text, 0);
    ghost var done: seq<string> := [];
    var used := false;
    var at := 0;
    var end := StrTok(text, 0);
    while at < end
      invariant 0 <= at <= end <= |text| && end == FieldEnd(text, at)
      invariant all == done + FieldsFrom(text, at)
      invariant s == Fold(start, done, rel, env)
      invariant used <==> exists f :: f in done && UsesF(f)
      decreases |text| - at
    {
      var field := text[at..end];
      FoldSnoc(start, done, field, rel, env);
      s := ApplyField(s, field, rel, env);
      assert used || UsesF(field) <==> exists f :: f in done + [field] && UsesF(f) by {
        assert field in done + [field];
        assert forall f :: f in done + [field] <==> f in done || f == field;
      }
      used := used || UsesF(field);
      ghost var before := done;
      done := done + [field];
      if end == |text| {
        assert all == done;
        changed := !rel || used;
        return;
      }
      assert before + ([field] + FieldsFrom(text, end + 1)) == done + FieldsFrom(text, end + 1);
      at := end + 1;
      end := StrTok(text, at);
    }
    assert all == done;
    changed := !rel || used;
  }
}
