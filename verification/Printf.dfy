/**
 o_vsnprintf: the state machine over the format, the fast and the general conversions of integers, strings
 and characters, and the bounded buffer they write to.

 Reading the format is the function Step, which says what is to be written next; writing it is done by
 the methods of Out.  `Unsupported` stands for what is left out (floating point, %p, %n, %N) and for
 arguments that are missing, of the wrong type, or the minimum of a signed type.
 */
module Printf {
  import opened PrintfInt

  const INT_MAX: nat := 0x7FFF_FFFF

  datatype Flags = Flags(minus: bool, plus: bool, space: bool, num: bool, zero: bool, quote: bool, up: bool, unsigned: bool)

  const NO_FLAGS := Flags(false, false, false, false, false, false, false, false)

  datatype Arg = Num(n: int) | Str(s: string) | Null

  // ---------- the text of a conversion ----------

  function Spaces(n: nat): string { seq(n, k => ' ') }
  function Max(a: int, b: int): int { if a > b then a else b }

  // The digits with a separator before each group of three.
  function Grouped(digits: string, separate: bool): string {
    if digits == "" then ""
    else
      var more := |digits| - 1;
      [digits[0]] + (if separate && more > 0 && more % 3 == 0 then "," else "") + Grouped(digits[1..], separate)
  }

  function Magnitude(value: int, f: Flags): nat {
    if f.unsigned then value % WORD64 else if value >= 0 then value else -value
  }

  function SignText(value: int, f: Flags): string {
    if f.unsigned then "" else if value < 0 then "-" else if f.plus then "+" else if f.space then " " else ""
  }

  function PrefixText(u: nat, radix: nat, f: Flags): string {
    if f.num && u != 0 && radix == 16 then (if f.up then "0X" else "0x") else ""
  }

  // The alternative form of an octal number has a leading zero.
  function Precision(u: nat, radix: nat, pos: nat, precision: int, f: Flags): int {
    if f.num && u != 0 && radix == 8 && precision <= pos then pos + 1 else precision
  }

  function Separators(pos: nat, f: Flags): nat
    requires pos > 0
  {
    if f.quote then (pos - (if pos % 3 == 0 then 1 else 0)) / 3 else 0
  }

  datatype Padding = Padding(spaces: nat, zeros: nat)

  function Pads(u: nat, radix: nat, pos: nat, width: int, precision: int, f: Flags, around: nat): Padding
    requires pos > 0
  {
    var p, seps := Precision(u, radix, pos, precision, f), Separators(pos, f);
    var zeros, spaces: nat := Max(0, p - pos - seps), Max(0, width - seps - Max(p, pos) - around);
    if !f.minus && f.zero && precision == -1 then Padding(0, zeros + spaces) else Padding(spaces, zeros)
  }

  /** What fmtint prints. */
  function IntText(value: int, radix: nat, width: int, precision: int, f: Flags): string
    requires IsRadix(radix)
  {
    var u := Magnitude(value, f);
    var digits := Digits(u, radix, f.up);
    var sign, prefix := SignText(value, f), PrefixText(u, radix, f);
    var pads := Pads(u, radix, |digits|, width, precision, f, |sign| + |prefix|);
    (if f.minus then "" else Spaces(pads.spaces)) + sign + prefix + Zeros(pads.zeros)
    + Grouped(digits, Separators(|digits|, f) > 0) + (if f.minus then Spaces(pads.spaces) else "")
  }

  // What the fast path prints.
  function FastText(v: int): string { if v < 0 then "-" + Decimal(-v) else Decimal(v) }

  lemma {:induction false} GroupedPlain(digits: string)
    ensures Grouped(digits, false) == digits
  {
    if digits != "" { GroupedPlain(digits[1..]); }
  }

  // Without flags, width and precision nothing surrounds the digits but the sign.
  lemma PlainText(v: int, f: Flags)
    requires f == NO_FLAGS || f == NO_FLAGS.(unsigned := true)
    ensures IntText(v, 10, 0, -1, f) == SignText(v, f) + Decimal(Magnitude(v, f))
  {
    hide Digits, Grouped, Spaces, Zeros;
    var digits := Digits(Magnitude(v, f), 10, false);
    GroupedPlain(digits);
    assert Pads(Magnitude(v, f), 10, |digits|, 0, -1, f, |SignText(v, f)|) == Padding(0, 0);
    assert Spaces(0) == "" by { SpacesAre(0); }
    assert Zeros(0) == "" by { ZerosAre(0); }
    assert "" + SignText(v, f) + "" + "" + digits + "" == SignText(v, f) + digits;
  }

  /** The fast path prints the text of fmtint with base 10 and no flags, width or precision; and the text
      parses back to the value. */
  lemma FastIsGeneral(v: int)
    ensures FastText(v) == IntText(v, 10, 0, -1, NO_FLAGS)
    ensures 0 <= v < WORD64 ==> FastText(v) == IntText(v, 10, 0, -1, NO_FLAGS.(unsigned := true))
    ensures if v < 0 then FastText(v)[0] == '-' && Parse(FastText(v)[1..]) == -v else Parse(FastText(v)) == v
  {
    hide IntText, Decimal, Parse;
    var u := if v < 0 then -v else v;
    ParseDecimal(u);
    PlainText(v, NO_FLAGS);
    if 0 <= v < WORD64 {
      PlainText(v, NO_FLAGS.(unsigned := true));
      assert v % WORD64 == v;
      assert "" + Decimal(v) == Decimal(v);
    }
    if v < 0 { assert ("-" + Decimal(u))[1..] == Decimal(u); }
  }

  function Cut(s: string, precision: int): string {
    if precision == -1 || |s| <= precision then s else if precision < 0 then "" else s[..precision]
  }

  /** What fmtstr prints. */
  function StrText(s: string, width: int, precision: int, f: Flags): string {
    var shown := Cut(s, precision);
    var pad: nat := Max(0, width - |shown|);
    if f.minus then shown + Spaces(pad) else Spaces(pad) + shown
  }

  // ---------- the state machine ----------

  datatype State = SDefault | SFlags | SWidth | SDot | SPrecision | SMod | SConv

  datatype Modifier = None | Char | Short | Long | LongLong | LongDouble | Size | PtrDiff | IntMax

  datatype Machine = Machine(state: State, flags: Flags, width: int, precision: int, mod: Modifier)

  const START := Machine(SDefault, NO_FLAGS, 0, -1, None)

  // What a step writes, and how.
  datatype Emit =
    | Nothing
    | OutCh(c: char)
    | FastCh(c: char)
    | FastStr(s: string)
    | FastInt(v: int)
    | Int(value: int, radix: nat, width: int, precision: int, flags: Flags)
    | Text(s: string, width: int, precision: int, flags: Flags)

  datatype Status = Done | Overflow | Unsupported

  datatype StepResult = Next(emit: Emit, m: Machine, fmt: string, args: seq<Arg>) | Stop(status: Status)

  predicate EmitOk(e: Emit) {
    match e
    case FastInt(v) => -(WORD64 / 2) < v < WORD64
    case Int(value, radix, _, _, flags) => IsRadix(radix) && Magnitude(value, flags) < WORD64
    case _ => true
  }

  function EmitText(e: Emit): string
    requires EmitOk(e)
  {
    match e
    case Nothing => ""
    case OutCh(c) => [c]
    case FastCh(c) => [c]
    case FastStr(s) => s
    case FastInt(v) => FastText(v)
    case Int(value, radix, width, precision, flags) => IntText(value, radix, width, precision, flags)
    case Text(s, width, precision, flags) => StrText(s, width, precision, flags)
  }

  function Drop(s: string, n: nat): string { if n <= |s| then s[n..] else "" }

  predicate IsNum(args: seq<Arg>, low: int, high: int) { args != [] && args[0].Num? && low < args[0].n < high }

  const WORD32: nat := 0x1_0000_0000

  // A fast integer conversion; `rest` is the format after it.
  function FastNumber(m: Machine, rest: string, args: seq<Arg>, low: int, high: int): StepResult {
    if IsNum(args, low, high) then Next(FastInt(args[0].n), m.(state := SDefault), rest, args[1..]) else Stop(Unsupported)
  }

  // With an l the format is advanced over the letters that follow, but for the value 0 over the l only.
  function FastLong(m: Machine, fmt: string, args: seq<Arg>, low: int, letters: nat): StepResult {
    var zero := args != [] && args[0] == Num(0);
    FastNumber(m, Drop(fmt, if zero then 1 else 1 + letters), args, low, if low < -1 then WORD64 / 2 else WORD64)
  }

  function FlagsStep(m: Machine, fmt: string, args: seq<Arg>): StepResult
    requires fmt != ""
  {
    var f, rest := m.flags, fmt[1..];
    match fmt[0]
    case '-' => Next(Nothing, m.(flags := f.(minus := true)), rest, args)
    case '+' => Next(Nothing, m.(flags := f.(plus := true)), rest, args)
    case ' ' => Next(Nothing, m.(flags := f.(space := true)), rest, args)
    case '#' => Next(Nothing, m.(flags := f.(num := true)), rest, args)
    case '0' => Next(Nothing, m.(flags := f.(zero := true)), rest, args)
    case '\'' => Next(Nothing, m.(flags := f.(quote := true)), rest, args)
    case 'c' =>
      if IsNum(args, 0, 256) then Next(FastCh(args[0].n as char), m.(state := SDefault), rest, args[1..])
      else Stop(Unsupported)
    case 's' =>
      if args != [] && args[0].Str? then Next(FastStr(args[0].s), m.(state := SDefault), rest, args[1..])
      else Stop(Unsupported)
    case 'd' => FastNumber(m, rest, args, -(WORD32 / 2), WORD32 / 2)
    case 'i' => FastNumber(m, rest, args, -(WORD32 / 2), WORD32 / 2)
    case 'u' => FastNumber(m, rest, args, -1, WORD32)
    case 'l' =>
      if rest != "" && (rest[0] == 'd' || rest[0] == 'i') then FastLong(m, fmt, args, -(WORD64 / 2), 1)
      else if rest != "" && rest[0] == 'u' then FastLong(m, fmt, args, -1, 1)
      else if |rest| > 1 && rest[0] == 'l' && (rest[1] == 'd' || rest[1] == 'i') then FastLong(m, fmt, args, -(WORD64 / 2), 2)
      else if |rest| > 1 && rest[0] == 'l' && rest[1] == 'u' then FastLong(m, fmt, args, -1, 2)
      else Next(Nothing, m.(state := SWidth), fmt, args)
    case 'N' => Stop(Unsupported)
    case _ => Next(Nothing, m.(state := SWidth), fmt, args)
  }

  predicate IsDigit(c: char) { '0' <= c <= '9' }

  function WidthStep(m: Machine, fmt: string, args: seq<Arg>): StepResult
    requires fmt != ""
  {
    if IsDigit(fmt[0]) then
      var d := DigitValue(fmt[0]);
      if m.width > (INT_MAX - d) / 10 then Stop(Overflow)
      else Next(Nothing, m.(width := 10 * m.width + d), fmt[1..], args)
    else if fmt[0] == '*' then
      if !IsNum(args, -(WORD32 / 2), WORD32 / 2) then Stop(Unsupported)
      else if args[0].n < 0 then
        Next(Nothing, m.(width := -args[0].n, flags := m.flags.(minus := true), state := SDot), fmt[1..], args[1..])
      else Next(Nothing, m.(width := args[0].n, state := SDot), fmt[1..], args[1..])
    else Next(Nothing, m.(state := SDot), fmt, args)
  }

  function PrecisionStep(m0: Machine, fmt: string, args: seq<Arg>): StepResult
    requires fmt != ""
  {
    var m := if m0.precision == -1 then m0.(precision := 0) else m0;
    if IsDigit(fmt[0]) then
      var d := DigitValue(fmt[0]);
      if m.precision > (INT_MAX - d) / 10 then Stop(Overflow)
      else Next(Nothing, m.(precision := 10 * m.precision + d), fmt[1..], args)
    else if fmt[0] == '*' then
      if !IsNum(args, -(WORD32 / 2), WORD32 / 2) then Stop(Unsupported)
      else Next(Nothing, m.(precision := Max(-1, args[0].n), state := SMod), fmt[1..], args[1..])
    else Next(Nothing, m.(state := SMod), fmt, args)
  }

  function ModStep(m: Machine, fmt: string, args: seq<Arg>): StepResult
    requires fmt != ""
  {
    var rest := fmt[1..];
    var twice := rest != "" && rest[0] == fmt[0];
    var c := m.(state := SConv);
    match fmt[0]
    case 'h' => Next(Nothing, c.(mod := if twice then Char else Short), if twice then rest[1..] else rest, args)
    case 'l' => Next(Nothing, c.(mod := if twice then LongLong else Long), if twice then rest[1..] else rest, args)
    case 'L' => Next(Nothing, c.(mod := LongDouble), rest, args)
    case 'j' => Next(Nothing, c.(mod := IntMax), rest, args)
    case 't' => Next(Nothing, c.(mod := PtrDiff), rest, args)
    case 'z' => Next(Nothing, c.(mod := Size), rest, args)
    case _ => Next(Nothing, c, fmt, args)
  }

  // The conversions to signed and unsigned char and short.
  function Narrow(n: int, mod: Modifier, unsigned: bool): int {
    var w := if mod == Char then 256 else 65536;
    if mod != Char && mod != Short then n
    else if unsigned || n % w < w / 2 then n % w
    else n % w - w
  }

  function ConvInt(m: Machine, rest: string, args: seq<Arg>, radix: nat, up: bool, unsigned: bool): StepResult {
    if !IsNum(args, if unsigned then -1 else -(WORD64 / 2), if unsigned then WORD64 else WORD64 / 2) then Stop(Unsupported)
    else
      var f := m.flags.(up := m.flags.up || up, unsigned := m.flags.unsigned || unsigned);
      Next(Int(Narrow(args[0].n, m.mod, unsigned), radix, m.width, m.precision, f), START, rest, args[1..])
  }

  function ConvStep(m: Machine, fmt: string, args: seq<Arg>): StepResult
    requires fmt != ""
  {
    var rest := fmt[1..];
    match fmt[0]
    case 'd' => ConvInt(m, rest, args, 10, false, false)
    case 'i' => ConvInt(m, rest, args, 10, false, false)
    case 'X' => ConvInt(m, rest, args, 16, true, true)
    case 'x' => ConvInt(m, rest, args, 16, false, true)
    case 'o' => ConvInt(m, rest, args, 8, false, true)
    case 'u' => ConvInt(m, rest, args, 10, false, true)
    case 'c' =>
      if IsNum(args, 0, 256) then Next(OutCh(args[0].n as char), START, rest, args[1..]) else Stop(Unsupported)
    case 's' =>
      if args == [] || args[0].Num? then Stop(Unsupported)
      else Next(Text(if args[0].Null? then "(null)" else args[0].s, m.width, m.precision, m.flags), START, rest, args[1..])
    case '%' => Next(OutCh('%'), START, rest, args)
    case _ => if fmt[0] in "AFafEeGgpn" then Stop(Unsupported) else Next(Nothing, START, rest, args)
  }

  function Step(m: Machine, fmt: string, args: seq<Arg>): StepResult
    requires fmt != ""
  {
    match m.state
    case SDefault =>
      if fmt[0] == '%' then Next(Nothing, m.(state := SFlags), fmt[1..], args) else Next(OutCh(fmt[0]), m, fmt[1..], args)
    case SFlags => FlagsStep(m, fmt, args)
    case SWidth => WidthStep(m, fmt, args)
    case SDot =>
      if fmt[0] == '.' then Next(Nothing, m.(state := SPrecision), fmt[1..], args)
      else Next(Nothing, m.(state := SMod), fmt, args)
    case SPrecision => PrecisionStep(m, fmt, args)
    case SMod => ModStep(m, fmt, args)
    case SConv => ConvStep(m, fmt, args)
  }

  function Rank(s: State): nat {
    match s
    case SDefault => 0
    case SConv => 1
    case SMod => 2
    case SPrecision => 3
    case SDot => 4
    case SWidth => 5
    case SFlags => 6
  }

  // A step goes on with less of the format, or the same and a later state; or it stops, but is not done.
  predicate GoesOn(r: StepResult, m: Machine, fmt: string) {
    match r
    case Stop(status) => status != Done
    case Next(emit, m', fmt', _) =>
      EmitOk(emit) && (|fmt'| < |fmt| || (|fmt'| == |fmt| && Rank(m'.state) < Rank(m.state)))
  }

  lemma FlagsGoesOn(m: Machine, fmt: string, args: seq<Arg>)
    requires fmt != "" && m.state == SFlags
    ensures GoesOn(FlagsStep(m, fmt, args), m, fmt)
  {
  }

  lemma IntGoesOn(m: Machine, rest: string, args: seq<Arg>, radix: nat, up: bool, unsigned: bool)
    requires IsRadix(radix)
    ensures match ConvInt(m, rest, args, radix, up, unsigned)
            case Stop(status) => status != Done
            case Next(emit, m', fmt', _) => EmitOk(emit) && fmt' == rest && m' == START
  {
  }

  lemma ConvGoesOn(m: Machine, fmt: string, args: seq<Arg>)
    requires fmt != "" && m.state == SConv
    ensures GoesOn(ConvStep(m, fmt, args), m, fmt)
  {
    hide ConvInt;
    IntGoesOn(m, fmt[1..], args, 10, false, false);
    IntGoesOn(m, fmt[1..], args, 16, true, true);
    IntGoesOn(m, fmt[1..], args, 16, false, true);
    IntGoesOn(m, fmt[1..], args, 8, false, true);
    IntGoesOn(m, fmt[1..], args, 10, false, true);
  }

  lemma StepGoesOn(m: Machine, fmt: string, args: seq<Arg>)
    requires fmt != ""
    ensures GoesOn(Step(m, fmt, args), m, fmt)
  {
    hide FlagsStep, ConvStep;
    if m.state == SFlags { FlagsGoesOn(m, fmt, args); }
    if m.state == SConv { ConvGoesOn(m, fmt, args); }
  }

  datatype Outcome = Outcome(text: string, status: Status)

  // The text without a bound on the buffer.
  function Run(m: Machine, fmt: string, args: seq<Arg>): Outcome
    decreases |fmt|, Rank(m.state)
  {
    if fmt == "" then Outcome("", Done)
    else
      match Step(m, fmt, args)
      case Stop(status) => Outcome("", status)
      case Next(emit, m', fmt', args') =>
        StepGoesOn(m, fmt, args);
        var r := Run(m', fmt', args');
        Outcome(EmitText(emit) + r.text, r.status)
  }

  // ---------- the bounded buffer ----------

  class Out {
    const str: array<char>
    const size: nat
    var len: nat
    ghost var text: string      // everything that has been asked for

    ghost predicate Valid()
      reads this, str
    {
      && 0 < size <= str.Length
      && (|text| < size ==> len == |text| && str[..len] == text)
      && (|text| >= size ==> len + 1 >= size && str[..size - 1] == text[..size - 1])
    }

    // Nothing beyond the size given is touched.
    twostate predicate Inside()
      reads this, str
    {
      forall k :: size <= k < str.Length ==> str[k] == old(str[k])
    }

    constructor (str: array<char>, size: nat)
      requires 0 < size <= str.Length
      ensures Valid() && text == "" && this.str == str && this.size == size
    {
      this.str := str;
      this.size := size;
      len := 0;
      text := "";
    }

    /** OUTCHAR. */
    method OutChar(ch: char)
      requires Valid()
      modifies this, str
      ensures Valid() && text == old(text) + [ch] && Inside()
    {
      ghost var was := text;
      if len + 1 < size {
        str[len] := ch;
        assert str[..len + 1] == was + [ch];
      } else {
        assert |was| + 1 >= size;
        assert (was + [ch])[..size - 1] == was[..size - 1];
        assert str[..size - 1] == was[..size - 1];
      }
      len := len + 1;
      text := was + [ch];
    }

    /** The fast %c, which does not count a character that does not fit. */
    method FastChar(ch: char)
      requires Valid()
      modifies this, str
      ensures Valid() && text == old(text) + [ch] && Inside()
    {
      if len + 1 < size {
        OutChar(ch);
      } else {
        Full([ch]);
        text := text + [ch];
      }
    }

    // With the buffer full, more text changes nothing.
    lemma Full(more: string)
      requires Valid() && len + 1 >= size
      ensures |text| + 1 >= size && str[..size - 1] == (text + more)[..size - 1]
    {
    }

    /** The fast %s. */
    method FastString(v: string)
      requires Valid()
      modifies this, str
      ensures Valid() && text == old(text) + v && Inside()
    {
      var k := 0;
      assert v[..0] == "";
      while k < |v| && len + 1 < size
        invariant 0 <= k <= |v| && Valid() && text == old(text) + v[..k] && Inside()
      {
        OutChar(v[k]);
        assert v[..k + 1] == v[..k] + [v[k]];
        k := k + 1;
      }
      assert v == v[..k] + v[k..];
      if k < |v| {
        Full(v[k..]);
        text := text + v[k..];
      } else {
        assert v[..k] == v;
      }
    }

    /** The fast copy of the digits that fit. */
    method PutTail(scratch: array<char>, s: nat)
      requires Valid() && s < scratch.Length && scratch != str && |text| < size
      modifies this, str
      ensures Valid() && text == old(text) + scratch[s..] && Inside()
    {
      var n := scratch.Length - s;
      n := if len + n < size then n else size - len;
      ghost var was, digits := text, scratch[s..];
      forall k | 0 <= k < n { str[len + k] := scratch[s + k]; }
      len := len + n;
      text := was + digits;
      assert str[..len] == was + digits[..n];
      if |text| < size {
        assert digits[..n] == digits;
      } else {
        assert str[..size - 1] == str[..len][..size - 1];
        assert (was + digits[..n])[..size - 1] == text[..size - 1];
      }
    }

    /** The fast %d and its relatives; `more` is false when the buffer was already full. */
    method FastInteger(v: int) returns (more: bool)
      requires Valid() && -(WORD64 / 2) < v < WORD64
      modifies this, str
      ensures Valid() && Inside()
      ensures more == old(len + 1 < size) && text == if more then old(text) + FastText(v) else old(text)
    {
      more := len + 1 < size;
      if !more { return; }
      if v == 0 {
        OutChar('0');
        return;
      }
      if v < 0 { OutChar('-'); }
      var scratch, s := TableDigits(if v < 0 then -v else v);
      PutTail(scratch, s);
      assert old(text) + "-" + scratch[s..] == old(text) + ("-" + scratch[s..]);
    }

    method Repeat(ch: char, n: nat)
      requires Valid()
      modifies this, str
      ensures Valid() && text == old(text) + seq(n, k => ch) && Inside()
    {
      var k := 0;
      assert text == old(text) + seq(0, j => ch);
      while k < n
        invariant 0 <= k <= n && Valid() && text == old(text) + seq(k, j => ch) && Inside()
      {
        OutChar(ch);
        assert seq(k + 1, j => ch) == seq(k, j => ch) + [ch];
        k := k + 1;
      }
    }

    method PutAll(v: string)
      requires Valid()
      modifies this, str
      ensures Valid() && text == old(text) + v && Inside()
    {
      var k := 0;
      assert v[..0] == "";
      while k < |v|
        invariant 0 <= k <= |v| && Valid() && text == old(text) + v[..k] && Inside()
      {
        OutChar(v[k]);
        assert v[..k + 1] == v[..k] + [v[k]];
        k := k + 1;
      }
      assert v[..k] == v;
    }

    /** The digit loop of fmtint. */
    method PutDigits(iconvert: array<char>, count: nat, separate: bool, ghost digits: string)
      requires Valid() && iconvert != str && count == |digits| <= iconvert.Length && iconvert[..count] == Reversed(digits)
      modifies this, str
      ensures Valid() && text == old(text) + Grouped(digits, separate) && Inside()
    {
      hide Grouped;
      var pos := count;
      ghost var done: string := "";
      assert digits[0..] == digits;
      while pos > 0
        invariant 0 <= pos <= count && Valid() && Inside() && iconvert[..count] == Reversed(digits)
        invariant text == old(text) + done && done + Grouped(digits[count - pos..], separate) == Grouped(digits, separate)
      {
        ghost var rest := digits[count - pos..];
        ghost var one := One(rest, separate);
        GroupedOne(done, rest, separate);
        pos := pos - 1;
        assert iconvert[pos] == iconvert[..count][pos] == rest[0];
        assert rest[1..] == digits[count - pos..];
        OutChar(iconvert[pos]);
        if separate && pos > 0 && pos % 3 == 0 { OutChar(','); }
        assert text == old(text) + (done + one);
        done := done + one;
      }
      assert digits[count..] == "";
      assert Grouped("", separate) == "" by { GroupedNothing(separate); }
    }

    // The output of fmtint, once everything has been computed.
    method PutInt(sign: string, prefix: string, pads: Padding, minus: bool, iconvert: array<char>, count: nat,
        separate: bool, ghost digits: string)
      requires Valid() && iconvert != str && count == |digits| <= iconvert.Length && iconvert[..count] == Reversed(digits)
      modifies this, str
      ensures Valid() && Inside()
      ensures text == old(text) + ((if minus then "" else Spaces(pads.spaces)) + sign + prefix + Zeros(pads.zeros)
                + Grouped(digits, separate) + (if minus then Spaces(pads.spaces) else ""))
    {
      hide Grouped, Reversed, Spaces, Zeros;
      SpacesAre(pads.spaces);
      ZerosAre(pads.zeros);
      ghost var start := text;
      if !minus { Repeat(' ', pads.spaces); }
      ghost var lead := if minus then "" else Spaces(pads.spaces);
      assert text == start + lead;
      PutAll(sign);
      PutAll(prefix);
      Repeat('0', pads.zeros);
      PutDigits(iconvert, count, separate, digits);
      if minus { Repeat(' ', pads.spaces); }
      ghost var trail := if minus then Spaces(pads.spaces) else "";
      Joined(start, lead, sign, prefix, Zeros(pads.zeros), Grouped(digits, separate), trail);
    }

    // How much fmtint pads, and with what.
    method Layout(uvalue: nat, radix: nat, pos: nat, width: int, precision: int, f: Flags, around: nat)
      returns (pads: Padding)
      requires pos > 0
      ensures pads == Pads(uvalue, radix, pos, width, precision, f, around)
    {
      var prec := precision;
      if f.num && uvalue != 0 && radix == 8 && precision <= pos { prec := pos + 1; }
      var separators: nat := if f.quote then (pos - (if pos % 3 == 0 then 1 else 0)) / 3 else 0;
      var zpadlen := prec - pos - separators;
      var spadlen := width - separators - (if prec > pos then prec else pos) - around;
      if zpadlen < 0 { zpadlen := 0; }
      if spadlen < 0 { spadlen := 0; }
      if !f.minus && f.zero && precision == -1 {
        zpadlen := zpadlen + spadlen;
        spadlen := 0;
      }
      pads := Padding(spadlen, zpadlen);
    }

    /** fmtint. */
    method FmtInt(value: int, radix: nat, width: int, precision: int, f: Flags)
      requires Valid() && IsRadix(radix) && Magnitude(value, f) < WORD64
      modifies this, str
      ensures Valid() && text == old(text) + IntText(value, radix, width, precision, f) && Inside()
    {
      hide Grouped, Digits, Spaces, Zeros, Pads, Valid, IntText, SignText, PrefixText;
      var uvalue := Magnitude(value, f);
      var sign := SignText(value, f);
      var iconvert, pos := Convert(uvalue, radix, f.up);
      ghost var digits := Digits(uvalue, radix, f.up);
      assert |digits| == pos;
      var hexprefix := PrefixText(uvalue, radix, f);
      var pads := Layout(uvalue, radix, pos, width, precision, f, |sign| + |hexprefix|);
      IntTextIs(value, radix, width, precision, f);
      PutInt(sign, hexprefix, pads, f.minus, iconvert, pos, Separators(pos, f) > 0, digits);
    }

    /** fmtstr. */
    method FmtStr(value: string, width: int, precision: int, f: Flags)
      requires Valid()
      modifies this, str
      ensures Valid() && text == old(text) + StrText(value, width, precision, f) && Inside()
    {
      var strln := 0;
      while strln < |value| && (precision == -1 || strln < precision)
        invariant 0 <= strln <= |value| && (precision >= 0 ==> strln <= precision) && (precision < -1 ==> strln == 0)
      {
        strln := strln + 1;
      }
      var pad: nat := Max(0, width - strln);
      ghost var start := text;
      if !f.minus { Repeat(' ', pad); }
      assert text == start + if f.minus then "" else Spaces(pad);
      PutAll(value[..strln]);
      if f.minus { Repeat(' ', pad); }
      assert value[..|value|] == value;
      assert value[..strln] == Cut(value, precision);
      assert start + Spaces(pad) + value[..strln] == start + (Spaces(pad) + value[..strln]);
      assert start + value[..strln] + Spaces(pad) == start + (value[..strln] + Spaces(pad));
    }

    /** What one step writes; `more` is false when it finds the buffer full and gives up. */
    method Write(e: Emit) returns (more: bool)
      requires Valid() && EmitOk(e)
      modifies this, str
      ensures Valid() && Inside()
      ensures if more then text == old(text) + EmitText(e) else text == old(text) && |text| + 1 >= size && EmitText(e) != ""
    {
      more := true;
      match e {
        case Nothing =>
        case OutCh(c) => OutChar(c);
        case FastCh(c) => FastChar(c);
        case FastStr(s) => FastString(s);
        case FastInt(v) =>
          more := FastInteger(v);
        case Int(value, radix, width, precision, flags) => FmtInt(value, radix, width, precision, flags);
        case Text(s, width, precision, flags) => FmtStr(s, width, precision, flags);
      }
    }

    /** The terminator. */
    method Terminate()
      requires Valid()
      modifies str
      ensures Inside() && text == old(text) && len == old(len)
      ensures var n := if |text| < size then |text| else size - 1; str[..n] == text[..n] && str[n] == '\0'
    {
      assert |text| < size ==> text[..|text|] == text;
      if len < size {
        str[len] := '\0';
      } else {
        str[size - 1] := '\0';
      }
      if |text| >= size {
        assert str[size - 1] == '\0';
      }
    }
  }

  // The first digit, and the separator behind it if there is one.
  function One(digits: string, separate: bool): string
    requires digits != ""
  {
    var more := |digits| - 1;
    [digits[0]] + if separate && more > 0 && more % 3 == 0 then "," else ""
  }

  lemma GroupedOne(done: string, digits: string, separate: bool)
    requires digits != ""
    ensures done + Grouped(digits, separate) == (done + One(digits, separate)) + Grouped(digits[1..], separate)
  {
  }

  lemma GroupedNothing(separate: bool)
    ensures Grouped("", separate) == ""
  {
  }

  lemma IntTextIs(value: int, radix: nat, width: int, precision: int, f: Flags)
    requires IsRadix(radix)
    ensures var u := Magnitude(value, f);
            var digits, sign, prefix := Digits(u, radix, f.up), SignText(value, f), PrefixText(u, radix, f);
            var pads := Pads(u, radix, |digits|, width, precision, f, |sign| + |prefix|);
            IntText(value, radix, width, precision, f) ==
              (if f.minus then "" else Spaces(pads.spaces)) + sign + prefix + Zeros(pads.zeros)
              + Grouped(digits, Separators(|digits|, f) > 0) + (if f.minus then Spaces(pads.spaces) else "")
  {
    hide Grouped, Digits, Spaces, Zeros, Pads, SignText, PrefixText;
  }

  lemma SpacesAre(n: nat)
    ensures Spaces(n) == seq(n, k => ' ')
  {
  }

  lemma ZerosAre(n: nat)
    ensures Zeros(n) == seq(n, k => '0')
  {
  }

  lemma Joined(s: string, a: string, b: string, c: string, d: string, e: string, f: string)
    ensures s + a + b + c + d + e + f == s + (a + b + c + d + e + f)
  {
  }

  /** The loop over the format: it ends with everything written, or gives up with the buffer full. */
  method Drive(out: Out, format: string, args: seq<Arg>) returns (overflow: bool)
    requires out.Valid() && out.text == "" && Run(START, format, args).status != Unsupported
    modifies out, out.str
    ensures out.Valid()
    ensures var full := Run(START, format, args);
            || full == Outcome(out.text, if overflow then Overflow else Done)
            || (!overflow && out.text < full.text && |out.text| + 1 >= out.size)
    ensures forall k :: out.size <= k < out.str.Length ==> out.str[k] == old(out.str[k])
  {
    hide Step, EmitText, Run, EmitOk, Rank, Out.Valid;
    var m, fmt, rest := START, format, args;
    ghost var full := Run(START, format, args);
    var more := true;
    overflow := false;
    assert "" + full.text == full.text;
    while fmt != "" && more && !overflow
      invariant out.Valid()
      invariant forall k :: out.size <= k < out.str.Length ==> out.str[k] == old(out.str[k])
      invariant more && !overflow ==> full == Behind(out.text, Run(m, fmt, rest))
      invariant overflow ==> full == Outcome(out.text, Overflow)
      invariant !more ==> out.text < full.text && |out.text| + 1 >= out.size && !overflow
      decreases more && !overflow, |fmt|, Rank(m.state)
    {
      RunStep(out.text, m, fmt, rest);
      StepGoesOn(m, fmt, rest);
      var r := Step(m, fmt, rest);
      match r {
        case Stop(status) =>
          overflow := true;
        case Next(emit, m', fmt', args') =>
          more := out.Write(emit);
          m, fmt, rest := m', fmt', args';
      }
    }
    RunEnd(out.text, m, rest);
  }

  /** o_vsnprintf with a buffer of `size` characters at least 1.  The result is terminated and is the first
      size - 1 characters of what an unlimited buffer would get, and nothing beyond the size is touched; when
      all of it fits, the length is returned. */
  method Vsnprintf(str: array<char>, size: nat, format: string, args: seq<Arg>) returns (ret: int)
    requires 0 < size <= str.Length && Run(START, format, args).status != Unsupported
    modifies str
    ensures var full := Run(START, format, args).text;
            var n := if |full| < size then |full| else size - 1;
            str[..n] == full[..n] && str[n] == '\0'
    ensures forall k :: size <= k < str.Length ==> str[k] == old(str[k])
    ensures var full := Run(START, format, args);
            full.status == Done && |full.text| < size && |full.text| < INT_MAX ==> ret == |full.text|
    ensures ret == -1 || 0 <= ret < INT_MAX
  {
    hide Run;
    var out := new Out(str, size);
    var overflow := Drive(out, format, args);
    out.Terminate();
    ret := if overflow || out.len >= INT_MAX then -1 else out.len;
  }

  // `done` has been written before the rest.
  function Behind(done: string, r: Outcome): Outcome { Outcome(done + r.text, r.status) }

  lemma RunEnd(done: string, m: Machine, args: seq<Arg>)
    ensures Behind(done, Run(m, "", args)) == Outcome(done, Done)
  {
    assert done + "" == done;
  }

  // The run goes on from what a step leaves; the text grows by what the step emits.
  lemma RunStep(done: string, m: Machine, fmt: string, args: seq<Arg>)
    requires fmt != ""
    ensures match Step(m, fmt, args)
            case Stop(status) => Behind(done, Run(m, fmt, args)) == Outcome(done, status)
            case Next(emit, m', fmt', args') =>
              && EmitOk(emit)
              && Behind(done, Run(m, fmt, args)) == Behind(done + EmitText(emit), Run(m', fmt', args'))
              && (EmitText(emit) != "" ==> done < Behind(done, Run(m, fmt, args)).text)
  {
    hide EmitText, Step;
    match Step(m, fmt, args) {
      case Stop(status) =>
        assert done + "" == done;
      case Next(emit, m', fmt', args') =>
        StepGoesOn(m, fmt, args);
        var r := Run(m', fmt', args');
        assert done + (EmitText(emit) + r.text) == (done + EmitText(emit)) + r.text;
    }
  }

  // The signed and unsigned conversions with one or two l.
  predicate IsLong(c: string, v: int) {
    || (c in ["ld", "li", "lld", "lli"] && -(WORD64 / 2) < v < WORD64 / 2)
    || (c in ["lu", "llu"] && 0 <= v < WORD64)
  }

  // Some flag characters, and the machine behind them.
  predicate FlagChars(fl: string) { forall k :: 0 <= k < |fl| ==> fl[k] in "-+ #0'" }

  function Flagged(f: Flags, c: char): Flags {
    match c
    case '-' => f.(minus := true)
    case '+' => f.(plus := true)
    case ' ' => f.(space := true)
    case '#' => f.(num := true)
    case '0' => f.(zero := true)
    case '\'' => f.(quote := true)
    case _ => f
  }

  function WithFlags(m: Machine, fl: string): Machine
    decreases |fl|
  {
    if fl == "" then m else WithFlags(m.(flags := Flagged(m.flags, fl[0])), fl[1..])
  }

  lemma {:induction false} FlagsRun(m: Machine, fl: string, rest: string, args: seq<Arg>)
    requires m.state == SFlags && FlagChars(fl)
    ensures WithFlags(m, fl).state == SFlags && Run(m, fl + rest, args) == Run(WithFlags(m, fl), rest, args)
    ensures WithFlags(m.(state := SDefault), fl) == WithFlags(m, fl).(state := SDefault)
    decreases |fl|
  {
    var fmt := fl + rest;
    if fl == "" {
      assert fmt == rest;
    } else {
      var m' := m.(flags := Flagged(m.flags, fl[0]));
      assert fmt[1..] == fl[1..] + rest;
      FlagStep(m, fmt, args);
      FlagsRun(m', fl[1..], rest, args);
    }
  }

  lemma FlagStep(m: Machine, fmt: string, args: seq<Arg>)
    requires m.state == SFlags && fmt != "" && fmt[0] in "-+ #0'"
    ensures Run(m, fmt, args) == Run(m.(flags := Flagged(m.flags, fmt[0])), fmt[1..], args)
  {
    var m' := m.(flags := Flagged(m.flags, fmt[0]));
    assert Step(m, fmt, args) == Next(Nothing, m', fmt[1..], args);
    StepGoesOn(m, fmt, args);
    hide Step, Flagged;
    NothingBehind(Run(m', fmt[1..], args));
  }

  lemma PercentStep(m: Machine, fmt: string, args: seq<Arg>)
    requires m.state == SDefault && fmt != "" && fmt[0] == '%'
    ensures Run(m, fmt, args) == Run(m.(state := SFlags), fmt[1..], args)
  {
    var m' := m.(state := SFlags);
    assert Step(m, fmt, args) == Next(Nothing, m', fmt[1..], args);
    StepGoesOn(m, fmt, args);
    hide Step;
    NothingBehind(Run(m', fmt[1..], args));
  }

  // The fast conversion prints the value and goes on behind the letters, but for 0 behind the first l.
  lemma LongRun(m: Machine, c: string, v: int, rest: string, args: seq<Arg>)
    requires m.state == SFlags && IsLong(c, v)
    ensures Run(m, c + rest, [Num(v)] + args) ==
            Behind(FastText(v), Run(m.(state := SDefault), if v == 0 then c[1..] + rest else rest, args))
  {
    LongStep(m, c, v, rest, args);
    StepGoesOn(m, c + rest, [Num(v)] + args);
    hide Step, FastText;
  }

  lemma LongStep(m: Machine, c: string, v: int, rest: string, args: seq<Arg>)
    requires m.state == SFlags && IsLong(c, v)
    ensures Step(m, c + rest, [Num(v)] + args) ==
            Next(FastInt(v), m.(state := SDefault), if v == 0 then c[1..] + rest else rest, args)
  {
    var fmt := c + rest;
    assert ([Num(v)] + args)[1..] == args;
    assert fmt[1..] == c[1..] + rest && fmt[|c|..] == rest;
    assert fmt[1..][0] == c[1] && (|c| == 3 ==> fmt[1..][1] == c[2]);
  }

  // Letters stand for themselves.
  lemma {:induction false} LettersRun(m: Machine, letters: string, rest: string, args: seq<Arg>)
    requires m.state == SDefault && forall k :: 0 <= k < |letters| ==> letters[k] != '%'
    ensures Run(m, letters + rest, args) == Behind(letters, Run(m, rest, args))
    decreases |letters|
  {
    var fmt := letters + rest;
    hide Step;
    if letters == "" {
      assert fmt == rest;
      NothingBehind(Run(m, rest, args));
    } else {
      assert fmt[1..] == letters[1..] + rest;
      LettersRun(m, letters[1..], rest, args);
      LetterStep(m, fmt, args);
      BehindTwice([letters[0]], letters[1..], Run(m, rest, args));
      assert letters == [letters[0]] + letters[1..];
    }
  }

  lemma LetterStep(m: Machine, fmt: string, args: seq<Arg>)
    requires m.state == SDefault && fmt != "" && fmt[0] != '%'
    ensures Run(m, fmt, args) == Behind([fmt[0]], Run(m, fmt[1..], args))
  {
  }

  lemma NothingBehind(r: Outcome)
    ensures Outcome("" + r.text, r.status) == r && Behind("", r) == r
  {
    assert "" + r.text == r.text;
  }

  lemma BehindTwice(a: string, b: string, r: Outcome)
    ensures Behind(a, Behind(b, r)) == Behind(a + b, r)
    ensures Behind(a + b, r) == Behind(a, r) <==> b == ""
  {
    assert a + (b + r.text) == (a + b) + r.text;
    assert |(a + b) + r.text| == |a + r.text| + |b|;
    if b == "" { assert a + b == a; }
  }

  // A conversion where the machine is about to read its percent sign, with whatever flags.
  lemma LongHere(m: Machine, fl: string, c: string, v: int, rest: string, args: seq<Arg>)
    requires m.state == SDefault && FlagChars(fl) && IsLong(c, v)
    ensures Run(m, "%" + (fl + (c + rest)), [Num(v)] + args) ==
            Behind(FastText(v) + (if v == 0 then c[1..] else ""), Run(WithFlags(m, fl), rest, args))
  {
    var all, f := [Num(v)] + args, m.(state := SFlags);
    assert ("%" + (fl + (c + rest)))[1..] == fl + (c + rest);
    assert f.(state := SDefault) == m;
    PercentStep(m, "%" + (fl + (c + rest)), all);
    FlagsRun(f, fl, c + rest, all);
    LongRun(WithFlags(f, fl), c, v, rest, args);
    LettersRun(WithFlags(m, fl), c[1..], rest, args);
    hide Run, FastText, Behind, WithFlags;
    BehindTwice(FastText(v), c[1..], Run(WithFlags(m, fl), rest, args));
    assert FastText(v) + "" == FastText(v);
  }

  // ---------- in the middle of a format ----------

  datatype Config = Config(m: Machine, fmt: string, args: seq<Arg>)
  datatype Reached = Reached(text: string, config: Config) | Nowhere

  // What has been written after n steps, and what is left to do.
  function Steps(c: Config, n: nat): Reached
    decreases n
  {
    if n == 0 then Reached("", c)
    else if c.fmt == "" then Nowhere
    else
      match Step(c.m, c.fmt, c.args)
      case Stop(_) => Nowhere
      case Next(emit, m', fmt', args') =>
        StepGoesOn(c.m, c.fmt, c.args);
        match Steps(Config(m', fmt', args'), n - 1)
        case Nowhere => Nowhere
        case Reached(text, c') => Reached(EmitText(emit) + text, c')
  }

  // The rest of a run is the run of the rest.
  lemma {:induction false} StepsRun(c: Config, n: nat)
    requires Steps(c, n).Reached?
    ensures var r := Steps(c, n);
            Run(c.m, c.fmt, c.args) == Behind(r.text, Run(r.config.m, r.config.fmt, r.config.args))
    decreases n
  {
    hide Step, EmitText;
    if n == 0 {
      NothingBehind(Run(c.m, c.fmt, c.args));
    } else {
      var Next(emit, m', fmt', args') := Step(c.m, c.fmt, c.args);
      var next := Config(m', fmt', args');
      StepGoesOn(c.m, c.fmt, c.args);
      StepsRun(next, n - 1);
      var r := Steps(next, n - 1);
      BehindTwice(EmitText(emit), r.text, Run(r.config.m, r.config.fmt, r.config.args));
    }
  }

  /** %ld, %li, %lu, %lld, %lli and %llu, with any flags and wherever they are met in a format, print the text of
      the value and nothing else if and only if the value is not 0; after a 0 the letters behind the first l
      are printed as well. */
  lemma LongZero(format: string, given: seq<Arg>, n: nat, m: Machine, fl: string, c: string, v: int, rest: string, args: seq<Arg>)
    requires FlagChars(fl) && IsLong(c, v) && m.state == SDefault
    requires Steps(Config(START, format, given), n).Reached?
    requires Steps(Config(START, format, given), n).config == Config(m, "%" + (fl + (c + rest)), [Num(v)] + args)
    ensures var before, after := Steps(Config(START, format, given), n).text, Run(WithFlags(m, fl), rest, args);
            && Run(START, format, given) == Behind(before + (FastText(v) + (if v == 0 then c[1..] else "")), after)
            && (Run(START, format, given) == Behind(before + FastText(v), after) <==> v != 0)
  {
    var before, after := Steps(Config(START, format, given), n).text, Run(WithFlags(m, fl), rest, args);
    var text, extra := FastText(v), if v == 0 then c[1..] else "";
    StepsRun(Config(START, format, given), n);
    LongHere(m, fl, c, v, rest, args);
    hide Run, FastText, Behind, Steps, WithFlags;
    BehindTwice(before, text + extra, after);
    BehindTwice(before + text, extra, after);
    assert before + (text + extra) == before + text + extra;
  }

  /** In particular at the start of a format, where n is 0. */
  lemma LongZeroFirst(c: string, v: int, rest: string, args: seq<Arg>)
    requires IsLong(c, v)
    ensures Run(START, "%" + c + rest, [Num(v)] + args) ==
            Behind(FastText(v) + (if v == 0 then c[1..] else ""), Run(START, rest, args))
    ensures Run(START, "%" + c + rest, [Num(v)] + args) == Behind(FastText(v), Run(START, rest, args)) <==> v != 0
  {
    LongHere(START, "", c, v, rest, args);
    assert "%" + ("" + (c + rest)) == "%" + c + rest;
    hide Run, FastText, Behind;
    BehindTwice(FastText(v), if v == 0 then c[1..] else "", Run(START, rest, args));
  }

  // ---------- what fmtint prints ----------

  // A text without its separators.
  function Ungrouped(s: string): string {
    if s == "" then "" else (if s[0] == ',' then "" else [s[0]]) + Ungrouped(s[1..])
  }

  /** Without its separators a grouped text is the digits. */
  lemma {:induction false} GroupedDigits(digits: string, separate: bool)
    requires forall k :: 0 <= k < |digits| ==> digits[k] != ','
    ensures Ungrouped(Grouped(digits, separate)) == digits
  {
    if digits != "" {
      var rest := Grouped(digits[1..], separate);
      GroupedDigits(digits[1..], separate);
      GroupedFirst(digits, separate, rest);
      hide Grouped;
      assert digits == [digits[0]] + digits[1..];
    }
  }

  lemma GroupedFirst(digits: string, separate: bool, rest: string)
    requires digits != "" && digits[0] != ',' && rest == Grouped(digits[1..], separate)
    ensures Ungrouped(Grouped(digits, separate)) == [digits[0]] + Ungrouped(rest)
  {
    var more := |digits| - 1;
    var g := Grouped(digits, separate);
    if separate && more > 0 && more % 3 == 0 {
      assert g == [digits[0]] + ("," + rest);
      assert g[1..] == "," + rest && ("," + rest)[1..] == rest;
    } else {
      assert g == [digits[0]] + rest && g[1..] == rest;
    }
  }

  lemma {:induction false} NoComma(v: nat, radix: nat, caps: bool)
    requires IsRadix(radix)
    ensures forall k :: 0 <= k < |Digits(v, radix, caps)| ==> Digits(v, radix, caps)[k] != ','
    decreases v
  {
    if v >= radix { NoComma(Quot(v, radix), radix, caps); }
  }

  /** So the grouped digits of a number, without their separators, are its digits, in any radix. */
  lemma GroupedNumber(v: nat, radix: nat, caps: bool, separate: bool)
    requires IsRadix(radix)
    ensures Ungrouped(Grouped(Digits(v, radix, caps), separate)) == Digits(v, radix, caps)
    ensures ParseIn(Ungrouped(Grouped(Digits(v, radix, caps), separate)), radix) == v
  {
    NoComma(v, radix, caps);
    GroupedDigits(Digits(v, radix, caps), separate);
    ParseDigits(v, radix, caps);
  }

  /** As many separators are printed as fmtint counts. */
  lemma {:induction false} GroupedLength(digits: string, separate: bool)
    ensures |Grouped(digits, separate)| == |digits| + if separate && digits != "" then (|digits| - 1) / 3 else 0
  {
    if digits != "" { GroupedLength(digits[1..], separate); }
  }

  lemma SeparatorsAre(pos: nat, f: Flags)
    requires pos > 0
    ensures Separators(pos, f) == if f.quote then (pos - 1) / 3 else 0
  {
  }

  // Sign, prefix, zeros, digits and separators.
  function IntBody(u: nat, radix: nat, pos: nat, precision: int, f: Flags, around: nat): nat
    requires pos > 0
  {
    around + Max(pos + Separators(pos, f), Precision(u, radix, pos, precision, f))
  }

  // By how much the separators are counted twice when the precision asks for more than the digits.
  function CountedTwice(u: nat, radix: nat, pos: nat, precision: int, f: Flags): nat
    requires pos > 0
  {
    var extra := Max(0, Precision(u, radix, pos, precision, f) - pos);
    if Separators(pos, f) < extra then Separators(pos, f) else extra
  }

  /** fmtint fills its width up to the separators that a precision larger than the digits counts twice; so it
      fills the width if and only if there are none, or what it prints is wide enough anyway. */
  lemma IntTextLength(value: int, radix: nat, width: int, precision: int, f: Flags)
    requires IsRadix(radix)
    ensures var u := Magnitude(value, f);
            var pos := |Digits(u, radix, f.up)|;
            var around := |SignText(value, f)| + |PrefixText(u, radix, f)|;
            var body, twice := IntBody(u, radix, pos, precision, f, around), CountedTwice(u, radix, pos, precision, f);
            && |IntText(value, radix, width, precision, f)| == Max(body, width - twice)
            && (|IntText(value, radix, width, precision, f)| >= width <==> twice == 0 || body >= width)
  {
    var u := Magnitude(value, f);
    var digits := Digits(u, radix, f.up);
    var pos, around := |digits|, |SignText(value, f)| + |PrefixText(u, radix, f)|;
    GroupedLength(digits, Separators(pos, f) > 0);
    SeparatorsAre(pos, f);
    PadsFill(u, radix, pos, width, precision, f, around);
    hide *;
    IntTextParts(value, radix, width, precision, f);
  }

  lemma IntTextParts(value: int, radix: nat, width: int, precision: int, f: Flags)
    requires IsRadix(radix)
    ensures var u := Magnitude(value, f);
            var digits, around := Digits(u, radix, f.up), |SignText(value, f)| + |PrefixText(u, radix, f)|;
            var pads := Pads(u, radix, |digits|, width, precision, f, around);
            |IntText(value, radix, width, precision, f)| ==
              pads.spaces + around + pads.zeros + |Grouped(digits, Separators(|digits|, f) > 0)|
  {
    var u := Magnitude(value, f);
    var digits := Digits(u, radix, f.up);
    var pads := Pads(u, radix, |digits|, width, precision, f, |SignText(value, f)| + |PrefixText(u, radix, f)|);
    SpacesAre(pads.spaces);
    ZerosAre(pads.zeros);
    hide *;
    IntTextIs(value, radix, width, precision, f);
    PartsLength(if f.minus then "" else Spaces(pads.spaces), SignText(value, f), PrefixText(u, radix, f),
                Zeros(pads.zeros), Grouped(digits, Separators(|digits|, f) > 0), if f.minus then Spaces(pads.spaces) else "");
  }

  lemma PartsLength(a: string, b: string, c: string, d: string, e: string, f: string)
    ensures |a + b + c + d + e + f| == |a| + |b| + |c| + |d| + |e| + |f|
  {
  }

  lemma PadsFill(u: nat, radix: nat, pos: nat, width: int, precision: int, f: Flags, around: nat)
    requires pos > 0
    ensures var pads := Pads(u, radix, pos, width, precision, f, around);
            var body, twice := IntBody(u, radix, pos, precision, f, around), CountedTwice(u, radix, pos, precision, f);
            && pads.spaces + pads.zeros + around + pos + Separators(pos, f) == Max(body, width - twice)
            && (Max(body, width - twice) >= width <==> twice == 0 || body >= width)
  {
    hide Precision, Separators;
  }
}
