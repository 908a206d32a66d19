/**
 Integer text in mysnprintf: the digit loop of convert, the three-digit table of the fast path, and what
 fmtint prints.
 */
module PrintfInt {

  const WORD64: nat := 0x1_0000_0000_0000_0000
  const MAX_CONVERT_LENGTH: nat := 43
  const SCRATCH: nat := 32

  // ---------- digits ----------

  function DigitChar(d: nat, caps: bool): (c: char)
    requires d < 16
  {
    if d < 10 then ('0' as int + d) as char else ((if caps then 'A' else 'a') as int + (d - 10)) as char
  }

  // The radix is one of the three that conversions use.
  predicate IsRadix(radix: nat) { radix == 8 || radix == 10 || radix == 16 }

  function Quot(v: nat, radix: nat): (q: nat)
    requires IsRadix(radix)
    ensures q <= v / 8 && (q == 0 <==> v < radix)
  {
    if radix == 8 then v / 8 else if radix == 10 then v / 10 else v / 16
  }

  function Rem(v: nat, radix: nat): (m: nat)
    requires IsRadix(radix)
    ensures m < radix && (v < radix ==> m == v)
  {
    if radix == 8 then v % 8 else if radix == 10 then v % 10 else v % 16
  }

  function Digits(v: nat, radix: nat, caps: bool): (s: string)
    requires IsRadix(radix)
    ensures s != ""
    decreases v
  {
    if v < radix then [DigitChar(v, caps)] else Digits(Quot(v, radix), radix, caps) + [DigitChar(Rem(v, radix), caps)]
  }

  function Decimal(v: nat): string { Digits(v, 10, false) }

  function Reversed(s: string): (r: string)
    ensures |r| == |s| && forall k :: 0 <= k < |s| ==> r[k] == s[|s| - 1 - k]
  {
    if s == "" then "" else Reversed(s[1..]) + [s[0]]
  }

  function Pow(b: nat, e: nat): nat { if e == 0 then 1 else b * Pow(b, e - 1) }

  /** convert: the digits of a value, last one first. */
  method Convert(value: nat, radix: nat, caps: bool) returns (buf: array<char>, pos: nat)
    requires value < WORD64 && IsRadix(radix)
    ensures fresh(buf) && 0 < pos <= 22 < buf.Length
    ensures buf[..pos] == Reversed(Digits(value, radix, caps))
  {
    hide Quot, Rem, DigitChar, Reversed;
    buf := new char[MAX_CONVERT_LENGTH];
    pos := 0;
    var v: nat := value;
    PowBound();
    ghost var left: nat := 22;
    ghost var done: string := "";
    assert Digits(v, radix, caps) + done == Digits(value, radix, caps);
    while true
      invariant left + pos == 22 && v < Pow(8, left) && |done| == pos && (pos > 0 ==> v > 0)
      invariant Digits(value, radix, caps) == Digits(v, radix, caps) + done
      invariant forall k :: 0 <= k < pos ==> buf[k] == done[pos - 1 - k]
      decreases v
    {
      assert left > 0;
      buf[pos] := DigitChar(Rem(v, radix), caps);
      pos := pos + 1;
      ghost var before := done;
      done := [DigitChar(Rem(v, radix), caps)] + done;
      if Quot(v, radix) == 0 {
        assert Digits(v, radix, caps) + before == done;
        break;
      }
      assert Digits(v, radix, caps) + before == Digits(Quot(v, radix), radix, caps) + done;
      v := Quot(v, radix);
      left := left - 1;
    }
    assert done == Digits(value, radix, caps);
    assert forall k :: 0 <= k < pos ==> buf[..pos][k] == Reversed(done)[k];
  }

  lemma PowBound()
    ensures Pow(8, 22) > WORD64
  {
    assert Pow(8, 4) == 4096;
    assert Pow(8, 8) == 16777216;
  }

  // ---------- the text parses back ----------

  function DigitValue(c: char): nat { if '0' <= c <= '9' then c as int - '0' as int else 0 }

  function Parse(s: string): nat { if s == "" then 0 else 10 * Parse(s[..|s| - 1]) + DigitValue(s[|s| - 1]) }

  function HexValue(c: char): nat {
    if '0' <= c <= '9' then c as int - '0' as int
    else if 'a' <= c <= 'f' then c as int - 'a' as int + 10
    else if 'A' <= c <= 'F' then c as int - 'A' as int + 10
    else 0
  }

  function Times(n: nat, radix: nat): nat
    requires IsRadix(radix)
  {
    if radix == 8 then 8 * n else if radix == 10 then 10 * n else 16 * n
  }

  function ParseIn(s: string, radix: nat): nat
    requires IsRadix(radix)
  {
    if s == "" then 0 else Times(ParseIn(s[..|s| - 1], radix), radix) + HexValue(s[|s| - 1])
  }

  lemma QuotRem(v: nat, radix: nat)
    requires IsRadix(radix)
    ensures v == Times(Quot(v, radix), radix) + Rem(v, radix)
    ensures v < radix ==> Quot(v, radix) == 0 && Times(0, radix) == 0
  {
  }

  lemma HexDigit(d: nat, caps: bool)
    requires d < 16
    ensures HexValue(DigitChar(d, caps)) == d && (DigitChar(d, caps) == '0' <==> d == 0)
  {
  }

  lemma ParseSnoc(s: string, c: char, radix: nat)
    requires IsRadix(radix)
    ensures ParseIn(s + [c], radix) == Times(ParseIn(s, radix), radix) + HexValue(c) && ParseIn("", radix) == 0
  {
    assert (s + [c])[..|s|] == s;
  }

  /** The digits of a value in any of the three radices, large or small, parse back to it, with no leading zero. */
  lemma {:induction false} ParseDigits(v: nat, radix: nat, caps: bool)
    requires IsRadix(radix)
    ensures ParseIn(Digits(v, radix, caps), radix) == v && (v > 0 ==> Digits(v, radix, caps)[0] != '0')
    decreases v
  {
    QuotRem(v, radix);
    HexDigit(Rem(v, radix), caps);
    hide Quot, Rem, Times, HexValue, DigitChar, ParseIn;
    var c := DigitChar(Rem(v, radix), caps);
    if v >= radix {
      ParseDigits(Quot(v, radix), radix, caps);
      ParseSnoc(Digits(Quot(v, radix), radix, caps), c, radix);
    } else {
      ParseSnoc("", c, radix);
      assert "" + [c] == [c];
    }
  }

  predicate AllDigits(s: string) { forall k :: 0 <= k < |s| ==> '0' <= s[k] <= '9' }

  /** A decimal text parses back to its value, and has no leading zero. */
  lemma {:induction false} ParseDecimal(v: nat)
    ensures Parse(Decimal(v)) == v && AllDigits(Decimal(v)) && (v > 0 ==> Decimal(v)[0] != '0')
  {
    if v >= 10 {
      ParseDecimal(v / 10);
      assert Decimal(v)[..|Decimal(v)| - 1] == Decimal(v / 10);
    } else {
      assert Decimal(v) == [DigitChar(v, false)] && Decimal(v)[..0] == "";
    }
  }

  // ---------- the table ----------

  // Entry j of atoi_tab: the three digits of j.
  function Three(j: nat): string
    requires j < 1000
  {
    [DigitChar(j / 100, false), DigitChar(j / 10 % 10, false), DigitChar(j % 10, false)]
  }

  // The groups of three the fast path writes.
  function Groups(v: nat): string { if v < 1000 then Three(v) else Groups(v / 1000) + Three(v % 1000) }

  function Zeros(n: nat): string { seq(n, k => '0') }

  lemma ThreeMore(v: nat)
    requires v >= 1000
    ensures Decimal(v) == Decimal(v / 1000) + Three(v % 1000)
  {
    assert v / 10 / 10 / 10 == v / 1000;
    assert v / 10 / 10 % 10 == v % 1000 / 100 && v / 10 % 10 == v % 1000 / 10 % 10 && v % 10 == v % 1000 % 10;
    assert Decimal(v) == Decimal(v / 10) + [DigitChar(v % 10, false)];
    assert Decimal(v / 10) == Decimal(v / 10 / 10) + [DigitChar(v / 10 % 10, false)];
    assert Decimal(v / 10 / 10) == Decimal(v / 1000) + [DigitChar(v / 10 / 10 % 10, false)];
  }

  lemma {:induction false} GroupsDecimal(v: nat) returns (n: nat)
    ensures n <= 2 && Groups(v) == Zeros(n) + Decimal(v)
  {
    if v < 10 {
      n := 2;
      assert Decimal(v) == [DigitChar(v, false)];
    } else if v < 100 {
      n := 1;
      assert Decimal(v) == Decimal(v / 10) + [DigitChar(v % 10, false)];
    } else if v < 1000 {
      n := 0;
      assert Decimal(v / 10) == Decimal(v / 10 / 10) + [DigitChar(v / 10 % 10, false)];
      assert Decimal(v) == Decimal(v / 10) + [DigitChar(v % 10, false)] == Three(v);
    } else {
      n := GroupsDecimal(v / 1000);
      ThreeMore(v);
      assert Groups(v) == Zeros(n) + Decimal(v / 1000) + Three(v % 1000) == Zeros(n) + Decimal(v);
    }
  }

  lemma Thousands()
    ensures Pow(1000, 7) > WORD64
  {
    assert Pow(1000, 3) == 1000000000;
  }

  /** The table-driven digit loop: groups of three from the end of a scratch buffer. */
  method TableGroups(value: nat, scratch: array<char>) returns (p: nat)
    requires 0 < value < WORD64 && scratch.Length == SCRATCH
    modifies scratch
    ensures p + 3 <= SCRATCH && scratch[p..] == Groups(value)
  {
    p := SCRATCH;
    var v1: nat := value;
    ghost var left: nat := 7;
    Thousands();
    ghost var done: string := "";
    assert Groups(v1) + done == Groups(value);
    while v1 > 0
      invariant p <= SCRATCH && v1 < Pow(1000, left) && p == SCRATCH - 3 * (7 - left) && left <= 7
      invariant scratch[p..] == done && (v1 == 0 ==> done != "")
      invariant if v1 > 0 then Groups(v1) + done == Groups(value) else done == Groups(value)
      decreases v1
    {
      var v2 := v1 / 1000;
      assert left > 0;
      var entry := Three(v1 - 1000 * v2);
      scratch[p - 1] := entry[2];
      scratch[p - 2] := entry[1];
      scratch[p - 3] := entry[0];
      p := p - 3;
      left := left - 1;
      assert scratch[p..] == entry + done;
      assert v2 > 0 ==> Groups(v1) + done == Groups(v2) + (entry + done);
      done := entry + done;
      v1 := v2;
    }
  }

  /** The digits of a positive value at the end of the scratch buffer, without leading zeros. */
  method TableDigits(value: nat) returns (scratch: array<char>, s: nat)
    requires 0 < value < WORD64
    ensures fresh(scratch) && scratch.Length == SCRATCH && s < SCRATCH
    ensures scratch[s..] == Decimal(value)
  {
    hide Decimal, Groups, Parse;
    scratch := new char[SCRATCH];
    var p := TableGroups(value, scratch);
    var zeros := GroupsDecimal(value);
    ParseDecimal(value);
    ghost var text := scratch[p..];
    assert text == Zeros(zeros) + Decimal(value);
    s := p;
    while scratch[s] == '0'
      invariant p <= s <= p + zeros && text == scratch[p..]
      decreases p + zeros - s
    {
      assert scratch[s] == text[s - p];
      s := s + 1;
    }
    assert text[s - p] == scratch[s];
    assert s == p + zeros;
    assert scratch[s..] == text[zeros..] == Decimal(value);
  }
}
