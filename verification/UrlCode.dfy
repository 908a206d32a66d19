/**
 CURLCode: percent encoding and decoding of byte strings.

 isalnum and isspace are those of the "C" locale; the safe set is then the unreserved set of section 2.3
 of RFC 2396, and an escape is as in its section 2.4.1.  A char is one byte, and its arithmetic is modulo
 256.
 */
module UrlCode {

  newtype byte = x: int | 0 <= x < 256

  datatype Result<+T> = Ok(value: T) | Err(error: Error)

  datatype Error = OutOfRange     // std::string::at throws
                 | NotHex         // the assertion of fromHex

  // ---------- single bytes ----------

  predicate IsDigit(x: byte) { 0x30 <= x <= 0x39 }
  predicate IsUpper(x: byte) { 0x41 <= x <= 0x5A }
  predicate IsLower(x: byte) { 0x61 <= x <= 0x7A }
  predicate IsSpace(x: byte) { x == 0x20 || 0x09 <= x <= 0x0D }

  // The mark characters of section 2.3: - _ . ! ~ * ' ( )
  predicate IsMark(x: byte) {
    x in {0x2D, 0x5F, 0x2E, 0x21, 0x7E, 0x2A, 0x27, 0x28, 0x29}
  }

  predicate Unreserved(x: byte) { IsDigit(x) || IsUpper(x) || IsLower(x) || IsMark(x) }

  function ToHex(x: byte): (h: byte)
    requires x < 16
    ensures IsDigit(h) || 0x41 <= h <= 0x46
    ensures FromHex(h) == Ok(x)
  {
    if x > 9 then x + 55 else x + 48
  }

  function FromHex(x: byte): Result<byte> {
    if IsUpper(x) then Ok(x - 0x41 + 10)
    else if IsLower(x) then Ok(x - 0x61 + 10)
    else if IsDigit(x) then Ok(x - 0x30)
    else Err(NotHex)
  }

  // The char computed from two hex digits: c << 4, then += on a char.
  function Join(hi: byte, lo: byte): byte { ((hi as int * 16 + lo as int) % 256) as byte }

  // ---------- encoding ----------

  function Escape(x: byte): seq<byte> {
    if Unreserved(x) then [x] else if IsSpace(x) then [0x2B] else [0x25, ToHex(x / 16), ToHex(x % 16)]
  }

  function Encoded(s: seq<byte>): seq<byte> {
    if s == [] then [] else Escape(s[0]) + Encoded(s[1..])
  }

  // The text of a NUL-terminated string.
  function Text(data: seq<byte>): (s: seq<byte>)
    ensures 0 !in s && |s| <= |data|
    ensures 0 in data ==> |s| < |data| && s == data[..|s|] && data[|s|] == 0
  {
    if data == [] || data[0] == 0 then [] else [data[0]] + Text(data[1..])
  }

  lemma EscapeIs(x: byte)
    ensures Unreserved(x) ==> Escape(x) == [x]
    ensures !Unreserved(x) && IsSpace(x) ==> Escape(x) == [0x2B]
    ensures !Unreserved(x) && !IsSpace(x) ==> Escape(x) == [0x25, ToHex(x / 16), ToHex(x % 16)]
  {
  }

  method Encode(lpszData: seq<byte>) returns (strResult: seq<byte>)
    requires 0 in lpszData
    ensures strResult == Encoded(Text(lpszData))
  {
    hide Escape, Unreserved, IsSpace, ToHex;
    strResult := [];
    var p := 0;
    ghost var text := Text(lpszData);
    while lpszData[p] != 0
      invariant 0 <= p <= |text|
      invariant strResult + Encoded(text[p..]) == Encoded(text)
      decreases |text| - p
    {
      var c := lpszData[p];
      assert c == text[p] && text[p..][1..] == text[p + 1..];
      ghost var before := strResult;
      EscapeIs(c);
      if Unreserved(c) {
        strResult := strResult + [c];
      } else if IsSpace(c) {
        strResult := strResult + [0x2B];
      } else {
        strResult := strResult + [0x25];
        strResult := strResult + [ToHex(c / 16)];
        strResult := strResult + [ToHex(c % 16)];
      }
      assert strResult == before + Escape(c);
      assert before + (Escape(c) + Encoded(text[p + 1..])) == strResult + Encoded(text[p + 1..]);
      p := p + 1;
    }
    assert p == |text| && text[p..] == [];
  }

  // ---------- decoding ----------

  function Decoded(s: seq<byte>): Result<seq<byte>> {
    if s == [] then Ok([])
    else if s[0] == 0x25 then
      if |s| < 2 then Err(OutOfRange)
      else if FromHex(s[1]).Err? then Err(NotHex)
      else if |s| < 3 then Err(OutOfRange)
      else if FromHex(s[2]).Err? then Err(NotHex)
      else Prefix(Join(FromHex(s[1]).value, FromHex(s[2]).value), Decoded(s[3..]))
    else Prefix(if s[0] == 0x2B then 0x20 else s[0], Decoded(s[1..]))
  }

  function Prefix(x: byte, r: Result<seq<byte>>): Result<seq<byte>> {
    if r.Ok? then Ok([x] + r.value) else r
  }

  // What has been decoded so far, in front of the rest.
  function After(done: seq<byte>, r: Result<seq<byte>>): Result<seq<byte>> {
    if r.Ok? then Ok(done + r.value) else r
  }

  lemma AfterPrefix(done: seq<byte>, x: byte, r: Result<seq<byte>>)
    ensures After(done, Prefix(x, r)) == After(done + [x], r)
  {
    if r.Ok? { assert done + ([x] + r.value) == done + [x] + r.value; }
  }

  lemma AfterNothing(r: Result<seq<byte>>)
    ensures After([], r) == r
  {
    if r.Ok? { assert [] + r.value == r.value; }
  }

  method Decode(inTmp: seq<byte>) returns (r: Result<seq<byte>>)
    ensures r == Decoded(inTmp)
  {
    var strResult: seq<byte> := [];
    var i := 0;
    assert inTmp[0..] == inTmp;
    AfterNothing(Decoded(inTmp));
    while i < |inTmp|
      invariant 0 <= i <= |inTmp|
      invariant After(strResult, Decoded(inTmp[i..])) == Decoded(inTmp)
    {
      ghost var rest := inTmp[i..];
      if inTmp[i] == 0x25 {
        i := i + 1;
        if i >= |inTmp| { return Err(OutOfRange); }
        var hi := FromHex(inTmp[i]);
        if hi.Err? { return Err(NotHex); }
        i := i + 1;
        if i >= |inTmp| { return Err(OutOfRange); }
        var lo := FromHex(inTmp[i]);
        if lo.Err? { return Err(NotHex); }
        assert rest[3..] == inTmp[i + 1..];
        AfterPrefix(strResult, Join(hi.value, lo.value), Decoded(inTmp[i + 1..]));
        strResult := strResult + [Join(hi.value, lo.value)];
      } else {
        assert rest[1..] == inTmp[i + 1..];
        var c := if inTmp[i] == 0x2B then 0x20 else inTmp[i];
        AfterPrefix(strResult, c, Decoded(inTmp[i + 1..]));
        strResult := strResult + [c];
      }
      i := i + 1;
    }
    assert inTmp[i..] == [];
    assert strResult + [] == strResult;
    r := Ok(strResult);
  }

  // ---------- the round trip ----------

  function Spaced(x: byte): byte { if IsSpace(x) then 0x20 else x }

  function AllSpaced(s: seq<byte>): seq<byte> { seq(|s|, k requires 0 <= k < |s| => Spaced(s[k])) }

  /** Decoding what was encoded restores every byte, whitespace as a space. */
  lemma {:induction false} RoundTrip(s: seq<byte>)
    requires 0 !in s
    ensures Decoded(Encoded(s)) == Ok(AllSpaced(s))
  {
    if s == [] {
      assert AllSpaced(s) == [];
    } else {
      RoundTrip(s[1..]);
      var c, rest := s[0], Encoded(s[1..]);
      OneBack(c, rest);
      assert AllSpaced(s) == [Spaced(c)] + AllSpaced(s[1..]);
    }
  }

  lemma OneBack(c: byte, rest: seq<byte>)
    requires c != 0
    ensures Decoded(Escape(c) + rest) == Prefix(Spaced(c), Decoded(rest))
  {
    var e := Escape(c) + rest;
    if Unreserved(c) || IsSpace(c) {
      assert e[1..] == rest;
    } else {
      assert e[1] == ToHex(c / 16) && e[2] == ToHex(c % 16) && e[3..] == rest;
      assert Join(c / 16, c % 16) == c;
    }
  }

  /** It is the identity exactly on the strings whose only whitespace is the space. */
  lemma RoundTripIdentity(s: seq<byte>)
    requires 0 !in s
    ensures Decoded(Encoded(s)) == Ok(s) <==> forall k :: 0 <= k < |s| ==> IsSpace(s[k]) ==> s[k] == 0x20
  {
    RoundTrip(s);
    if AllSpaced(s) == s {
      forall k | 0 <= k < |s| ensures IsSpace(s[k]) ==> s[k] == 0x20 { assert AllSpaced(s)[k] == s[k]; }
    }
  }

  /** An encoded text consists of unreserved characters, '+', and '%' before two upper-case hex digits. */
  lemma {:induction false} EncodedClean(s: seq<byte>, k: nat)
    requires k < |Encoded(s)|
    ensures var e := Encoded(s);
            || Unreserved(e[k]) || e[k] == 0x2B
            || (e[k] == 0x25 && k + 2 < |e| && forall j :: k < j <= k + 2 ==> IsDigit(e[j]) || 0x41 <= e[j] <= 0x46)
  {
    var n := |Escape(s[0])|;
    if k >= n { EncodedClean(s[1..], k - n); }
  }
}
