/** The JavaScript string operations the core relies on: `split` on one
    separator character, `trim`, substring search (`includes`) and
    `parseInt(s, 10)`. */
module Text {
  import opened Common

  /** Position of the first occurrence of `c` in `s`. */
  function IndexOf(s: string, c: char): (i: nat)
    requires c in s
    ensures i < |s| && s[i] == c && c !in s[..i]
  {
    if s[0] == c then 0
    else
      assert s == [s[0]] + s[1..];
      1 + IndexOf(s[1..], c)
  }

  /** Concatenation of pieces with `sep` between consecutive pieces
      (JavaScript's `pieces.join(sep)`). */
  function Join(pieces: seq<string>, sep: string): string
  {
    if |pieces| == 0 then ""
    else if |pieces| == 1 then pieces[0]
    else pieces[0] + sep + Join(pieces[1..], sep)
  }

  /** JavaScript's `s.split(sep)` for a one-character separator: the
      maximal separator-free pieces, in order; joining them back with the
      separator gives `s` again. */
  function Split(s: string, sep: char): (r: seq<string>)
    ensures |r| >= 1
    ensures forall i :: 0 <= i < |r| ==> sep !in r[i]
    ensures Join(r, [sep]) == s
    decreases |s|
  {
    if sep !in s then [s]
    else
      var i := IndexOf(s, sep);
      var rest := Split(s[i + 1..], sep);
      assert s == s[..i] + [sep] + s[i + 1..];
      [s[..i]] + rest
  }

  /** Splitting a separator-free head, the separator, and a tail puts the
      head first and the tail's pieces after it. */
  lemma SplitCons(head: string, sep: char, tail: string)
    requires sep !in head
    ensures Split(head + [sep] + tail, sep) == [head] + Split(tail, sep)
  {
    var s := head + [sep] + tail;
    assert s[|head|] == sep;
    assert forall k :: 0 <= k < |head| ==> s[k] == head[k];
    var i := IndexOf(s, sep);
    assert i == |head|;
    assert s[..i] == head;
    assert s[i + 1..] == tail;
  }

  /** There is a second piece exactly when the separator occurs. */
  lemma SplitHasSecondPiece(s: string, sep: char)
    ensures |Split(s, sep)| >= 2 <==> sep in s
  {
    if sep in s {
      var i := IndexOf(s, sep);
      assert |Split(s[i + 1..], sep)| >= 1;
    }
  }

  /** A string without the separator splits into itself alone. */
  lemma SplitNoSeparator(s: string, sep: char)
    requires sep !in s
    ensures Split(s, sep) == [s]
  {
  }

  /** `s` occurs in `text` at some position (JavaScript's `text.includes(s)`). */
  predicate Contains(text: string, s: string)
    decreases |text|
  {
    |s| <= |text| && (text[..|s|] == s || Contains(text[1..], s))
  }

  /** White space and line terminators as `String.prototype.trim` and
      `parseInt` skip them. */
  const JsSpaces: set<char> :=
    {' ', '\t', '\n', '\r', '\U{000B}', '\U{000C}', '\U{00A0}', '\U{1680}',
     '\U{2000}', '\U{2001}', '\U{2002}', '\U{2003}', '\U{2004}', '\U{2005}',
     '\U{2006}', '\U{2007}', '\U{2008}', '\U{2009}', '\U{200A}', '\U{2028}',
     '\U{2029}', '\U{202F}', '\U{205F}', '\U{3000}', '\U{FEFF}'}

  predicate IsJsSpace(c: char)
  {
    c in JsSpaces
  }

  function TrimStart(s: string): (r: string)
    ensures |r| <= |s|
    ensures forall i :: 0 <= i < |s| - |r| ==> IsJsSpace(s[i])
    ensures r != [] ==> !IsJsSpace(r[0])
  {
    if s != [] && IsJsSpace(s[0]) then TrimStart(s[1..]) else s
  }

  function TrimEnd(s: string): (r: string)
    ensures |r| <= |s| && r == s[..|r|]
    ensures forall i :: |r| <= i < |s| ==> IsJsSpace(s[i])
    ensures r != [] ==> !IsJsSpace(r[|r| - 1])
  {
    if s != [] && IsJsSpace(s[|s| - 1]) then TrimEnd(s[..|s| - 1]) else s
  }

  /** `s.trim()`: `s` without its leading and trailing white space; the
      result is empty exactly when `s` is all white space, and otherwise
      neither starts nor ends with white space. */
  function Trim(s: string): (r: string)
    ensures |r| <= |s|
    ensures r == [] <==> forall k :: 0 <= k < |s| ==> IsJsSpace(s[k])
    ensures r != [] ==> !IsJsSpace(r[0]) && !IsJsSpace(r[|r| - 1])
  {
    var a := TrimStart(s);
    var r := TrimEnd(a);
    TrimStartIsSuffix(s);
    assert a != [] ==> !IsJsSpace(s[|s| - |a|]);
    r
  }

  /** What `TrimStart` keeps is a suffix of its input. */
  lemma {:induction false} TrimStartIsSuffix(s: string)
    ensures TrimStart(s) == s[|s| - |TrimStart(s)|..]
  {
    if s != [] && IsJsSpace(s[0]) {
      TrimStartIsSuffix(s[1..]);
      assert s[1..][|s| - 1 - |TrimStart(s[1..])|..] == s[|s| - |TrimStart(s)|..];
    }
  }

  /** Trimming twice is trimming once. */
  lemma TrimIdempotent(s: string)
    ensures Trim(Trim(s)) == Trim(s)
  {
    var r := Trim(s);
    if r != [] {
      assert TrimStart(r) == r;
      assert TrimEnd(r) == r;
    }
  }

  /** The longest prefix of `s` made of decimal digits. */
  function DigitPrefix(s: string): (r: string)
    ensures |r| <= |s| && r == s[..|r|]
    ensures forall i :: 0 <= i < |r| ==> IsDigit(r[i])
    ensures |r| < |s| ==> !IsDigit(s[|r|])
  {
    if s != [] && IsDigit(s[0]) then
      var rest := DigitPrefix(s[1..]);
      assert [s[0]] + rest == s[..1 + |rest|];
      [s[0]] + rest
    else []
  }

  /** JavaScript's `parseInt(s, 10)`: leading white space is skipped, an
      optional sign is read, then the longest run of digits; `None` stands
      for NaN (no digit at all). */
  function ParseIntJs(s: string): Option<int>
  {
    var t := TrimStart(s);
    if t != [] && t[0] == '-' then
      match LeadingDigits(t[1..])
      case None => None
      case Some(v) => Some(-(v as int))
    else if t != [] && t[0] == '+' then Widen(LeadingDigits(t[1..]))
    else Widen(LeadingDigits(t))
  }

  /** The value of the digits `s` starts with, if any. */
  function LeadingDigits(s: string): (r: Option<nat>)
    ensures r.None? <==> DigitPrefix(s) == []
  {
    var digits := DigitPrefix(s);
    if digits == [] then None else Some(DigitsValue(digits))
  }

  function Widen(v: Option<nat>): Option<int>
  {
    match v
    case None => None
    case Some(n) => Some(n)
  }

  lemma DigitPrefixOfDigits(s: string)
    requires forall i :: 0 <= i < |s| ==> IsDigit(s[i])
    ensures DigitPrefix(s) == s
  {
    if s != [] {
      DigitPrefixOfDigits(s[1..]);
    }
  }

  /** A digit is not white space. */
  lemma DigitIsNotSpace(c: char)
    requires IsDigit(c)
    ensures !IsJsSpace(c)
  {
  }

  /** `parseInt` of a run of digits. */
  lemma ParseDigits(d: string)
    requires d != [] && forall i :: 0 <= i < |d| ==> IsDigit(d[i])
    ensures ParseIntJs(d) == Some(DigitsValue(d))
  {
    DigitIsNotSpace(d[0]);
    DigitPrefixOfDigits(d);
    assert TrimStart(d) == d;
    assert LeadingDigits(d) == Some(DigitsValue(d));
  }

  /** `parseInt` of a minus sign followed by a run of digits. */
  lemma ParseNegativeDigits(s: string, d: string)
    requires d != [] && forall i :: 0 <= i < |d| ==> IsDigit(d[i])
    requires s != [] && s[0] == '-' && s[1..] == d
    ensures ParseIntJs(s) == Some(-(DigitsValue(d) as int))
  {
    assert !IsJsSpace('-');
    assert TrimStart(s) == s;
    DigitPrefixOfDigits(d);
    assert LeadingDigits(d) == Some(DigitsValue(d));
  }

  lemma NegativeShape(i: int)
    requires i < 0
    ensures IntToString(i) != [] && IntToString(i)[0] == '-' && IntToString(i)[1..] == NatToString(-i)
  {
    assert IntToString(i) == "-" + NatToString(-i);
  }

  /** `parseInt` reads back what `String(i)` writes. */
  lemma ParseIntJsRoundTrip(i: int)
    ensures ParseIntJs(IntToString(i)) == Some(i)
  {
    if i < 0 {
      NegativeShape(i);
      NegativeRoundTrip(i, IntToString(i));
    } else {
      NatToStringRoundTrip(i);
      ParseDigits(NatToString(i));
    }
  }

  lemma NegativeRoundTrip(i: int, s: string)
    requires i < 0 && s != [] && s[0] == '-' && s[1..] == NatToString(-i)
    ensures ParseIntJs(s) == Some(i)
  {
    NatToStringRoundTrip(-i);
    ParseNegativeDigits(s, NatToString(-i));
  }

  predicate IsHexDigit(c: char)
  {
    IsDigit(c) || 'a' <= c <= 'f' || 'A' <= c <= 'F'
  }

  function HexDigitValue(c: char): (v: nat)
    requires IsHexDigit(c)
    ensures v < 16
  {
    if IsDigit(c) then (c as int) - ('0' as int)
    else if 'a' <= c <= 'f' then (c as int) - ('a' as int) + 10
    else (c as int) - ('A' as int) + 10
  }

  /** The longest prefix of `s` made of hexadecimal digits. */
  function HexPrefix(s: string): (r: string)
    ensures |r| <= |s| && r == s[..|r|]
    ensures forall i :: 0 <= i < |r| ==> IsHexDigit(r[i])
    ensures |r| < |s| ==> !IsHexDigit(s[|r|])
  {
    if s != [] && IsHexDigit(s[0]) then
      var rest := HexPrefix(s[1..]);
      assert [s[0]] + rest == s[..1 + |rest|];
      [s[0]] + rest
    else []
  }

  function HexValue(s: string): nat
    requires forall i :: 0 <= i < |s| ==> IsHexDigit(s[i])
  {
    if s == [] then 0 else HexValue(s[..|s| - 1]) * 16 + HexDigitValue(s[|s| - 1])
  }

  /** `0x` or `0X`. */
  predicate HexMarked(u: string)
  {
    |u| >= 2 && u[0] == '0' && (u[1] == 'x' || u[1] == 'X')
  }

  /** The unsigned value `parseInt` without a radix reads: hexadecimal
      after `0x` or `0X`, decimal otherwise. */
  function LeadingAuto(u: string): (r: Option<nat>)
    ensures !HexMarked(u) ==> r == LeadingDigits(u)
  {
    if HexMarked(u) then
      var h := HexPrefix(u[2..]);
      if h == [] then None else Some(HexValue(h))
    else LeadingDigits(u)
  }

  /** JavaScript's `parseInt(s)` with no radix: as `parseInt(s, 10)`,
      except that `0x` or `0X` after the sign switches to base 16. */
  function ParseIntAuto(s: string): Option<int>
  {
    var t := TrimStart(s);
    if t != [] && t[0] == '-' then
      match LeadingAuto(t[1..])
      case None => None
      case Some(v) => Some(-(v as int))
    else if t != [] && t[0] == '+' then Widen(LeadingAuto(t[1..]))
    else Widen(LeadingAuto(t))
  }

  /** Without a `0x` mark the two readings agree. */
  lemma ParseIntAutoIsDecimal(s: string)
    requires var t := TrimStart(s);
      !HexMarked(t) && (t != [] && (t[0] == '-' || t[0] == '+') ==> !HexMarked(t[1..]))
    ensures ParseIntAuto(s) == ParseIntJs(s)
  {
  }

  /** What `String(i)` writes reads back the same without a radix. */
  lemma ParseIntAutoRoundTrip(i: int)
    ensures ParseIntAuto(IntToString(i)) == Some(i)
  {
    var s := IntToString(i);
    NatIsNotHex(if i < 0 then -i else i);
    if i < 0 {
      NegativeShape(i);
      assert !IsJsSpace(s[0]);
    } else {
      DigitIsNotSpace(s[0]);
    }
    assert TrimStart(s) == s;
    ParseIntAutoIsDecimal(s);
    ParseIntJsRoundTrip(i);
  }

  lemma NatIsNotHex(n: nat)
    ensures !HexMarked(NatToString(n))
  {
    var d := NatToString(n);
    if |d| >= 2 {
      assert IsDigit(d[1]);
    }
  }

  /** With one, they differ: `"0x1A"` is 26 for one and 0 for the other. */
  lemma HexQueryValue()
    ensures ParseIntAuto("0x1A") == Some(26)
    ensures ParseIntJs("0x1A") == Some(0)
  {
    var s := "0x1A";
    assert !IsJsSpace(s[0]);
    assert TrimStart(s) == s;
    assert HexPrefix(s[2..]) == "1A" by {
      assert s[2..] == "1A";
      assert HexPrefix("A") == "A" by { assert HexPrefix("A"[1..]) == []; }
    }
    assert HexValue("1A") == 26 by {
      assert "1A"[..1] == "1";
      assert HexValue("1") == 1 by { assert "1"[..0] == ""; }
    }
    assert DigitPrefix(s) == "0" by {
      assert DigitPrefix(s[1..]) == [];
    }
    assert DigitsValue("0") == 0 by { assert "0"[..0] == ""; }
  }
}
