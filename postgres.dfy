/** How PostgreSQL reads the text the driver sends for a placeholder
    into an integer column: NULL, an integer within the column's range,
    or a refusal before the statement runs. */
module Postgres {
  import opened Common
  import opened Json
  import opened Http
  import opened Validation

  const SyntaxError := DbError("22P02", "invalid input syntax for type integer")
  const OutOfRange := DbError("22003", "value out of range for type integer")
  const MinInt4 := -0x8000_0000
  const MaxInt4 := 0x7FFF_FFFF

  /** White space as PostgreSQL's integer input skips it. */
  predicate IsPgSpace(c: char)
  {
    c == ' ' || c == '\t' || c == '\n' || c == '\r' || c == '\U{000B}' || c == '\U{000C}'
  }

  function PgTrimStart(s: string): (r: string)
    ensures |r| <= |s| && (r != [] ==> !IsPgSpace(r[0]))
    ensures (forall i :: 0 <= i < |s| ==> !IsPgSpace(s[i])) ==> r == s
  {
    if s != [] && IsPgSpace(s[0]) then PgTrimStart(s[1..]) else s
  }

  function PgTrimEnd(s: string): (r: string)
    ensures |r| <= |s| && (r != [] ==> !IsPgSpace(r[|r| - 1]))
    ensures (forall i :: 0 <= i < |s| ==> !IsPgSpace(s[i])) ==> r == s
  {
    if s != [] && IsPgSpace(s[|s| - 1]) then PgTrimEnd(s[..|s| - 1]) else s
  }

  /** PostgreSQL's reading of a text as an integer: surrounding white
      space, an optional sign, and at least one digit. */
  function PgInteger(s: string): Option<int>
  {
    IntText(PgTrimEnd(PgTrimStart(s)))
  }

  /** What the integer column receives for a bound value. */
  datatype Coerced = Null | Int(v: int) | Refused(e: DbError)

  function InRange(i: int): (c: Coerced)
    ensures c.Int? <==> MinInt4 <= i <= MaxInt4
    ensures c.Int? ==> c.v == i
    ensures c.Refused? ==> c.e == OutOfRange
  {
    if MinInt4 <= i <= MaxInt4 then Int(i) else Refused(OutOfRange)
  }

  /** The driver sends a value as text (`String(x)` for a number, which
      uses an exponent from 10^21 on; `JSON.stringify` for an object; an
      array literal `{...}` for an array; `"true"` or `"false"` for a
      boolean) and `undefined` or `null` as NULL; PostgreSQL then reads the
      text as an integer, which none of the object, array or boolean texts
      is. */
  function IntegerColumn(v: Option<Json>): Coerced
  {
    match v
    case None => Null
    case Some(j) =>
      match j
      case JNull => Null
      case JNum(x) =>
        if x == x.Floor as real && -1_000_000_000_000_000_000_000 < x.Floor < 1_000_000_000_000_000_000_000
        then InRange(x.Floor) else Refused(SyntaxError)
      case JStr(s) =>
        (match PgInteger(s)
         case None => Refused(SyntaxError)
         case Some(i) => InRange(i))
      case _ => Refused(SyntaxError)
  }

  /** A decimal text, padded or not, is stored as its value, within the
      column's range; an integral number likewise. */
  lemma IntegerColumnReads(i: int, pad: string)
    requires forall k :: 0 <= k < |pad| ==> IsPgSpace(pad[k])
    requires MinInt4 <= i <= MaxInt4
    ensures IntegerColumn(Some(JStr(pad + IntToString(i) + pad))) == Int(i)
    ensures IntegerColumn(Some(JNum(i as real))) == Int(i)
  {
    var d := IntToString(i);
    IntTextOfIntToString(i);
    DecimalHasNoSpace(i);
    TrimPadding(pad, d);
  }

  lemma DecimalHasNoSpace(i: int)
    ensures forall k :: 0 <= k < |IntToString(i)| ==> !IsPgSpace(IntToString(i)[k])
  {
    var n := NatToString(if i < 0 then -i else i);
    assert forall k :: 0 <= k < |n| ==> IsDigit(n[k]);
    if i < 0 {
      assert IntToString(i) == "-" + n;
    }
  }

  lemma {:induction false} TrimPadding(pad: string, d: string)
    requires forall k :: 0 <= k < |pad| ==> IsPgSpace(pad[k])
    requires d != [] && forall k :: 0 <= k < |d| ==> !IsPgSpace(d[k])
    ensures PgTrimEnd(PgTrimStart(pad + d + pad)) == d
  {
    StartPadding(pad, d + pad);
    assert pad + d + pad == pad + (d + pad);
    EndPadding(d, pad);
  }

  lemma {:induction false} StartPadding(pad: string, s: string)
    requires forall k :: 0 <= k < |pad| ==> IsPgSpace(pad[k])
    requires s != [] && !IsPgSpace(s[0])
    ensures PgTrimStart(pad + s) == s
  {
    if pad != [] {
      assert (pad + s)[1..] == pad[1..] + s;
      StartPadding(pad[1..], s);
    }
  }

  lemma {:induction false} EndPadding(s: string, pad: string)
    requires forall k :: 0 <= k < |pad| ==> IsPgSpace(pad[k])
    requires s != [] && forall k :: 0 <= k < |s| ==> !IsPgSpace(s[k])
    ensures PgTrimEnd(s + pad) == s
  {
    if pad != [] {
      var p := pad[..|pad| - 1];
      assert (s + pad)[..|s + pad| - 1] == s + p;
      EndPadding(s, p);
    } else {
      assert s + pad == s;
    }
  }

  /** The stored value for what the column received; a refused value
      never reaches a row. */
  function Stored(c: Coerced, otherwise: Option<int>): Option<int>
  {
    match c
    case Null => None
    case Int(v) => Some(v)
    case Refused(_) => otherwise
  }


  /** A route parameter, always a string, bound where an integer is
      compared: the integer, or the refusal. */
  function IntegerParam(s: string): (r: Result<int, DbError>)
    ensures r.Ok? <==> IntegerColumn(Some(JStr(s))).Int?
    ensures r.Ok? ==> r.value == IntegerColumn(Some(JStr(s))).v
    ensures r.Err? ==> r.error == IntegerColumn(Some(JStr(s))).e
  {
    match PgInteger(s)
    case None => Err(SyntaxError)
    case Some(i) => if MinInt4 <= i <= MaxInt4 then Ok(i) else Err(OutOfRange)
  }
}
