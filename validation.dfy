/** The parts of express-validator the rule sets rely on: the string form
    a validator sees, the integer recogniser `isInt`, the recognisers the
    model keeps abstract, the collected field errors, and the shared
    `validate` middleware that answers 422. */
module Validation {
  import opened Common
  import opened Text
  import opened Json

  /** One failed check: the request field and the message. */
  datatype FieldError = FieldError(path: string, msg: string)

  /** The message of a check that has no `withMessage`. */
  const DefaultMessage := "Invalid value"

  const ValidationMessage := "Erreurs de validation."

  /** Recognisers whose exact grammar lives in the validator.js library and
      is not modelled: the string form of a non-string JSON value,
      `isFloat` (the parsed value when the text is a float), `isNumeric`,
      `isISO8601`, and date parsing (milliseconds since the epoch, `None`
      for an invalid date). */
  datatype Readers = Readers(
    show: Json -> string,
    float: string -> Option<real>,
    numeric: string -> bool,
    iso8601: string -> bool,
    date: string -> Option<int>)

  /** The string a validator sees: `undefined` and `null` read as "",
      strings as themselves, anything else through `show`. */
  function AsText(rd: Readers, v: Option<Json>): (t: string)
    ensures v.Some? && v.value.JStr? ==> t == v.value.s
    ensures v.None? || v == Some(JNull) ==> t == ""
  {
    match v
    case None => ""
    case Some(JNull) => ""
    case Some(JStr(s)) => s
    case Some(j) => rd.show(j)
  }

  /** A check's contribution: nothing when it passes, one error when not. */
  function Check(ok: bool, path: string, msg: string): (r: seq<FieldError>)
    ensures ok <==> r == []
    ensures !ok ==> r == [FieldError(path, msg)]
  {
    if ok then [] else [FieldError(path, msg)]
  }

  predicate AllDigits(s: string)
  {
    forall i :: 0 <= i < |s| ==> IsDigit(s[i])
  }

  /** validator.js `isInt` with leading zeros allowed: an optional sign and
      at least one digit, nothing else; the value it denotes. */
  function IntText(s: string): (r: Option<int>)
    ensures r.Some? <==>
      (s != [] && AllDigits(s)) ||
      (|s| >= 2 && (s[0] == '-' || s[0] == '+') && AllDigits(s[1..]))
  {
    if s != [] && (s[0] == '-' || s[0] == '+') then
      var d := s[1..];
      if d != [] && AllDigits(d) then
        var v: int := DigitsValue(d);
        Some(if s[0] == '-' then -v else v)
      else None
    else if s != [] && AllDigits(s) then Some(DigitsValue(s))
    else None
  }

  /** `isInt` reads back every integer written in decimal. */
  lemma IntTextOfIntToString(i: int)
    ensures IntText(IntToString(i)) == Some(i)
  {
    if i < 0 {
      IntTextOfNegative(-i);
    } else {
      IntTextOfNat(i);
    }
  }

  lemma IntTextOfNat(n: nat)
    ensures IntText(NatToString(n)) == Some(n)
  {
    var d := NatToString(n);
    assert IsDigit(d[0]) && AllDigits(d);
    NatToStringRoundTrip(n);
  }

  lemma IntTextOfNegative(n: nat)
    requires n > 0
    ensures IntText("-" + NatToString(n)) == Some(-(n as int))
  {
    var d := NatToString(n);
    var s := "-" + d;
    assert s[0] == '-' && s[1..] == d;
    assert AllDigits(d);
    NatToStringRoundTrip(n);
  }

  /** `isInt({ min: lo })`. */
  predicate IntAtLeast(s: string, lo: int)
  {
    IntText(s).Some? && IntText(s).value >= lo
  }

  /** `isInt({ min: lo, max: hi })`. */
  predicate IntBetween(s: string, lo: int, hi: int)
  {
    IntText(s).Some? && lo <= IntText(s).value <= hi
  }

  /** `isFloat({ min: lo, max: hi })`. */
  predicate FloatBetween(rd: Readers, s: string, lo: real, hi: real)
  {
    rd.float(s).Some? && lo <= rd.float(s).value <= hi
  }

  /** `{ [path]: msg }`, the shape each error takes in a 422 answer. */
  function Entry(e: FieldError): Json
  {
    Single(e.path, JStr(e.msg))
  }

  /** What the validation middleware does with the request. */
  datatype Verdict = Proceed | Reject(status: nat, body: Json)

  /** The answer to a list of collected errors: the request proceeds when
      there are none; otherwise 422 with the fixed message and one
      `{ [path]: msg }` entry per error, in order. */
  function Respond(errors: seq<FieldError>): (v: Verdict)
    ensures v.Proceed? <==> errors == []
    ensures v.Reject? ==>
      v.status == 422 &&
      Get(v.body, "message") == Some(JStr(ValidationMessage)) &&
      exists items: seq<Json> ::
        Get(v.body, "errors") == Some(JArr(items)) &&
        |items| == |errors| &&
        forall i :: 0 <= i < |items| ==>
          items[i] == JObj([(errors[i].path, JStr(errors[i].msg))]) &&
          Get(items[i], errors[i].path) == Some(JStr(errors[i].msg))
  {
    if errors == [] then Proceed
    else
      var items := seq(|errors|, i requires 0 <= i < |errors| => Entry(errors[i]));
      var members := [("message", JStr(ValidationMessage)), ("errors", JArr(items))];
      assert members[..1] == [("message", JStr(ValidationMessage))];
      assert "errors"[0] != "message"[0];
      assert Lookup(members[..1], "message") == Some(JStr(ValidationMessage));
      var body := JObj(members);
      assert Get(body, "message") == Some(JStr(ValidationMessage));
      assert Get(body, "errors") == Some(JArr(items));
      Reject(422, body)
  }

  /** The `validate` middleware: it pushes one entry per collected error
      into a list, then answers as `Respond` says. */
  method Validate(errors: seq<FieldError>) returns (v: Verdict)
    ensures v == Respond(errors)
  {
    if errors == [] {
      return Proceed;
    }
    var extracted: seq<Json> := [];
    var i := 0;
    while i < |errors|
      invariant 0 <= i <= |errors|
      invariant |extracted| == i
      invariant forall k :: 0 <= k < i ==> extracted[k] == Entry(errors[k])
    {
      extracted := extracted + [Entry(errors[i])];
      i := i + 1;
    }
    assert extracted == seq(|errors|, k requires 0 <= k < |errors| => Entry(errors[k]));
    v := Reject(422, JObj([("message", JStr(ValidationMessage)), ("errors", JArr(extracted))]));
  }
}
