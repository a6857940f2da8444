/** Values as Python 2's `json.loads` hands them to the access layer, the
    Python exceptions that the modelled code lets escape, and the `str()`
    comparison that the metadata check relies on. */
module PyJson {

  datatype Option<+T> = None | Some(value: T)

  datatype Result<+T, +E> = Ok(value: T) | Err(error: E)

  /** The Python exceptions that escape from the modelled code. */
  datatype PyError =
    | KeyError
    | TypeError
    | IndexError
    | AttributeError
    | NameError
    | UnicodeEncodeError
    | ValueError

  /** A decoded JSON document. JSON floats are not modelled. */
  datatype Json =
    | JNull
    | JBool(b: bool)
    | JInt(i: int)
    | JStr(s: string)
    | JList(items: seq<Json>)
    | JObj(fields: map<string, Json>)

  predicate IsScalar(v: Json) {
    !v.JList? && !v.JObj?
  }

  /** Python truthiness: `not v` holds for None, False, 0 and empty containers. */
  predicate Falsy(v: Json) {
    match v
    case JNull => true
    case JBool(b) => !b
    case JInt(i) => i == 0
    case JStr(s) => s == ""
    case JList(items) => items == []
    case JObj(fields) => fields == map[]
  }

  predicate IsAscii(s: string) {
    forall k :: 0 <= k < |s| ==> s[k] as int < 128
  }

  function DigitChar(d: nat): (c: char)
    requires d < 10
    ensures '0' <= c <= '9'
  {
    ('0' as int + d) as char
  }

  /** Decimal digits of `n`, as Python's str() of a non-negative int. */
  function NatText(n: nat): (r: string)
    ensures |r| >= 1
    ensures forall k :: 0 <= k < |r| ==> '0' <= r[k] <= '9'
    ensures n >= 10 ==> |r| >= 2
    decreases n
  {
    if n < 10 then [DigitChar(n)] else NatText(n / 10) + [DigitChar(n % 10)]
  }

  /** Python's str() of an int: a minus sign, then the digits of the magnitude. */
  function IntText(i: int): string {
    if i < 0 then "-" + NatText(-i) else NatText(i)
  }

  lemma {:induction false} NatTextInjective(a: nat, b: nat)
    requires NatText(a) == NatText(b)
    ensures a == b
    decreases a
  {
    var ta, tb := NatText(a), NatText(b);
    if a >= 10 && b >= 10 {
      assert ta[|ta| - 1] == DigitChar(a % 10) && tb[|tb| - 1] == DigitChar(b % 10);
      assert NatText(a / 10) == ta[..|ta| - 1] == tb[..|tb| - 1] == NatText(b / 10);
      NatTextInjective(a / 10, b / 10);
    }
  }

  /** Two ints print alike exactly when they are equal. */
  lemma IntTextInjective(a: int, b: int)
    ensures IntText(a) == IntText(b) <==> a == b
  {
    if IntText(a) == IntText(b) {
      var ta, tb := IntText(a), IntText(b);
      assert ta[0] == if a < 0 then '-' else NatText(a)[0];
      assert tb[0] == if b < 0 then '-' else NatText(b)[0];
      if a < 0 && b < 0 {
        assert NatText(-a) == ta[1..] == tb[1..] == NatText(-b);
        NatTextInjective(-a, -b);
      } else if a >= 0 && b >= 0 {
        NatTextInjective(a, b);
      }
    }
  }

  /** Python 2's `str()` of a scalar. JSON strings decode to unicode, whose
      `str()` encodes to ASCII and raises on any other character. */
  function ScalarText(v: Json): (r: Result<string, PyError>)
    requires IsScalar(v)
    ensures v.JStr? ==> (r.Ok? <==> IsAscii(v.s))
    ensures r.Err? ==> r.error == UnicodeEncodeError
  {
    match v
    case JNull => Ok("None")
    case JBool(b) => Ok(if b then "True" else "False")
    case JInt(i) => Ok(IntText(i))
    case JStr(s) => if IsAscii(s) then Ok(s) else Err(UnicodeEncodeError)
  }

  /** Unicode text with a character outside ASCII. In Python 2 it is the one
      decoded JSON value whose `str()` raises UnicodeEncodeError, and so does
      formatting it into a byte string (`"{}".format(v)`, `urllib.urlencode`).
      Every other value prints: containers through `repr`, which escapes. */
  predicate NotAsciiText(v: Json) {
    v.JStr? && !IsAscii(v.s)
  }

  /** The outcome of evaluating `str(a) == str(b)`: `str(a)` is taken first,
      but both failures are the same exception. Containers are compared
      structurally. */
  function StrEquals(a: Json, b: Json): (r: Result<bool, PyError>)
    ensures r.Err? <==> (IsScalar(a) && ScalarText(a).Err?) || (IsScalar(b) && ScalarText(b).Err?)
    ensures r.Err? <==> NotAsciiText(a) || NotAsciiText(b)
    ensures r.Err? ==> r.error == UnicodeEncodeError
    ensures r.Ok? && IsScalar(a) && IsScalar(b) ==> (r.value <==> ScalarText(a) == ScalarText(b))
    ensures a == b && !NotAsciiText(a) ==> r == Ok(true)
  {
    if NotAsciiText(a) || NotAsciiText(b) then
      Err(UnicodeEncodeError)
    else if IsScalar(a) && IsScalar(b) then
      Ok(ScalarText(a) == ScalarText(b))
    else
      Ok(a == b)
  }

  /** For two integers, `str()` equality is integer equality. */
  lemma StrEqualsInts(a: int, b: int)
    ensures StrEquals(JInt(a), JInt(b)) == Ok(a == b)
  {
    IntTextInjective(a, b);
  }

  /** An integer echoed for its decimal text compares equal: `str()` hides
      the type difference. */
  lemma StrEqualsIntText(i: int)
    ensures StrEquals(JInt(i), JStr(IntText(i))) == Ok(true)
  {
    var t := IntText(i);
    assert IsAscii(t) by {
      forall k | 0 <= k < |t| ensures t[k] as int < 128 {
        if i < 0 && k > 0 {
          assert t[k] == NatText(-i)[k - 1];
        }
      }
    }
  }
}
