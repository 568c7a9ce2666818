/** The slice of Python's object model that the Notion helpers rely on:
    decoded JSON values, the dict `.get` method, truthiness, `x[0]`,
    iteration and `str()`, each with the exception it raises on a value of
    the wrong kind. */
module PyJson {
  import opened Wrappers

  /** A decoded JSON value. Numbers are integers only. */
  datatype Json =
    | JNull
    | JBool(b: bool)
    | JNum(n: int)
    | JStr(s: string)
    | JArr(items: seq<Json>)
    | JObj(fields: map<string, Json>)

  /** The exceptions the helpers can raise; `ReprNotModelled` stands for
      `str()` of a list or dict, whose Python `repr` text is not modelled. */
  datatype PyError = AttributeError | TypeError | KeyError | ReprNotModelled

  type PyResult<T> = Result<T, PyError>

  const EmptyObj: Json := JObj(map[])

  /** `x.get(key, default)`: only dicts have `.get`. */
  function Get(x: Json, key: string, default: Json): (r: PyResult<Json>)
    ensures r.Ok? <==> x.JObj?
    ensures r.Ok? ==> (key in x.fields ==> r.value == x.fields[key])
                      && (key !in x.fields ==> r.value == default)
  {
    match x
    case JObj(fields) => Ok(if key in fields then fields[key] else default)
    case _ => Err(AttributeError)
  }

  /** Python truthiness: `None`, `False`, `0` and empty containers are false. */
  predicate Truthy(x: Json) {
    match x
    case JNull => false
    case JBool(b) => b
    case JNum(n) => n != 0
    case JStr(s) => s != []
    case JArr(items) => items != []
    case JObj(fields) => fields != map[]
  }

  /** `x[0]` on a truthy value. JSON object keys are strings, so a dict
      never holds the key `0`. */
  function First(x: Json): (r: PyResult<Json>)
    requires Truthy(x)
    ensures x.JArr? ==> r == Ok(x.items[0])
    ensures x.JStr? ==> r == Ok(JStr([x.s[0]]))
    ensures x.JObj? ==> r == Err(KeyError)
    ensures x.JNum? || x.JBool? ==> r == Err(TypeError)
  {
    match x
    case JArr(items) => Ok(items[0])
    case JStr(s) => Ok(JStr([s[0]]))
    case JObj(_) => Err(KeyError)
    case _ => Err(TypeError)
  }

  /** The decimal digit `d`. */
  function DigitChar(d: int): char
    requires 0 <= d < 10
  {
    ('0' as int + d) as char
  }

  /** `str(n)` for a natural number: its shortest decimal spelling. */
  function NatToDecimal(n: nat): (s: string)
    ensures |s| >= 1
    ensures forall i :: 0 <= i < |s| ==> '0' <= s[i] <= '9'
    ensures s[0] == '0' ==> n == 0 && s == "0"
    decreases n
  {
    if n < 10 then [DigitChar(n)] else NatToDecimal(n / 10) + [DigitChar(n % 10)]
  }

  /** `str(n)` for an integer. */
  function IntToDecimal(n: int): (s: string)
    ensures |s| >= 1
    ensures n < 0 <==> s[0] == '-'
  {
    if n < 0 then "-" + NatToDecimal(-n) else NatToDecimal(n)
  }

  /** The value of a string of decimal digits, read left to right. */
  function DecimalValue(s: string): int
    requires forall i :: 0 <= i < |s| ==> '0' <= s[i] <= '9'
  {
    if s == [] then 0 else 10 * DecimalValue(s[..|s| - 1]) + (s[|s| - 1] as int - '0' as int)
  }

  /** Reading the decimal spelling back gives the number. */
  lemma {:induction false} NatToDecimalRoundTrip(n: nat)
    ensures DecimalValue(NatToDecimal(n)) == n
    decreases n
  {
    var s := NatToDecimal(n);
    if n >= 10 {
      var front := NatToDecimal(n / 10);
      NatToDecimalRoundTrip(n / 10);
      assert s == front + [DigitChar(n % 10)];
      assert s[..|s| - 1] == front;
    }
  }

  /** The value of an optionally signed decimal string. */
  function SignedDecimalValue(s: string): int
    requires |s| >= 1
    requires s[0] == '-' ==> forall i :: 1 <= i < |s| ==> '0' <= s[i] <= '9'
    requires s[0] != '-' ==> forall i :: 0 <= i < |s| ==> '0' <= s[i] <= '9'
  {
    if s[0] == '-' then -DecimalValue(s[1..]) else DecimalValue(s)
  }

  /** Reading `str(n)` back gives `n`, so different integers get different
      spellings. */
  lemma IntToDecimalRoundTrip(n: int)
    ensures var s := IntToDecimal(n);
      (s[0] == '-' ==> forall i :: 1 <= i < |s| ==> '0' <= s[i] <= '9') &&
      (s[0] != '-' ==> forall i :: 0 <= i < |s| ==> '0' <= s[i] <= '9') &&
      SignedDecimalValue(s) == n
  {
    var s := IntToDecimal(n);
    if n < 0 {
      assert s[1..] == NatToDecimal(-n);
      NatToDecimalRoundTrip(-n);
    } else {
      NatToDecimalRoundTrip(n);
    }
  }

  /** `str(x)` for the scalars a Notion number can hold. */
  function Str(x: Json): (r: PyResult<string>)
    ensures r.Ok? <==> !(x.JArr? || x.JObj?)
    ensures x.JNum? ==> r == Ok(IntToDecimal(x.n))
    ensures x.JStr? ==> r == Ok(x.s)
  {
    match x
    case JNull => Ok("None")
    case JBool(b) => Ok(if b then "True" else "False")
    case JNum(n) => Ok(IntToDecimal(n))
    case JStr(s) => Ok(s)
    case _ => Err(ReprNotModelled)
  }

  /** The value reached from `x` through nested dict keys, when every step
      is a dict holding the key. */
  function At(x: Json, path: seq<string>): Option<Json>
    decreases |path|
  {
    if path == [] then Some(x)
    else if x.JObj? && path[0] in x.fields then At(x.fields[path[0]], path[1..])
    else None
  }
}
