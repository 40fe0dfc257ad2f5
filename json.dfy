/** Decoded JSON payloads as the server returns them, the indexing operations the
    connector applies to them, and Python's `str()` of a payload value, which is
    what an f-string or the HTTP library does with it. */
module Json {
  import opened Wrappers
  import opened Errors

  datatype Json =
    | Null
    | Bool(b: bool)
    | Num(n: int)
    | Str(s: string)
    | Arr(items: seq<Json>)
    | Obj(fields: map<string, Json>)

  /** `j[key]`: only an object holding `key` answers; every other value raises. */
  function Index(j: Json, key: string): (r: Result<Json, Error>)
    ensures r.Success? <==> j.Obj? && key in j.fields
    ensures r.Success? ==> r.value == j.fields[key]
    ensures r.Failure? ==> r.error == PayloadError(key)
  {
    if j.Obj? && key in j.fields then Success(j.fields[key]) else Failure(PayloadError(key))
  }

  /** `j[0]`: the first element of a list, or the first character of a string
      (as a one-character string); anything else raises. */
  function First(j: Json): (r: Result<Json, Error>)
    ensures r.Success? <==> (j.Arr? && |j.items| > 0) || (j.Str? && |j.s| > 0)
    ensures r.Success? && j.Arr? ==> r.value == j.items[0]
    ensures r.Success? && j.Str? ==> r.value == Str(j.s[..1])
    ensures r.Failure? ==> r.error == PayloadError("0")
  {
    match j
    case Arr(items) => if |items| > 0 then Success(items[0]) else Failure(PayloadError("0"))
    case Str(s) => if |s| > 0 then Success(Str(s[..1])) else Failure(PayloadError("0"))
    case _ => Failure(PayloadError("0"))
  }

  /** `j.get(key, default)`: only an object has `get`; a missing key gives `default`. */
  function GetOr(j: Json, key: string, default: Json): (r: Result<Json, Error>)
    ensures r.Success? <==> j.Obj?
    ensures r.Success? ==> r.value == if key in j.fields then j.fields[key] else default
    ensures r.Failure? ==> r.error == PayloadError(key)
  {
    if j.Obj? then Success(if key in j.fields then j.fields[key] else default)
    else Failure(PayloadError(key))
  }

  function DigitChar(d: nat): (c: char)
    requires d < 10
    ensures '0' <= c <= '9'
  {
    ('0' as int + d) as char
  }

  /** The number a string of decimal digits denotes, most significant first. */
  function DecimalValue(s: string): int
    decreases |s|
  {
    if s == [] then 0 else 10 * DecimalValue(s[..|s| - 1]) + (s[|s| - 1] as int - '0' as int)
  }

  /** Decimal digits of `n`, most significant first, without leading zeros. */
  function NatToString(n: nat): (r: string)
    ensures |r| > 0 && forall i :: 0 <= i < |r| ==> '0' <= r[i] <= '9'
    ensures DecimalValue(r) == n
    ensures r[0] == '0' ==> r == "0"
    decreases n
  {
    if n < 10 then [DigitChar(n)] else NatToString(n / 10) + [DigitChar(n % 10)]
  }

  function IntToString(i: int): string {
    if i < 0 then "-" + NatToString(-i) else NatToString(i)
  }

  /** Python's `str()` of a decoded payload value. A string is itself; the
      scalars print as Python prints them; lists and objects are rendered as a
      fixed marker. */
  function Format(j: Json): (r: string)
    ensures j.Str? ==> r == j.s
    ensures j.Null? ==> r == "None"
  {
    match j
    case Null => "None"
    case Bool(b) => if b then "True" else "False"
    case Num(n) => IntToString(n)
    case Str(s) => s
    case Arr(_) => "[...]"
    case Obj(_) => "{...}"
  }
}
