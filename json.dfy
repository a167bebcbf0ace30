/**
 * JSON values as the client receives them from `response.json()` and as the
 * command line formats them with Python's `str()`.
 */
module JsonValue {

  /** A decoded JSON document; objects are Python dicts keyed by strings. */
  datatype Json =
    | Null
    | Bool(b: bool)
    | Int(i: int)
    | Str(s: string)
    | Obj(fields: map<string, Json>)

  /** The decimal digits of a natural number, most significant first. */
  function Digits(n: nat): string
    decreases n
  {
    var d := [('0' as int + n % 10) as char];
    if n < 10 then d else Digits(n / 10) + d
  }

  /** Python's `str(n)` for an integer. */
  function IntToString(n: int): string
  {
    if n < 0 then "-" + Digits(-n) else Digits(n)
  }

  /** The number a string of decimal digits denotes, read most significant digit first. */
  function NumeralValue(s: string): int
  {
    if s == [] then 0 else NumeralValue(s[..|s| - 1]) * 10 + (s[|s| - 1] as int - '0' as int)
  }

  /** The digits denote `n`. */
  lemma {:induction false} DigitsValue(n: nat)
    ensures NumeralValue(Digits(n)) == n
  {
    if n >= 10 {
      DigitsValue(n / 10);
      var d := [('0' as int + n % 10) as char];
      assert (Digits(n / 10) + d)[..|Digits(n / 10) + d| - 1] == Digits(n / 10);
    }
  }

  /** The digits are decimal digits, with no leading zero. */
  lemma {:induction false} DigitsShape(n: nat)
    ensures var r := Digits(n);
      && |r| > 0
      && (forall k :: 0 <= k < |r| ==> '0' <= r[k] <= '9')
      && (r[0] == '0' ==> n == 0)
    decreases n
  {
    if n >= 10 {
      DigitsShape(n / 10);
    }
  }

  /** `str(n)` is a minus sign exactly for negative numbers, followed by the digits of the magnitude. */
  lemma IntToStringSign(n: int)
    ensures var r := IntToString(n);
      && |r| > 0
      && (r[0] == '-' <==> n < 0)
      && (n < 0 ==> NumeralValue(r[1..]) == -n)
      && (n >= 0 ==> NumeralValue(r) == n)
  {
    DigitsShape(if n < 0 then -n else n);
    DigitsValue(if n < 0 then -n else n);
    if n < 0 {
      assert IntToString(n)[1..] == Digits(-n);
    }
  }

  /**
   * What an f-string placeholder `{v}` produces for a JSON value: strings
   * verbatim, integers in decimal, `None`, `True`/`False`; the rendering of a
   * nested dict is supplied by the caller (`showObject`).
   */
  function Show(v: Json, showObject: map<string, Json> -> string): string
  {
    match v
    case Null => "None"
    case Bool(b) => if b then "True" else "False"
    case Int(i) => IntToString(i)
    case Str(s) => s
    case Obj(f) => showObject(f)
  }
}
