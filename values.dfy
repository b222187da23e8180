/**
 * Values held by an observable model and JavaScript's `String(value)`
 * conversion, which is also the default localizer (index.ts:3-5) and the
 * default derivation of an attribute binding (index.ts:204).
 */
module Values {

  /** A property name of the model object. */
  type Key = string

  /** The JavaScript values a model property may hold (numbers: integers only). */
  datatype Value = Undefined | Null | Bool(b: bool) | Num(n: int) | Str(s: string)

  /** The model object's current properties, as the ears see them. */
  type ModelData = map<Key, Value>

  /** `object[key]`: a missing property reads as `undefined`. */
  function Lookup(data: ModelData, key: Key): (v: Value)
    ensures key !in data ==> v == Undefined
    ensures key in data ==> v == data[key]
  {
    if key in data then data[key] else Undefined
  }

  function DigitChar(d: nat): (c: char)
    requires d < 10
    ensures '0' <= c <= '9'
  {
    "0123456789"[d]
  }

  function DigitValue(c: char): nat
  {
    if '0' <= c <= '9' then c as nat - '0' as nat else 0
  }

  /** Decimal digits of `n`, most significant first, without leading zeros. */
  function Digits(n: nat): (s: string)
    ensures |s| > 0
    ensures forall i :: 0 <= i < |s| ==> '0' <= s[i] <= '9'
  {
    if n < 10 then [DigitChar(n)] else Digits(n / 10) + [DigitChar(n % 10)]
  }

  /** Reads a string of decimal digits back as a number; the partner of `Digits`. */
  function ParseDigits(s: string): nat
  {
    if s == [] then 0 else 10 * ParseDigits(s[..|s| - 1]) + DigitValue(s[|s| - 1])
  }

  /** Reads an optional minus sign followed by decimal digits. */
  function ParseInteger(s: string): int
  {
    if |s| > 0 && s[0] == '-' then -(ParseDigits(s[1..]) as int) else ParseDigits(s)
  }

  /** `String(value)` for the values of `Value`. */
  function JsString(v: Value): (r: string)
    ensures v.Str? ==> r == v.s
    ensures !v.Str? ==> |r| > 0
    ensures v.Num? ==> (r[0] == '-' <==> v.n < 0)
  {
    match v
    case Undefined => "undefined"
    case Null => "null"
    case Bool(b) => if b then "true" else "false"
    case Num(n) => if n < 0 then "-" + Digits(-n) else Digits(n)
    case Str(s) => s
  }

  lemma {:induction false} DigitsRoundTrip(n: nat)
    ensures ParseDigits(Digits(n)) == n
  {
    if n >= 10 {
      var s := Digits(n);
      assert s[..|s| - 1] == Digits(n / 10);
      DigitsRoundTrip(n / 10);
    }
  }

  /** `String()` of an integer reads back as the same integer. */
  lemma NumberStringRoundTrip(n: int)
    ensures ParseInteger(JsString(Num(n))) == n
  {
    hide ParseDigits, Digits;
    if n < 0 {
      var s := JsString(Num(n));
      assert s == "-" + Digits(-n);
      assert s[1..] == Digits(-n);
      DigitsRoundTrip(-n);
    } else {
      assert JsString(Num(n)) == Digits(n);
      DigitsRoundTrip(n);
      assert Digits(n)[0] != '-';
    }
  }
}
