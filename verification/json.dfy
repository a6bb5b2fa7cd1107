/** Parsed JSON request bodies, property reads, and JavaScript's `String(v)`
    conversion, which `RegExp.prototype.test` applies to its argument, with
    the values for which it throws. */
module Json {
  import opened Wrappers
  import Strings

  /** A value produced by the JSON body parser. Numbers are integers here. */
  datatype Json =
    | JNull
    | JBool(b: bool)
    | JNum(n: int)
    | JStr(s: string)
    | JArr(items: seq<Json>)
    | JObj(fields: map<string, Json>)

  /** The property read `v.key`; `None` is `undefined`. Only objects carry
      the named properties read by the handlers (none of them is inherited
      from `Object.prototype`). */
  function Get(v: Json, key: string): Option<Json>
  {
    if v.JObj? && key in v.fields then Some(v.fields[key]) else None
  }

  function DigitChar(d: nat): (c: char)
    requires d < 10
    ensures '0' <= c <= '9'
  {
    "0123456789"[d]
  }

  function DigitValue(c: char): nat
    requires '0' <= c <= '9'
  {
    c as int - '0' as int
  }

  /** Decimal digits of a natural number, without leading zeros. */
  function NatToString(n: nat): (s: string)
    ensures |s| >= 1
    ensures forall i | 0 <= i < |s| :: '0' <= s[i] <= '9'
    ensures |s| == 1 <==> n < 10
    decreases n
  {
    if n < 10 then [DigitChar(n)] else NatToString(n / 10) + [DigitChar(n % 10)]
  }

  /** The number a string of decimal digits denotes. */
  function DecimalValue(s: string): nat
    requires forall i | 0 <= i < |s| :: '0' <= s[i] <= '9'
    decreases |s|
  {
    if |s| == 0 then 0 else 10 * DecimalValue(s[..|s| - 1]) + DigitValue(s[|s| - 1])
  }

  /** Printing a natural number in decimal and reading it back gives the number. */
  lemma {:induction false} DecimalRoundTrip(n: nat)
    ensures DecimalValue(NatToString(n)) == n
    decreases n
  {
    var s := NatToString(n);
    if n < 10 {
      assert DigitValue(DigitChar(n)) == n;
    } else {
      DecimalRoundTrip(n / 10);
      assert s[..|s| - 1] == NatToString(n / 10);
      assert DigitValue(DigitChar(n % 10)) == n % 10;
    }
  }

  /** Every character is a decimal digit. */
  predicate AllDigits(s: string)
  {
    forall i | 0 <= i < |s| :: '0' <= s[i] <= '9'
  }

  /** `String(n)` for an integer: its decimal digits, after a `-` when it
      is negative (see `NegativeIntToString`). */
  function IntToString(n: int): (s: string)
    ensures n >= 0 ==> AllDigits(s) && DecimalValue(s) == n
  {
    if n < 0 then
      "-" + NatToString(-n)
    else
      DecimalRoundTrip(n);
      NatToString(n)
  }

  /** A negative integer prints as `-` followed by the print of its
      magnitude, so its digits read back as `-n`. */
  lemma NegativeIntToString(n: int)
    requires n < 0
    ensures |IntToString(n)| >= 2 && IntToString(n)[0] == '-'
    ensures IntToString(n)[1..] == IntToString(-n)
    ensures AllDigits(IntToString(-n)) && DecimalValue(IntToString(-n)) == -n
  {
    assert IntToString(n)[1..] == NatToString(-n);
  }

  /** `String(v)` throws a `TypeError` when `v` is, or an array holds at
      any depth, an object with its own `toString` property. A parsed value
      is never callable, so that property cannot convert the object, and
      the inherited `valueOf` returns the object itself, which is not a
      primitive. Only objects and arrays can throw. */
  predicate StringThrows(v: Json)
    ensures StringThrows(v) ==> v.JObj? || v.JArr?
    decreases v
  {
    match v
    case JObj(fields) => "toString" in fields
    case JArr(items) => exists i | 0 <= i < |items| :: StringThrows(items[i])
    case _ => false
  }

  /** `String(v)` throws, where `v` may be `undefined`. */
  predicate StringThrowsOpt(v: Option<Json>)
  {
    v.Some? && StringThrows(v.value)
  }

  /** `String(v)` for a JSON value that does not make it throw: arrays join
      their elements with `,`, printing `null` elements as the empty string;
      other objects print as `[object Object]`. */
  function ToJsString(v: Json): (r: string)
    requires !StringThrows(v)
    ensures v.JArr? && |v.items| == 1 && !v.items[0].JNull? ==> r == ToJsString(v.items[0])
    ensures v.JArr? && |v.items| >= 2 ==> ',' in r
    decreases v
  {
    match v
    case JNull => "null"
    case JBool(b) => if b then "true" else "false"
    case JNum(n) => IntToString(n)
    case JStr(s) => s
    case JArr(items) =>
      Strings.Join(seq(|items|, i requires 0 <= i < |items| =>
        if items[i].JNull? then "" else ToJsString(items[i])), ',')
    case JObj(_) => "[object Object]"
  }

  /** `String(v)` where `v` may be `undefined`. */
  function ToJsStringOpt(v: Option<Json>): (r: string)
    requires !StringThrowsOpt(v)
    ensures |r| == 1 ==> v.Some? && (v.value.JStr? || v.value.JNum? || v.value.JArr?)
  {
    match v
    case None => "undefined"
    case Some(x) => ToJsString(x)
  }

  /** The one-character forms of strings and numbers: a string is itself,
      and an integer prints as one character exactly when it is 0 through 9,
      and then as its digit. */
  lemma SingleCharForms(v: Option<Json>)
    ensures forall s :: v == Some(JStr(s)) ==> ToJsStringOpt(v) == s
    ensures forall n :: v == Some(JNum(n)) ==>
              (|ToJsStringOpt(v)| == 1 <==> 0 <= n < 10) &&
              (0 <= n < 10 ==> ToJsStringOpt(v) == [DigitChar(n)])
  {
  }
}
