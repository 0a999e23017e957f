/** The JavaScript values a request body can carry, abstracted to what the
    controller observes of them: whether they are present, whether they are a
    string, how they behave as a condition, and how a template literal renders
    them. */
module JsValues {

  /** A body field: missing (`undefined`), a string, or any other JSON value.
      A non-string value is abstracted to its truthiness and to the text
      `${v}` produces for it. */
  datatype Value = Absent | Str(s: string) | Other(truthy: bool, text: string)

  /** JavaScript truthiness: `undefined` and `""` are falsy, as are `0`,
      `null`, `false` and `NaN` among the other values. */
  predicate Truthy(v: Value) {
    match v
    case Absent => false
    case Str(s) => s != ""
    case Other(t, _) => t
  }

  /** The text `${v}` contributes to a template literal. */
  function Interpolate(v: Value): string {
    match v
    case Absent => "undefined"
    case Str(s) => s
    case Other(_, text) => text
  }

  function DigitChar(d: nat): (c: char)
    requires d < 10
    ensures '0' <= c <= '9'
  {
    ('0' as int + d) as char
  }

  function DigitValue(c: char): nat {
    if '0' <= c <= '9' then c as int - '0' as int else 0
  }

  /** Decimal rendering of a natural number, as `${index}` prints an array index. */
  function Decimal(n: nat): (r: string)
    ensures |r| >= 1
    ensures forall i :: 0 <= i < |r| ==> '0' <= r[i] <= '9'
    ensures n < 10 <==> |r| == 1
    ensures n >= 10 ==> r[0] != '0'
  {
    if n < 10 then [DigitChar(n)] else Decimal(n / 10) + [DigitChar(n % 10)]
  }

  /** Reads a string of decimal digits back into a number. */
  function ParseDecimal(s: string): nat {
    if |s| == 0 then 0 else 10 * ParseDecimal(s[..|s| - 1]) + DigitValue(s[|s| - 1])
  }

  /** The rendering loses nothing: parsing it gives the number back. */
  lemma {:induction false} DecimalRoundTrip(n: nat)
    ensures ParseDecimal(Decimal(n)) == n
  {
    if n >= 10 {
      var s := Decimal(n);
      assert s[..|s| - 1] == Decimal(n / 10);
      DecimalRoundTrip(n / 10);
    }
  }

  /** Hence distinct numbers render differently. */
  lemma DecimalInjective(m: nat, n: nat)
    requires m != n
    ensures Decimal(m) != Decimal(n)
  {
    DecimalRoundTrip(m);
    DecimalRoundTrip(n);
  }
}
