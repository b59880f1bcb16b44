/** Values shared by every part of the chat client model: optional values,
    the JSON scalars that carry ids, JavaScript truthiness and the way a
    template literal renders a scalar. */
module Base {

  datatype Option<+T> = None | Some(value: T)

  /** An id as the client holds it. Ids arrive from the server as JSON
      numbers; the REST mappers re-store them as strings (`id.toString()`),
      and a missing sender id becomes the string "unknown". JavaScript's
      `===` compares kind and value, which is datatype equality here. */
  datatype Scalar = Num(n: int) | Str(s: string)

  /** JavaScript truthiness of an optional scalar: what `x || y` tests.
      `undefined`, `null`, `0` and `""` are falsy. */
  predicate Truthy(v: Option<Scalar>) {
    match v
    case None => false
    case Some(Num(n)) => n != 0
    case Some(Str(s)) => s != ""
  }

  /** JavaScript truthiness of an optional string. */
  predicate Filled(v: Option<string>) {
    v.Some? && v.value != ""
  }

  /** `v || d` for a scalar. */
  function ScalarOr(v: Option<Scalar>, d: Scalar): Scalar
  {
    if Truthy(v) then v.value else d
  }

  /** `v || d` for a string. */
  function TextOr(v: Option<string>, d: string): string
  {
    if Filled(v) then v.value else d
  }

  /** `v || undefined` for a scalar: falsy values are dropped. */
  function ScalarOrUndefined(v: Option<Scalar>): Option<Scalar>
  {
    if Truthy(v) then v else None
  }

  /** `v || undefined` for a string: the empty string is dropped. */
  function TextOrUndefined(v: Option<string>): Option<string>
  {
    if Filled(v) then v else None
  }

  predicate IsDigit(c: char) {
    '0' <= c <= '9'
  }

  /** The value of one decimal digit. */
  function DigitOf(c: char): nat
    requires IsDigit(c)
  {
    (c as int) - ('0' as int)
  }

  /** The number a string of decimal digits spells, most significant
      digit first. */
  function DigitsValue(s: string): nat
    requires forall i :: 0 <= i < |s| ==> IsDigit(s[i])
    decreases |s|
  {
    if s == [] then 0
    else DigitsValue(s[..|s| - 1]) * 10 + DigitOf(s[|s| - 1])
  }

  /** Decimal digits of a natural number, most significant first: the
      numeral spells `n`, and only zero itself starts with '0'. */
  function Digits(n: nat): (r: string)
    ensures |r| >= 1
    ensures forall i :: 0 <= i < |r| ==> IsDigit(r[i])
    ensures DigitsValue(r) == n
    ensures n >= 10 ==> r[0] != '0'
    ensures n < 10 <==> |r| == 1
    decreases n
  {
    var last := ['0' + ((n % 10) as char)];
    if n < 10 then last
    else
      var front := Digits(n / 10);
      assert (front + last)[..|front|] == front;
      front + last
  }

  /** Distinct natural numbers have distinct numerals. */
  lemma DigitsInjective(a: nat, b: nat)
    requires Digits(a) == Digits(b)
    ensures a == b
  {
    assert DigitsValue(Digits(a)) == DigitsValue(Digits(b));
  }

  /** How a template literal (`${v}`) or `toString()` renders a scalar:
      numbers in decimal with a leading minus sign when negative, strings
      as themselves. */
  function Render(v: Scalar): string {
    match v
    case Num(n) => if n < 0 then "-" + Digits(-n) else Digits(n)
    case Str(s) => s
  }

  /** A number renders as a non-empty numeral, and distinct numbers render
      differently; only a string can render as the empty string. */
  lemma {:induction false} RenderNumInjective(a: int, b: int)
    ensures Render(Num(a)) != ""
    ensures Render(Num(a)) == Render(Num(b)) ==> a == b
  {
    var ra, rb := Render(Num(a)), Render(Num(b));
    if ra == rb {
      if a < 0 && b < 0 {
        var da, db := Digits(-a), Digits(-b);
        assert ra == "-" + da && rb == "-" + db;
        assert da == ra[1..];
        assert db == rb[1..];
        DigitsInjective(-a, -b);
      } else if a >= 0 && b >= 0 {
        DigitsInjective(a, b);
      }
    }
  }
}
