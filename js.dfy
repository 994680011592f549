/** The few JavaScript runtime behaviours the three handlers lean on:
    optional values (undefined), truthiness of a string, `Response.ok`,
    and the decimal text a number turns into inside a template literal. */
module Js {

  /** A value that may be `undefined` (or `null`, where the two behave alike). */
  datatype Option<+T> = None | Some(value: T)

  /** A string-or-undefined is truthy when it is present and not "". */
  predicate Truthy(a: Option<string>)
  {
    a.Some? && a.value != ""
  }

  /** `a || fallback` for a string-or-undefined `a`. */
  function Or(a: Option<string>, fallback: string): (r: string)
    ensures Truthy(a) ==> r == a.value
    ensures !Truthy(a) ==> r == fallback
    ensures r != "" <==> Truthy(a) || fallback != ""
  {
    if Truthy(a) then a.value else fallback
  }

  /** `a || ""`: the text an absent message renders as. */
  function OrEmpty(a: Option<string>): string
  {
    Or(a, "")
  }

  /** `${a}` in a template literal: undefined prints as "undefined". */
  function Interpolate(a: Option<string>): (r: string)
    ensures a.Some? ==> r == a.value
    ensures a.None? ==> r == "undefined"
  {
    if a.Some? then a.value else "undefined"
  }

  /** `Response.ok` of the Fetch API: the status is in 200-299. */
  predicate IsOk(status: nat)
  {
    200 <= status <= 299
  }

  /** An ok status is never 401, so a widget that tests 401 first loses no
      ok answer; and the statuses the server itself picks for its own error
      replies, 400 and 500, are not ok. */
  lemma OkExcludesErrorCodes(status: nat)
    ensures IsOk(status) ==> status != 401 && status != 400 && status != 500
    ensures IsOk(200) && !IsOk(400) && !IsOk(401) && !IsOk(500)
  {
  }

  predicate IsDigit(c: char)
  {
    '0' <= c <= '9'
  }

  function DigitChar(d: nat): (c: char)
    requires d < 10
    ensures IsDigit(c)
  {
    ('0' as int + d) as char
  }

  /** `${n}` for a non-negative integer: its decimal digits, no leading zero. */
  function NatToString(n: nat): (s: string)
    ensures |s| >= 1
    ensures forall k :: 0 <= k < |s| ==> IsDigit(s[k])
    ensures |s| > 1 ==> s[0] != '0'
    decreases n
  {
    if n < 10 then [DigitChar(n)] else NatToString(n / 10) + [DigitChar(n % 10)]
  }

  /** Reads a string of decimal digits back as the number it denotes. */
  function DecimalValue(s: string): nat
    requires forall k :: 0 <= k < |s| ==> IsDigit(s[k])
  {
    if s == [] then 0
    else
      assert IsDigit(s[|s| - 1]);
      10 * DecimalValue(s[..|s| - 1]) + (s[|s| - 1] as int - '0' as int)
  }

  /** The decimal text of a status code names exactly that code. */
  lemma {:induction false} DecimalRoundTrip(n: nat)
    ensures DecimalValue(NatToString(n)) == n
    decreases n
  {
    if n >= 10 {
      var front := NatToString(n / 10);
      var s := NatToString(n);
      assert s == front + [DigitChar(n % 10)];
      assert s[..|s| - 1] == front;
      DecimalRoundTrip(n / 10);
    }
  }
}
