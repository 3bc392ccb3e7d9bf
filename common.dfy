// Shared shapes used by several components of the dashboard: optional values,
// the JavaScript `x || ''` idiom, timestamps rendered as ids, and the
// observable steps a dialog's submit handler performs.

module Common {

  /** A value that may be absent (`undefined` in the application). */
  datatype Option<+T> = None | Some(value: T)

  /** The outcome of a call that may throw: its value, or the thrown error's message. */
  datatype Result<+T> = Success(value: T) | Failure(error: string)

  /** `s || ''` on an optional string: absent and empty both give ''. */
  function OrEmpty(o: Option<string>): string
  {
    if o.Some? then o.value else ""
  }

  /** The digit character for 0..9. */
  function DigitChar(d: nat): (c: char)
    requires d < 10
    ensures '0' <= c <= '9'
    ensures DigitValue(c) == d
  {
    ('0' as int + d) as char
  }

  /** The value of a decimal digit character. */
  function DigitValue(c: char): int
  {
    c as int - '0' as int
  }

  /** Reference reading of a string of decimal digits, most significant first. */
  function DigitsValue(s: string): int
    decreases |s|
  {
    if s == [] then 0 else 10 * DigitsValue(s[..|s| - 1]) + DigitValue(s[|s| - 1])
  }

  /**
   * The decimal rendering of a non-negative integer, as `${n}` gives it:
   * digits only, no leading zero, and it reads back as `n`.
   */
  function Decimal(n: nat): (r: string)
    ensures 1 <= |r|
    ensures forall i :: 0 <= i < |r| ==> '0' <= r[i] <= '9'
    ensures |r| > 1 ==> r[0] != '0'
    ensures DigitsValue(r) == n
    decreases n
  {
    if n < 10 then [DigitChar(n)]
    else
      var r := Decimal(n / 10) + [DigitChar(n % 10)];
      assert r[..|r| - 1] == Decimal(n / 10);
      r
  }

  /** Distinct numbers render differently. */
  lemma DecimalInjective(a: nat, b: nat)
    ensures Decimal(a) == Decimal(b) <==> a == b
  {
    if Decimal(a) == Decimal(b) {
      assert DigitsValue(Decimal(a)) == DigitsValue(Decimal(b));
    }
  }

  /** The steps of a dialog's submit handler that another part of the page can observe. */
  datatype Effect =
    | StoreCalled          // the store function or server action was invoked
    | CallbackInvoked      // the parent's `on...Created` callback ran
    | Signal(name: string) // `window.dispatchEvent(new Event(name))`
    | FormReset            // `form.reset()`
    | RouterRefresh        // `router.refresh()`
}
