/** JavaScript-level values the model shares: optional values, thrown values,
    and the string operations the source relies on (`endsWith`, `indexOf`,
    `replace` with a string pattern, decimal rendering in template literals). */
module Js {

  /** `T | null | undefined`, as read by `??`, `?.` and truthiness tests, which treat null and undefined alike.
      Destructuring defaults and object spread tell them apart; the model only feeds them absent keys. */
  datatype Option<+T> = None | Some(value: T) {
    /** `x ?? fallback` */
    function GetOr(fallback: T): T {
      if Some? then value else fallback
    }
  }

  /** A thrown JavaScript value: an `Error` (or `DOMException`) with its `name` and `message`, or any other value. */
  datatype Thrown = ErrorObject(name: string, message: string) | OtherValue

  /** The settled value of a `Promise<T>`: it resolves with a value or rejects with a thrown value. */
  datatype Result<+T> = Ok(value: T) | Err(error: Thrown)

  /** The settled value of a `Promise<void>`. */
  datatype Outcome = Returned | Threw(error: Thrown)

  /** `new Error(message)` */
  function NewError(message: string): Thrown {
    ErrorObject("Error", message)
  }

  /** `error instanceof Error ? error.message : fallback` */
  function MessageOr(t: Thrown, fallback: string): string {
    if t.ErrorObject? then t.message else fallback
  }

  function DigitChar(d: nat): char
    requires d < 10
  {
    "0123456789"[d]
  }

  /** The value of a decimal digit character. */
  function DigitValue(c: char): nat {
    if '0' <= c <= '9' then (c as int - '0' as int) as nat else 0
  }

  /** The number a string of decimal digits denotes. */
  function DecimalValue(s: string): nat {
    if s == [] then 0 else 10 * DecimalValue(s[..|s| - 1]) + DigitValue(s[|s| - 1])
  }

  /** Decimal rendering of a non-negative integer, as `${n}` prints it: digits only, no leading zero,
      and reading the digits back gives `n`. */
  function NatToString(n: nat): (s: string)
    ensures 1 <= |s|
    ensures forall i :: 0 <= i < |s| ==> '0' <= s[i] <= '9'
    ensures n > 0 ==> s[0] != '0'
    ensures DecimalValue(s) == n
    decreases n
  {
    if n < 10 then
      var s := [DigitChar(n)];
      assert s[..0] == [];
      s
    else
      var prefix := NatToString(n / 10);
      var s := prefix + [DigitChar(n % 10)];
      assert s[..|s| - 1] == prefix;
      s
  }

  /** `s.endsWith(suffix)` */
  predicate EndsWith(s: string, suffix: string) {
    |suffix| <= |s| && s[|s| - |suffix|..] == suffix
  }

  /** `pat` occurs in `s` starting at index `i`. */
  predicate OccursAt(s: string, pat: string, i: nat) {
    i + |pat| <= |s| && s[i..i + |pat|] == pat
  }

  /** `s.indexOf(pat, from)`: the first occurrence at or after `from`, or -1. */
  function IndexOf(s: string, pat: string, from: nat): (r: int)
    ensures r == -1 || (from <= r && OccursAt(s, pat, r))
    ensures forall i: nat :: from <= i && (r == -1 || i < r) ==> !OccursAt(s, pat, i)
    decreases |s| - from
  {
    if from + |pat| > |s| then -1
    else if s[from..from + |pat|] == pat then from
    else IndexOf(s, pat, from + 1)
  }

  /** `s.replace(pat, '')` with a string pattern: removes the FIRST occurrence only. */
  function RemoveFirst(s: string, pat: string): (r: string)
    ensures (forall i: nat :: !OccursAt(s, pat, i)) ==> r == s
    ensures forall i: nat :: OccursAt(s, pat, i) && (forall j: nat :: j < i ==> !OccursAt(s, pat, j)) ==>
              r == s[..i] + s[i + |pat|..]
  {
    var i := IndexOf(s, pat, 0);
    if i == -1 then s else s[..i] + s[i + |pat|..]
  }
}
