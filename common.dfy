/** Value types shared by every part of the model: optional values, the outcome of a
    request whose network result is an input of the model, and the small sequence and
    string helpers that the pages use to build their messages. */
module Common {

  /** JavaScript's `null`/`undefined` for a value that may be absent. */
  datatype Option<+T> = None | Some(value: T)

  /** How an awaited request ended: resolved, or rejected with an Error whose
      `message` may be empty. */
  datatype Outcome = Succeeded | Failed(message: string)

  /** The verdict of a form's checks: the payload it submits, or the message it shows. */
  datatype Checked<+T> = Accepted(payload: T) | Rejected(message: string)

  /** `err.message || fallback`: an empty message is falsy and gives way to the fallback. */
  function MessageOr(message: string, fallback: string): (r: string)
    ensures message != "" ==> r == message
    ensures message == "" ==> r == fallback
  {
    if message != "" then message else fallback
  }

  function Min(a: int, b: int): int { if a <= b then a else b }

  function Max(a: int, b: int): int { if a >= b then a else b }

  /** `s.slice(0, n)`: the first `n` elements, or all of them when there are fewer. */
  function Take<T>(s: seq<T>, n: nat): (r: seq<T>)
    ensures |r| == Min(n, |s|)
    ensures r == s[..|r|]
  {
    if |s| <= n then s else s[..n]
  }

  /** `parts.join(sep)`. */
  function Join(parts: seq<string>, sep: string): string
  {
    if |parts| == 0 then ""
    else if |parts| == 1 then parts[0]
    else parts[0] + sep + Join(parts[1..], sep)
  }

  function DigitChar(d: nat): char
    requires d < 10
  {
    "0123456789"[d]
  }

  /** Decimal rendering of a natural number, as a template literal prints it. */
  function NatToString(n: nat): (r: string)
    ensures |r| >= 1
    decreases n
  {
    if n < 10 then [DigitChar(n)] else NatToString(n / 10) + [DigitChar(n % 10)]
  }

  /** Decimal rendering of an integer, with a leading '-' for a negative one. */
  function IntToString(i: int): string
  {
    if i < 0 then "-" + NatToString(-i) else NatToString(i)
  }
}
