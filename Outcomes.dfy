/**
 * Small value types shared by the whole model: an optional value, the outcome
 * of one awaited call (it either returns a value or throws an error whose
 * `message` may be empty), and the dynamically typed values that the
 * application passes around in attribute and parameter objects.
 */
module Outcomes {

  datatype Option<T> = None | Some(value: T)

  /** Either the awaited call returned `value`, or it threw an error with `message`. */
  datatype Call<T> = Returned(value: T) | Threw(message: string)

  /** `error.message || fallback`: the message, or the fallback when the message is empty. */
  function MessageOr(message: string, fallback: string): (r: string)
    ensures message != "" ==> r == message
    ensures message == "" ==> r == fallback
  {
    if message != "" then message else fallback
  }

  /** A JavaScript value as it appears in an attribute or parameter object. */
  datatype Value = Undefined | Null | Str(s: string) | Num(n: int) | Bool(b: bool)

  /** `v !== undefined && v !== null` */
  predicate IsPresent(v: Value) {
    !v.Undefined? && !v.Null?
  }

  /** `obj[key]` on a dictionary: a missing key reads as `undefined`. */
  function Lookup(obj: map<string, Value>, key: string): (v: Value)
    ensures key !in obj ==> v == Undefined
    ensures key in obj ==> v == obj[key]
  {
    if key in obj then obj[key] else Undefined
  }
}
