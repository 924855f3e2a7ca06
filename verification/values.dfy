/** Small value types and sequence helpers shared by every module of the model. */
module Values {

  /** A value that may be absent (JavaScript `null`, `undefined`, a missing key). */
  datatype Option<+T> = None | Some(value: T)

  /** A JavaScript number as produced by `parseFloat`: either "not a number" or a real value. */
  datatype Number = NaN | Num(value: real)

  /**
   * The outcome of an awaited call to the e-mail notification collaborator:
   * it either resolves to a boolean or throws (rejects).
   */
  datatype NotifyResult = Returned(sent: bool) | Threw

  /** JavaScript truthiness of a string: only the empty string is falsy. */
  predicate Present(s: Option<string>)
  {
    s.Some? && s.value != ""
  }

  /** `emailSent` after a notification attempt: a throw is caught and read as `false`. */
  predicate EmailSent(n: NotifyResult)
  {
    n == Returned(true)
  }

  /** `s.slice(-k)` for `k > 0`: the last `k` elements, or all of `s` when it is shorter. */
  function Last<T>(s: seq<T>, k: nat): (r: seq<T>)
    ensures |r| == if |s| <= k then |s| else k
    ensures s == s[..|s| - |r|] + r
  {
    if |s| <= k then s else s[|s| - k..]
  }
}
