/** Values shared by every module: optional JSON fields and the outcome of an upstream call. */
module Common {

  /** A JSON field that may be absent (`undefined` / `null`). */
  datatype Option<+T> = None | Some(value: T)

  /** What one upstream HTTP request produced: `fetch` or `res.json()` threw,
      the response status was not OK, or the body parsed to `payload`. */
  datatype Fetch<+T> = Threw | NotOk | Ok(payload: T)

  /** JavaScript's `x || 0` on an optional number: absent and zero both give 0. */
  function OrZero(x: Option<real>): (r: real)
    ensures x.None? ==> r == 0.0
    ensures x.Some? ==> r == x.value
  {
    if x.Some? then x.value else 0.0
  }

  /** JavaScript's `x || 0` on an optional integer. */
  function OrZeroInt(x: Option<int>): (r: int)
    ensures x.None? ==> r == 0
    ensures x.Some? ==> r == x.value
  {
    if x.Some? then x.value else 0
  }

  /** Truthiness of an optional string: present and non-empty. */
  predicate Truthy(s: Option<string>)
  {
    s.Some? && s.value != ""
  }

  /** `s || ''` on an optional string: the text when truthy, otherwise empty. */
  function OrEmpty(s: Option<string>): (t: string)
    ensures Truthy(s) <==> t != ""
    ensures t != "" ==> t == s.value
  {
    if Truthy(s) then s.value else ""
  }

  function Min(a: int, b: int): int { if a <= b then a else b }

  function Max(a: int, b: int): int { if a >= b then a else b }
}
