/** Values shared by the Python wrapper and the browser-side parser. */
module Common {

  datatype Option<T> = None | Some(value: T)

  datatype Result<T, E> = Success(value: T) | Failure(error: E)

  /** A label or group value as it travels through the JSON contract: an
      integer or a string. Structural equality of two Values stands for
      JavaScript's `===` on the values they serialise to, which holds for
      strings and for integers of magnitude at most 2^53. */
  datatype Value = Int(i: int) | Str(s: string)

  /** JavaScript indexing `s[i]`: the element, or `undefined` (None) past the end. */
  function At<T>(s: seq<T>, i: nat): (r: Option<T>)
    ensures r.Some? <==> i < |s|
    ensures r.Some? ==> r.value == s[i]
  {
    if i < |s| then Some(s[i]) else None
  }
}
