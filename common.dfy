/** Small shared vocabulary: optional values, results with an error, and the
    first-match search that JavaScript's `Array.prototype.find` performs. */
module Common {

  datatype Option<+T> = None | Some(value: T)

  /** The outcome of a step that either yields a value or throws an error. */
  datatype Result<+T, +E> = Ok(value: T) | Err(error: E)

  /** Index of the first element of `s` satisfying `p`, if any. `find` in the
      source returns the element at this index, or `undefined` for None. */
  function FindIndex<T>(s: seq<T>, p: T -> bool): (r: Option<nat>)
    ensures r.Some? ==> r.value < |s| && p(s[r.value])
    ensures r.Some? ==> forall j :: 0 <= j < r.value ==> !p(s[j])
    ensures r.None? <==> forall j :: 0 <= j < |s| ==> !p(s[j])
  {
    if |s| == 0 then None
    else if p(s[0]) then Some(0)
    else
      match FindIndex(s[1..], p)
      case None => None
      case Some(i) => Some(i + 1)
  }

  /** The element `find` returns. */
  function Find<T>(s: seq<T>, p: T -> bool): (r: Option<T>)
    ensures r.Some? ==> r.value in s && p(r.value)
    ensures r.None? <==> forall j :: 0 <= j < |s| ==> !p(s[j])
    ensures r.Some? ==> exists k :: 0 <= k < |s| && s[k] == r.value && forall j :: 0 <= j < k ==> !p(s[j])
  {
    match FindIndex(s, p)
    case None => None
    case Some(i) => Some(s[i])
  }
}
