/** Small value wrappers shared by every module: an optional value, a value-or-error
    result, and the "first element that satisfies a test" search that every stage of
    the negotiation pipeline (and the result-name lookup) is built on. */
module Wrappers {

  datatype Option<+T> = None | Some(value: T)

  datatype Result<+T, +E> = Ok(value: T) | Err(error: E)

  /** A pass/fail gate that carries an error when it fails. */
  datatype Outcome<+E> = Pass | Fail(error: E)

  /** The index of the first element of `s` that satisfies `p`, if any.  This is the
      "scan in order, stop at the first hit" policy shared by the loops of the source. */
  function FirstWhere<T>(s: seq<T>, p: T -> bool): (r: Option<nat>)
    ensures r.Some? ==> r.value < |s| && p(s[r.value])
    ensures r.Some? ==> forall j :: 0 <= j < r.value ==> !p(s[j])
    ensures r.None? <==> forall j :: 0 <= j < |s| ==> !p(s[j])
  {
    if |s| == 0 then None
    else if p(s[0]) then Some(0)
    else match FirstWhere(s[1..], p)
      case None => None
      case Some(k) => Some(k + 1)
  }

  /** The first-match index is determined by the two facts FirstWhere promises: any
      index that satisfies `p` and has no earlier match is the one it returns. */
  lemma FirstWhereUnique<T>(s: seq<T>, p: T -> bool, k: nat)
    requires k < |s| && p(s[k])
    requires forall j :: 0 <= j < k ==> !p(s[j])
    ensures FirstWhere(s, p) == Some(k)
  {
  }
}
