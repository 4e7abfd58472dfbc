/** Optional values, and the search that produces them. */
module Wrappers {

  /** The model's stand-in for JavaScript's `undefined`. */
  datatype Option<+T> = None | Some(value: T)

  /**
   * `Array.prototype.find`: the first element of `s` that satisfies `p`,
   * or `None` when no element does.
   */
  function Find<T>(s: seq<T>, p: T -> bool): (r: Option<T>)
    ensures r.None? <==> forall i :: 0 <= i < |s| ==> !p(s[i])
    ensures r.Some? ==> r.value in s && p(r.value)
    decreases |s|
  {
    if |s| == 0 then None
    else if p(s[0]) then Some(s[0])
    else
      var rest := Find(s[1..], p);
      assert forall i :: 1 <= i < |s| ==> s[i] == s[1..][i - 1];
      rest
  }

  /** `Find` returns the first element that satisfies `p`. */
  lemma {:induction false} FindFirst<T>(s: seq<T>, p: T -> bool, i: int)
    requires 0 <= i < |s| && p(s[i])
    requires forall j :: 0 <= j < i ==> !p(s[j])
    ensures Find(s, p) == Some(s[i])
    decreases i
  {
    if i > 0 {
      assert s[1..][i - 1] == s[i];
      FindFirst(s[1..], p, i - 1);
    }
  }
}
