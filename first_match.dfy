/** First-match search, the selection rule shared by Python's `except`
    clauses (tried top to bottom) and Tornado's routing rules (tried in
    the order the application lists them). */
module FirstMatch {

  /** The index of the first element of `xs` that satisfies `p`, or `|xs|`
      when no element does. */
  function FirstIndex<T>(xs: seq<T>, p: T -> bool): (k: nat)
    ensures k <= |xs|
    ensures k < |xs| ==> p(xs[k])
    ensures forall j :: 0 <= j < k ==> !p(xs[j])
  {
    if xs == [] then 0
    else if p(xs[0]) then 0
    else
      var k' := FirstIndex(xs[1..], p);
      assert forall j :: 1 <= j < 1 + k' ==> xs[j] == xs[1..][j - 1];
      1 + k'
  }
}
