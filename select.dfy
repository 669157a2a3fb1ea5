/**
 * Index selection over a vector of reals with the tie-breaking of the tensor
 * library: when several entries are extreme, the first of them is chosen.
 */
module Select {

  /** `i` is the first position holding the smallest value of `s`. */
  predicate IsFirstArgmin(s: seq<real>, i: nat)
  {
    i < |s| &&
    (forall j :: 0 <= j < |s| ==> s[i] <= s[j]) &&
    (forall j :: 0 <= j < i ==> s[i] < s[j])
  }

  /** The stable argmin of a non-empty vector (torch.argmin). */
  function FirstArgmin(s: seq<real>): (r: nat)
    requires |s| > 0
    ensures IsFirstArgmin(s, r)
    decreases |s|
  {
    if |s| == 1 then 0
    else
      var r' := FirstArgmin(s[..|s| - 1]);
      if s[|s| - 1] < s[r'] then |s| - 1 else r'
  }

  /** The stable argmin is the only index with the stable-argmin property. */
  lemma FirstArgminUnique(s: seq<real>, i: nat)
    requires |s| > 0
    ensures IsFirstArgmin(s, i) <==> i == FirstArgmin(s)
  {
  }

  function Negated(s: seq<real>): (r: seq<real>)
    ensures |r| == |s|
    ensures forall j :: 0 <= j < |s| ==> r[j] == -s[j]
  {
    seq(|s|, j requires 0 <= j < |s| => -s[j])
  }

  /** The stable argmax of a non-empty vector (torch.argmax). */
  function FirstArgmax(s: seq<real>): (r: nat)
    requires |s| > 0
    ensures r < |s|
    ensures forall j :: 0 <= j < |s| ==> s[j] <= s[r]
    ensures forall j :: 0 <= j < r ==> s[j] < s[r]
  {
    var n := Negated(s);
    var r := FirstArgmin(n);
    assert forall j :: 0 <= j < |s| ==> n[r] <= n[j];
    r
  }
}
