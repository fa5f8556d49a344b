/** Sequence helpers shared by the first-match searches of the model. */
module Seqs {
  import opened Outcomes

  /** The index of the first element satisfying `p`, as a Python
      `for ... : if p(x): break / else:` loop finds it. */
  function FirstIndex<T>(s: seq<T>, p: T -> bool): (r: Option<nat>)
    ensures r.Some? ==> r.value < |s| && p(s[r.value])
    ensures r.Some? ==> forall j :: 0 <= j < r.value ==> !p(s[j])
    ensures r.None? <==> forall j :: 0 <= j < |s| ==> !p(s[j])
  {
    if |s| == 0 then None
    else if p(s[0]) then Some(0)
    else
      match FirstIndex(s[1..], p)
      case None => None
      case Some(i) => Some(i + 1)
  }

  /** Two tests that agree on every element find the same first match. */
  lemma {:induction false} FirstIndexSame<T>(s: seq<T>, p: T -> bool, q: T -> bool)
    requires forall j :: 0 <= j < |s| ==> p(s[j]) == q(s[j])
    ensures FirstIndex(s, p) == FirstIndex(s, q)
  {
    if |s| > 0 {
      FirstIndexSame(s[1..], p, q);
    }
  }

  /** A prefix with no match only shifts the first match. */
  lemma {:induction false} FirstIndexSkip<T>(a: seq<T>, b: seq<T>, p: T -> bool)
    requires forall j :: 0 <= j < |a| ==> !p(a[j])
    ensures FirstIndex(a + b, p) == (match FirstIndex(b, p) case None => None case Some(i) => Some(i + |a|))
  {
    if |a| > 0 {
      assert (a + b)[1..] == a[1..] + b;
      assert (a + b)[0] == a[0];
      FirstIndexSkip(a[1..], b, p);
    } else {
      assert a + b == b;
    }
  }

  /** `n` copies of `x`. */
  function Repeat<T>(n: nat, x: T): (r: seq<T>)
    ensures |r| == n
    ensures forall i :: 0 <= i < n ==> r[i] == x
  {
    seq(n, _ => x)
  }

  lemma RepeatSucc<T>(n: nat, x: T)
    ensures [x] + Repeat(n, x) == Repeat(n + 1, x)
  {
  }
}
