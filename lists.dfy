/** `Array.prototype.find` / `findIndex` and the `reduce` sum used by the dashboard. */
module Lists {
  import opened Common

  /** `s.findIndex(p)`: the first position whose element satisfies `p`, if any. */
  function FindIndex<T>(s: seq<T>, p: T -> bool): (r: Option<nat>)
    ensures r.Some? ==> r.value < |s| && p(s[r.value])
    ensures r.Some? ==> forall j :: 0 <= j < r.value ==> !p(s[j])
    ensures r.None? <==> forall j :: 0 <= j < |s| ==> !p(s[j])
  {
    if |s| == 0 then None
    else if p(s[0]) then Some(0)
    else
      match FindIndex(s[1..], p)
      case None => None
      case Some(k) => Some(k + 1)
  }

  /** `s.reduce((acc, x) => acc + f(x), acc)`: a left fold with an accumulator. */
  function SumFrom<T>(s: seq<T>, f: T -> nat, acc: nat): nat
  {
    if s == [] then acc else SumFrom(s[1..], f, acc + f(s[0]))
  }

  /** Reference definition of the sum of `f` over `s`. */
  function Sum<T>(s: seq<T>, f: T -> nat): nat
  {
    if s == [] then 0 else f(s[0]) + Sum(s[1..], f)
  }

  /** The fold starting at `acc` adds `acc` to the sum; from 0 it is the sum. */
  lemma {:induction false} SumFromIsSum<T>(s: seq<T>, f: T -> nat, acc: nat)
    ensures SumFrom(s, f, acc) == acc + Sum(s, f)
  {
    if s != [] {
      SumFromIsSum(s[1..], f, acc + f(s[0]));
    }
  }
}
