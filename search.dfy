/**
 * The search boxes of the dashboard: keep the entries whose lower-cased
 * display text includes the lower-cased query, in their original order.
 */
module Search {
  import opened Text

  /** `key.toLowerCase().includes(query.toLowerCase())` */
  function Matches(key: string, query: string): bool {
    Contains(ToLower(key), ToLower(query))
  }

  /** `s.filter(x => Matches(key(x), query))` */
  function Filter<T>(s: seq<T>, key: T -> string, query: string): (r: seq<T>)
    ensures |r| <= |s|
    ensures forall i :: 0 <= i < |r| ==> r[i] in s && Matches(key(r[i]), query)
    ensures forall j :: 0 <= j < |s| && Matches(key(s[j]), query) ==> s[j] in r
  {
    if s == [] then []
    else if Matches(key(s[0]), query) then [s[0]] + Filter(s[1..], key, query)
    else Filter(s[1..], key, query)
  }

  /** `idx` lists, in increasing order, the positions in `s` that make up `r`. */
  ghost predicate SubsequenceAt<T>(r: seq<T>, s: seq<T>, idx: seq<nat>) {
    && |idx| == |r|
    && (forall k :: 0 <= k < |idx| ==> idx[k] < |s| && r[k] == s[idx[k]])
    && (forall k, l :: 0 <= k < l < |idx| ==> idx[k] < idx[l])
  }

  function Shift(idx: seq<nat>): (r: seq<nat>)
    ensures |r| == |idx| && forall k :: 0 <= k < |idx| ==> r[k] == idx[k] + 1
  {
    if idx == [] then [] else [idx[0] + 1] + Shift(idx[1..])
  }

  /** Positions into `s[1..]` become positions into `s`. */
  lemma ShiftedSubsequence<T>(r: seq<T>, s: seq<T>, tail: seq<nat>)
    requires |s| > 0 && SubsequenceAt(r, s[1..], tail)
    ensures SubsequenceAt(r, s, Shift(tail))
    ensures SubsequenceAt([s[0]] + r, s, [0] + Shift(tail))
  {
    var shifted := Shift(tail);
    forall k | 0 <= k < |shifted|
      ensures shifted[k] < |s| && r[k] == s[shifted[k]]
    {
      assert r[k] == s[1..][tail[k]];
    }
    var idx := [0] + shifted;
    forall k | 0 <= k < |idx|
      ensures idx[k] < |s| && ([s[0]] + r)[k] == s[idx[k]]
    {
      if k > 0 {
        assert idx[k] == shifted[k - 1];
      }
    }
  }

  /** A position of `s[1..]` is in `tail` exactly when its successor is in `Shift(tail)`. */
  lemma ShiftedMembership(tail: seq<nat>, j: nat)
    requires j > 0
    ensures j - 1 in tail <==> j in Shift(tail)
  {
    var shifted := Shift(tail);
    if j - 1 in tail {
      var k :| 0 <= k < |tail| && tail[k] == j - 1;
      assert shifted[k] == j;
    }
    if j in shifted {
      var k :| 0 <= k < |shifted| && shifted[k] == j;
      assert tail[k] == j - 1;
    }
  }

  /**
   * The filter keeps exactly the matching positions, in order: its result is
   * the subsequence of `s` at the increasing positions `idx`, and a position
   * is in `idx` exactly when its entry matches.
   */
  lemma {:induction false} FilterIsOrderedSelection<T>(s: seq<T>, key: T -> string, query: string)
    returns (idx: seq<nat>)
    ensures SubsequenceAt(Filter(s, key, query), s, idx)
    ensures forall j :: 0 <= j < |s| ==> (j in idx <==> Matches(key(s[j]), query))
  {
    if s == [] {
      idx := [];
    } else {
      var tail := FilterIsOrderedSelection(s[1..], key, query);
      ShiftedSubsequence(Filter(s[1..], key, query), s, tail);
      var shifted := Shift(tail);
      var head := Matches(key(s[0]), query);
      idx := if head then [0] + shifted else shifted;
      assert 0 in idx <==> head;
      forall j | 0 < j < |s|
        ensures j in idx <==> Matches(key(s[j]), query)
      {
        assert s[j] == s[1..][j - 1];
        ShiftedMembership(tail, j);
      }
    }
  }

  /** An empty query keeps everything. */
  lemma {:induction false} FilterEmptyQuery<T>(s: seq<T>, key: T -> string)
    ensures Filter(s, key, "") == s
  {
    if s != [] {
      ContainsEmpty(ToLower(key(s[0])));
      FilterEmptyQuery(s[1..], key);
    }
  }
}
