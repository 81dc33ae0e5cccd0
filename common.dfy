/** Generic building blocks of the model: an optional value, and the three
    JavaScript array methods the dashboard's logic is written with
    (`filter`, `some`, `find`), each specified by what it computes. */
module Common {

  datatype Option<+T> = None | Some(value: T) {
    /** The value, or `default` when there is none (JavaScript's `x || d`
        when `x` is the result of a parse). */
    function GetOr(default: T): T {
      match this
      case Some(v) => v
      case None => default
    }
  }

  /** `r` is obtained from `s` by dropping elements, keeping the others in
      their original order. */
  ghost predicate IsSubsequence<T>(r: seq<T>, s: seq<T>)
    decreases |s|
  {
    if |r| == 0 then true
    else if |s| == 0 then false
    else (r[|r| - 1] == s[|s| - 1] && IsSubsequence(r[..|r| - 1], s[..|s| - 1]))
         || IsSubsequence(r, s[..|s| - 1])
  }

  /** `Array.prototype.filter`: the elements of `s` that `keep` accepts, in order. */
  function Filter<T>(s: seq<T>, keep: T -> bool): (r: seq<T>)
    ensures |r| <= |s|
    ensures forall i :: 0 <= i < |r| ==> r[i] in s && keep(r[i])
    ensures forall i :: 0 <= i < |s| && keep(s[i]) ==> s[i] in r
    ensures IsSubsequence(r, s)
  {
    if |s| == 0 then []
    else
      var front := s[..|s| - 1];
      var last := s[|s| - 1];
      assert s == front + [last];
      var rest := Filter(front, keep);
      var r := rest + (if keep(last) then [last] else []);
      assert keep(last) ==> r[..|r| - 1] == rest && r[|r| - 1] == last;
      assert IsSubsequence(r, s) by {
        if !keep(last) && |r| > 0 {
          assert r == rest && s[..|s| - 1] == front;
        }
      }
      r
  }

  /** How `Filter` treats the last element. */
  lemma FilterLast<T>(s: seq<T>, keep: T -> bool)
    requires |s| > 0
    ensures Filter(s, keep) == Filter(s[..|s| - 1], keep) + (if keep(s[|s| - 1]) then [s[|s| - 1]] else [])
  {
  }

  /** The negation of a predicate. */
  function Not<T>(keep: T -> bool): T -> bool {
    x => !keep(x)
  }

  /** Filtering on a predicate and on its negation splits the list: the two
      results account for every element exactly once. */
  lemma {:induction false} FilterPartition<T>(s: seq<T>, keep: T -> bool)
    ensures |Filter(s, keep)| + |Filter(s, Not(keep))| == |s|
  {
    if |s| > 0 {
      FilterPartition(s[..|s| - 1], keep);
    }
  }

  /** A filter whose predicate accepts every element returns the list itself. */
  lemma {:induction false} FilterKeepsAll<T>(s: seq<T>, keep: T -> bool)
    requires forall i :: 0 <= i < |s| ==> keep(s[i])
    ensures Filter(s, keep) == s
  {
    if |s| > 0 {
      FilterKeepsAll(s[..|s| - 1], keep);
      assert s == s[..|s| - 1] + [s[|s| - 1]];
    }
  }

  /** Two predicates that agree on the elements of `s` filter it alike. */
  lemma {:induction false} FilterCongruent<T>(s: seq<T>, f: T -> bool, g: T -> bool)
    requires forall i :: 0 <= i < |s| ==> f(s[i]) == g(s[i])
    ensures Filter(s, f) == Filter(s, g)
  {
    if |s| > 0 {
      FilterCongruent(s[..|s| - 1], f, g);
    }
  }

  /** `Array.prototype.some`: whether some element satisfies `p`. */
  function Any<T>(s: seq<T>, p: T -> bool): (r: bool)
    ensures r <==> exists i :: 0 <= i < |s| && p(s[i])
  {
    if |s| == 0 then false
    else if p(s[0]) then true
    else
      assert forall i :: 0 < i < |s| ==> s[i] == s[1..][i - 1];
      Any(s[1..], p)
  }

  /** Index `i` is the first position of `s` whose element satisfies `p`. */
  ghost predicate FirstMatch<T>(s: seq<T>, p: T -> bool, i: int) {
    0 <= i < |s| && p(s[i]) && forall j :: 0 <= j < i ==> !p(s[j])
  }

  lemma FirstMatchShift<T>(s: seq<T>, p: T -> bool)
    requires |s| > 0 && !p(s[0])
    ensures forall i :: FirstMatch(s[1..], p, i) ==> FirstMatch(s, p, i + 1) && s[i + 1] == s[1..][i]
  {
    forall i | FirstMatch(s[1..], p, i)
      ensures FirstMatch(s, p, i + 1)
    {
      forall j | 0 <= j < i + 1 ensures !p(s[j]) {
        if j > 0 { assert s[j] == s[1..][j - 1]; }
      }
    }
  }

  /** `Array.prototype.find`: the first element satisfying `p`, if any. */
  function Find<T>(s: seq<T>, p: T -> bool): (r: Option<T>)
    ensures r.None? <==> forall i :: 0 <= i < |s| ==> !p(s[i])
    ensures r.Some? ==> exists i :: FirstMatch(s, p, i) && s[i] == r.value
  {
    if |s| == 0 then None
    else if p(s[0]) then
      assert FirstMatch(s, p, 0);
      Some(s[0])
    else
      FirstMatchShift(s, p);
      assert forall i :: 0 < i < |s| ==> s[i] == s[1..][i - 1];
      Find(s[1..], p)
  }

  /** There is at most one first match. */
  lemma FirstMatchUnique<T>(s: seq<T>, p: T -> bool, i: int, j: int)
    requires FirstMatch(s, p, i) && FirstMatch(s, p, j)
    ensures i == j
  {
  }
}
