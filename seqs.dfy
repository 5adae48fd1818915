/** Sequence operations that stand for the JavaScript array methods the
    system uses: `slice(-n)`, `slice(0, n)`, `reverse()` and
    `filter(p).length`. */
module Seqs {

  /** The newest `n` elements of `s`: JavaScript's `s.slice(-n)` for `n >= 1`. */
  function Last<T>(s: seq<T>, n: nat): (r: seq<T>)
    requires 0 < n
    ensures |r| == if |s| < n then |s| else n
    ensures s == s[..|s| - |r|] + r
  {
    if |s| <= n then s else s[|s| - n..]
  }

  /** The oldest `n` elements of `s`: JavaScript's `s.slice(0, n)`. */
  function Take<T>(s: seq<T>, n: nat): (r: seq<T>)
    ensures |r| == if |s| < n then |s| else n
    ensures s == r + s[|r|..]
  {
    if |s| <= n then s else s[..n]
  }

  /** Trimming to the newest `n` and then reading the newest `m <= n` is the
      same as reading the newest `m` of the untrimmed sequence. */
  lemma LastOfLast<T>(s: seq<T>, n: nat, m: nat)
    requires 0 < m <= n
    ensures Last(Last(s, n), m) == Last(s, m)
  {
    var t := Last(s, n);
    if |s| > n {
      assert t == s[|s| - n..];
      if |t| > m {
        assert t[|t| - m..] == s[|s| - m..];
      }
    }
  }

  /** Appending and trimming step by step keeps exactly the newest `n` of
      the whole history. */
  lemma LastAppend<T>(s: seq<T>, x: T, n: nat)
    requires 0 < n
    ensures Last(Last(s, n) + [x], n) == Last(s + [x], n)
  {
    var t := Last(s, n);
    if |s| > n {
      assert t == s[|s| - n..];
      assert (t + [x])[1..] == (s + [x])[|s| + 1 - n..];
    }
  }

  /** JavaScript's `reverse()` as a value. */
  function Reverse<T>(s: seq<T>): (r: seq<T>)
    ensures |r| == |s|
  {
    if s == [] then [] else [s[|s| - 1]] + Reverse(s[..|s| - 1])
  }

  lemma {:induction false} ReverseIndex<T>(s: seq<T>, i: nat)
    requires i < |s|
    ensures Reverse(s)[i] == s[|s| - 1 - i]
  {
    if i > 0 {
      ReverseIndex(s[..|s| - 1], i - 1);
    }
  }

  /** `s.filter(p).length`. */
  function CountIf<T>(s: seq<T>, p: T -> bool): (n: nat)
    ensures n <= |s|
  {
    if s == [] then 0 else CountIf(s[..|s| - 1], p) + (if p(s[|s| - 1]) then 1 else 0)
  }

  /** The count equals the number of positions whose element satisfies `p`. */
  lemma {:induction false} CountIfPositions<T>(s: seq<T>, p: T -> bool)
    ensures CountIf(s, p) == |set i | 0 <= i < |s| && p(s[i])|
  {
    if s != [] {
      var k := |s| - 1;
      CountIfPositions(s[..k], p);
      var before := set i | 0 <= i < k && p(s[..k][i]);
      var now := set i | 0 <= i < |s| && p(s[i]);
      assert before == set i | 0 <= i < k && p(s[i]);
      if p(s[k]) {
        assert now == before + {k};
      } else {
        assert now == before;
      }
    }
  }

  lemma {:induction false} CountIfAppend<T>(s: seq<T>, x: T, p: T -> bool)
    ensures CountIf(s + [x], p) == CountIf(s, p) + (if p(x) then 1 else 0)
  {
    assert (s + [x])[..|s|] == s;
  }

  /** Replacing one element changes the count by that element's contribution only. */
  lemma {:induction false} CountIfUpdate<T>(s: seq<T>, i: nat, x: T, p: T -> bool)
    requires i < |s|
    ensures CountIf(s[i := x], p)
         == CountIf(s, p) - (if p(s[i]) then 1 else 0) + (if p(x) then 1 else 0)
  {
    var k := |s| - 1;
    if i == k {
      assert s[i := x][..k] == s[..k];
    } else {
      CountIfUpdate(s[..k], i, x, p);
      assert s[i := x][..k] == s[..k][i := x];
    }
  }

  /** The elements of `s` that satisfy `p`. */
  function Satisfying<T>(s: seq<T>, p: T -> bool): set<T> {
    set x | x in s && p(x)
  }

  /** For a sequence without repeats, the count is the number of distinct
      elements that satisfy `p`. */
  lemma {:induction false} CountIfDistinct<T>(s: seq<T>, p: T -> bool)
    requires forall i, j :: 0 <= i < j < |s| ==> s[i] != s[j]
    ensures CountIf(s, p) == |Satisfying(s, p)|
  {
    if s != [] {
      var k := |s| - 1;
      var init, x := s[..k], s[k];
      CountIfDistinct(init, p);
      var before := Satisfying(init, p);
      var after := Satisfying(s, p);
      assert x !in init by {
        forall i | 0 <= i < k ensures init[i] != x { assert init[i] == s[i]; }
      }
      assert s == init + [x];
      forall y ensures y in after <==> y in before || (y == x && p(x)) {
        assert y in s <==> y in init || y == x;
      }
      if p(x) {
        assert after == before + {x};
      } else {
        assert after == before;
      }
    }
  }
}
