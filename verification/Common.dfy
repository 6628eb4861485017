/** Shared vocabulary: optional and failing results, and sums over table rows. */
module Common {

  datatype Option<+T> = None | Some(value: T)

  datatype Result<+T, +E> = Success(value: T) | Failure(error: E)

  /** The sum of f over the rows of s. */
  function Sum<T>(s: seq<T>, f: T -> int): int {
    if |s| == 0 then 0 else Sum(s[..|s| - 1], f) + f(s[|s| - 1])
  }

  lemma SumAppend<T>(s: seq<T>, x: T, f: T -> int)
    ensures Sum(s + [x], f) == Sum(s, f) + f(x)
  {
    assert (s + [x])[..|s|] == s;
  }

  lemma {:induction false} SumConcat<T>(s: seq<T>, t: seq<T>, f: T -> int)
    ensures Sum(s + t, f) == Sum(s, f) + Sum(t, f)
    decreases |t|
  {
    if |t| == 0 {
      assert s + t == s;
    } else {
      var t', x := t[..|t| - 1], t[|t| - 1];
      assert s + t == (s + t') + [x];
      SumConcat(s, t', f);
      SumAppend(s + t', x, f);
    }
  }

  /** Updating one row changes the sum by exactly that row's difference. */
  lemma {:induction false} SumUpdate<T>(s: seq<T>, i: nat, x: T, f: T -> int)
    requires i < |s|
    ensures Sum(s[i := x], f) == Sum(s, f) - f(s[i]) + f(x)
    decreases |s|
  {
    var n := |s| - 1;
    if i == n {
      assert s[i := x][..n] == s[..n];
    } else {
      assert s[i := x][..n] == s[..n][i := x];
      SumUpdate(s[..n], i, x, f);
    }
  }

  /** Weights that agree on every row of s give the same sum. */
  lemma {:induction false} SumCong<T>(s: seq<T>, f: T -> int, g: T -> int)
    requires forall i :: 0 <= i < |s| ==> f(s[i]) == g(s[i])
    ensures Sum(s, f) == Sum(s, g)
    decreases |s|
  {
    if |s| > 0 {
      SumCong(s[..|s| - 1], f, g);
    }
  }

  lemma {:induction false} SumZero<T>(s: seq<T>, f: T -> int)
    requires forall i :: 0 <= i < |s| ==> f(s[i]) == 0
    ensures Sum(s, f) == 0
    decreases |s|
  {
    if |s| > 0 {
      SumZero(s[..|s| - 1], f);
    }
  }

  /** A sum of non-negative weights is at least each of its terms. */
  lemma {:induction false} SumAtLeast<T>(s: seq<T>, k: nat, f: T -> int)
    requires forall i :: 0 <= i < |s| ==> 0 <= f(s[i])
    ensures 0 <= Sum(s, f)
    ensures k < |s| ==> f(s[k]) <= Sum(s, f)
    decreases |s|
  {
    if |s| > 0 {
      SumAtLeast(s[..|s| - 1], k, f);
    }
  }

  lemma SumTwo<T>(a: T, b: T, f: T -> int)
    ensures Sum([a, b], f) == f(a) + f(b)
  {
    SumAppend([a], b, f);
    SumAppend([], a, f);
    assert [] + [a] == [a] && [a] + [b] == [a, b];
  }

  lemma SumFour<T>(a: T, b: T, c: T, d: T, f: T -> int)
    ensures Sum([a, b, c, d], f) == f(a) + f(b) + f(c) + f(d)
  {
    assert [a, b, c, d] == [a, b] + [c, d];
    SumConcat([a, b], [c, d], f);
    SumTwo(a, b, f);
    SumTwo(c, d, f);
  }
}
