/** Finite sums over a sequence, and how they react to appending, updating and removing an element. */
module Sums {

  datatype Option<+T> = None | Some(value: T)

  function Sum<T>(s: seq<T>, f: T -> int): int {
    if s == [] then 0 else Sum(s[..|s| - 1], f) + f(s[|s| - 1])
  }

  lemma SumAppend<T>(s: seq<T>, x: T, f: T -> int)
    ensures Sum(s + [x], f) == Sum(s, f) + f(x)
  {
    assert (s + [x])[..|s|] == s;
  }

  lemma {:induction false} SumUpdate<T>(s: seq<T>, i: nat, x: T, f: T -> int)
    requires i < |s|
    ensures Sum(s[i := x], f) == Sum(s, f) - f(s[i]) + f(x)
  {
    var n := |s| - 1;
    if i == n {
      assert s[i := x][..n] == s[..n];
    } else {
      assert s[i := x][..n] == s[..n][i := x];
      SumUpdate(s[..n], i, x, f);
    }
  }

  lemma {:induction false} SumLe<S, T>(s: seq<S>, t: seq<T>, f: S -> int, g: T -> int)
    requires |s| == |t|
    requires forall i :: 0 <= i < |s| ==> f(s[i]) <= g(t[i])
    ensures Sum(s, f) <= Sum(t, g)
  {
    if s != [] {
      SumLe(s[..|s| - 1], t[..|t| - 1], f, g);
    }
  }

  lemma SumEq<S, T>(s: seq<S>, t: seq<T>, f: S -> int, g: T -> int)
    requires |s| == |t|
    requires forall i :: 0 <= i < |s| ==> f(s[i]) == g(t[i])
    ensures Sum(s, f) == Sum(t, g)
  {
    SumLe(s, t, f, g);
    SumLe(t, s, g, f);
  }

  lemma {:induction false} SumNonNegative<T>(s: seq<T>, f: T -> int)
    requires forall i :: 0 <= i < |s| ==> 0 <= f(s[i])
    ensures 0 <= Sum(s, f)
  {
    if s != [] {
      SumNonNegative(s[..|s| - 1], f);
    }
  }

  /** A sum of terms each at most c per unit counted by g is at most c times the count. */
  lemma {:induction false} SumAtMost<T>(s: seq<T>, f: T -> int, g: T -> int, c: nat)
    requires forall i :: 0 <= i < |s| ==> f(s[i]) <= c * g(s[i])
    ensures Sum(s, f) <= c * Sum(s, g)
  {
    if s != [] {
      var n := |s| - 1;
      SumAtMost(s[..n], f, g, c);
      assert c * Sum(s, g) == c * Sum(s[..n], g) + c * g(s[n]);
    }
  }

  lemma {:induction false} SumConcat<T>(s: seq<T>, t: seq<T>, f: T -> int)
    ensures Sum(s + t, f) == Sum(s, f) + Sum(t, f)
  {
    if t == [] {
      assert s + t == s;
    } else {
      var n := |t| - 1;
      assert (s + t)[..|s + t| - 1] == s + t[..n];
      SumConcat(s, t[..n], f);
    }
  }

  lemma {:induction false} SumSplit<T>(s: seq<T>, i: nat, f: T -> int)
    requires i < |s|
    ensures Sum(s, f) == Sum(s[..i], f) + f(s[i]) + Sum(s[i + 1..], f)
  {
    var n := |s| - 1;
    if i < n {
      SumSplit(s[..n], i, f);
      assert s[..n][..i] == s[..i];
      assert s[i + 1..] == s[..n][i + 1..] + [s[n]];
      SumAppend(s[..n][i + 1..], s[n], f);
    }
  }

  function Without<T>(s: seq<T>, i: nat): seq<T>
    requires i < |s|
  {
    s[..i] + s[i + 1..]
  }

  lemma SumWithout<T>(s: seq<T>, i: nat, f: T -> int)
    requires i < |s|
    ensures Sum(Without(s, i), f) == Sum(s, f) - f(s[i])
  {
    SumSplit(s, i, f);
    SumConcat(s[..i], s[i + 1..], f);
  }

  lemma SumWithoutBoth<T>(s: seq<T>, i: nat, j: nat, f: T -> int)
    requires i < j < |s|
    ensures Sum(Without(Without(s, j), i), f) == Sum(s, f) - f(s[j]) - f(s[i])
  {
    SumWithout(s, j, f);
    assert Without(s, j)[i] == s[i];
    SumWithout(Without(s, j), i, f);
  }
}
