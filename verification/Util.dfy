/** Sequences without repetitions, optional values, and a little arithmetic. */
module Util {

  datatype Option<T> = None | Some(value: T)

  predicate Distinct<T(==)>(s: seq<T>) {
    forall i, j :: 0 <= i < j < |s| ==> s[i] != s[j]
  }

  /** Where `x` is, first. */
  function Index<T(==)>(s: seq<T>, x: T): (i: nat)
    requires x in s
    ensures i < |s| && s[i] == x
  {
    if s[0] == x then 0 else 1 + Index(s[1..], x)
  }

  /** `s` with `x` taken out, if it is there. */
  function Without<T(==)>(s: seq<T>, x: T): (r: seq<T>)
    ensures x !in s ==> r == s
    ensures |r| == if x in s then |s| - 1 else |s|
  {
    if x in s then s[..Index(s, x)] + s[Index(s, x) + 1..] else s
  }

  lemma WithoutAt<T>(s: seq<T>, x: T)
    requires x in s
    ensures forall k :: 0 <= k < |s| - 1 ==> Without(s, x)[k] == s[if k < Index(s, x) then k else k + 1]
  {
  }

  lemma WithoutFacts<T>(s: seq<T>, x: T)
    requires Distinct(s)
    ensures Distinct(Without(s, x))
    ensures forall y :: y in Without(s, x) <==> y in s && y != x
  {
    if x in s {
      WithoutAt(s, x);
      var i, w := Index(s, x), Without(s, x);
      hide Without, Index;
      forall y | y in s && y != x ensures y in w {
        var j :| 0 <= j < |s| && s[j] == y;
        assert w[if j < i then j else j - 1] == y;
      }
    }
  }

  lemma AddFacts<T>(s: seq<T>, x: T)
    requires Distinct(s) && x !in s
    ensures Distinct(s + [x]) && forall y :: y in s + [x] <==> y in s || y == x
  {
  }

  lemma TailFacts<T>(s: seq<T>)
    requires Distinct(s) && s != []
    ensures Distinct(s[1..]) && s[0] !in s[1..] && forall y :: y in s <==> y == s[0] || y in s[1..]
  {
    assert s == [s[0]] + s[1..];
  }

  lemma HeadOut<T>(s: seq<T>)
    requires s != []
    ensures Without(s, s[0]) == s[1..]
  {
    assert s[..0] == [];
  }

  /** `s` with `x` put in at `k`. */
  function InsertAt<T>(s: seq<T>, k: nat, x: T): (r: seq<T>)
    requires k <= |s|
    ensures |r| == |s| + 1 && r[k] == x
    ensures forall i :: 0 <= i < k ==> r[i] == s[i]
    ensures forall i :: k < i <= |s| ==> r[i] == s[i - 1]
  {
    s[..k] + [x] + s[k..]
  }

  lemma Times(a: nat, b: nat, x: nat)
    requires a <= b
    ensures a * x <= b * x && x * a <= x * b
  {
  }
}
