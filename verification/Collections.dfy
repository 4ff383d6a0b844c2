/** Facts about sequences shared by the models: duplicate-free sequences and sums. */
module Collections {

  datatype Option<+T> = None | Some(value: T)

  function Max(x: int, y: int): int {
    if x < y then y else x
  }

  function Min(x: int, y: int): int {
    if x < y then x else y
  }

  ghost predicate Distinct<T>(q: seq<T>) {
    forall j, k :: 0 <= j < k < |q| ==> q[j] != q[k]
  }

  ghost predicate Below(q: seq<nat>, n: nat) {
    forall k :: 0 <= k < |q| ==> q[k] < n
  }

  function RemoveAt<T>(q: seq<T>, k: nat): seq<T>
    requires k < |q|
  {
    q[..k] + q[k + 1..]
  }

  lemma RemoveAtMembers<T>(q: seq<T>, k: nat)
    requires k < |q| && Distinct(q)
    ensures Distinct(RemoveAt(q, k))
    ensures forall x :: x in RemoveAt(q, k) <==> x in q && x != q[k]
  {
    var r := RemoveAt(q, k);
    forall x | x in q && x != q[k]
      ensures x in r
    {
      var j :| 0 <= j < |q| && q[j] == x;
      assert r[if j < k then j else j - 1] == x;
    }
  }

  lemma RemoveAtElements<T>(q: seq<T>, k: nat)
    requires k < |q|
    ensures var r := RemoveAt(q, k);
            && |r| == |q| - 1
            && (forall m :: 0 <= m < k ==> r[m] == q[m])
            && (forall m :: k <= m < |r| ==> r[m] == q[m + 1])
  {
  }

  /** Moves the element at position k to the end. */
  function ToEnd<T>(q: seq<T>, k: nat): seq<T>
    requires k < |q|
  {
    q[..k] + q[k + 1..] + [q[k]]
  }

  lemma ToEndElements<T>(q: seq<T>, k: nat)
    requires k < |q|
    ensures var r := ToEnd(q, k);
            && |r| == |q| && r[|r| - 1] == q[k]
            && (forall m :: 0 <= m < k ==> r[m] == q[m])
            && (forall m :: k <= m < |q| - 1 ==> r[m] == q[m + 1])
  {
  }

  lemma HasMember<T>(q: seq<T>)
    requires q != []
    ensures exists x :: x in q
  {
    assert q[0] in q;
  }

  lemma DistinctConcat<T>(q: seq<T>, r: seq<T>)
    requires Distinct(q) && Distinct(r)
    requires forall x :: x in q ==> x !in r
    ensures Distinct(q + r)
  {
    var c := q + r;
    forall j, k | 0 <= j < k < |c| ensures c[j] != c[k] {
      if j < |q| <= k { assert q[j] in q && r[k - |q|] in r; }
    }
  }

  lemma RemoveAtBelow(q: seq<nat>, k: nat, n: nat)
    requires k < |q| && Below(q, n)
    ensures Below(RemoveAt(q, k), n)
  {
  }

  lemma DistinctSize(q: seq<nat>, n: nat)
    requires Distinct(q) && Below(q, n)
    ensures |q| <= n
    ensures |q| == n ==> forall i :: 0 <= i < n ==> i in q
    decreases n
  {
    if q == [] {
    } else if q[0] < n && n - 1 in q {
      var k :| 0 <= k < |q| && q[k] == n - 1;
      RemoveAtMembers(q, k);
      var r := RemoveAt(q, k);
      forall j | 0 <= j < |r| ensures r[j] < n - 1 { assert r[j] in r; assert r[j] in q; }
      DistinctSize(r, n - 1);
      assert forall i :: i in r ==> i in q;
    } else {
      forall j | 0 <= j < |q| ensures q[j] < n - 1 { assert q[j] in q; }
      DistinctSize(q, n - 1);
    }
  }

  /** The sum of f over a sequence. */
  function SumBy<T>(q: seq<T>, f: T -> int): int {
    if q == [] then 0 else SumBy(q[..|q| - 1], f) + f(q[|q| - 1])
  }

  lemma {:induction false} SumUpdate<T>(q: seq<T>, i: nat, x: T, f: T -> int)
    requires i < |q|
    ensures SumBy(q[i := x], f) == SumBy(q, f) - f(q[i]) + f(x)
  {
    var r := q[i := x];
    if i == |q| - 1 {
      assert r[..|r| - 1] == q[..|q| - 1];
    } else {
      assert r[..|r| - 1] == q[..|q| - 1][i := x];
      SumUpdate(q[..|q| - 1], i, x, f);
    }
  }

  /** Pointwise comparison of two sums; strict when some position is strict. */
  lemma {:induction false} SumCompare<T, U>(q: seq<T>, r: seq<U>, f: T -> int, g: U -> int)
    requires |q| == |r|
    requires forall i :: 0 <= i < |q| ==> f(q[i]) <= g(r[i])
    ensures SumBy(q, f) <= SumBy(r, g)
    ensures (exists i :: 0 <= i < |q| && f(q[i]) < g(r[i])) ==> SumBy(q, f) < SumBy(r, g)
  {
    if q != [] {
      SumCompare(q[..|q| - 1], r[..|r| - 1], f, g);
      if i :| 0 <= i < |q| && f(q[i]) < g(r[i]) {
        if i < |q| - 1 {
          assert q[..|q| - 1][i] == q[i] && r[..|r| - 1][i] == r[i];
        }
      }
    }
  }
}
