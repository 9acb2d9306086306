/** Finite sequences as the switchboard's linked lists use them. */
module Sequences {

  datatype Option<+T> = None | Some(value: T)

  ghost predicate Distinct<T>(q: seq<T>) {
    forall i, j :: 0 <= i < j < |q| ==> q[i] != q[j]
  }

  function Last<T>(q: seq<T>): T
    requires q != []
  {
    q[|q| - 1]
  }

  /** `q` after the element `x`, if it is there, has been taken off the list. */
  function Without<T(==,!new)>(q: seq<T>, x: T): (r: seq<T>)
    ensures forall y :: y in r <==> y in q && y != x
    ensures |r| <= |q|
    ensures x in q ==> |r| < |q|
    ensures x !in q ==> r == q
    ensures Distinct(q) ==> Distinct(r)
    ensures q != [] && Last(q) != x ==> r != [] && Last(r) == Last(q)
  {
    if q == [] then []
    else
      assert forall y :: y in q <==> y == q[0] || y in q[1..];
      assert Distinct(q) ==> Distinct(q[1..]) && q[0] !in q[1..];
      var rest := Without(q[1..], x);
      if q[0] == x then rest else [q[0]] + rest
  }

  /** In a list without repetitions, taking off the element at `i` closes the gap. */
  lemma {:induction false} WithoutAt<T(!new)>(q: seq<T>, i: nat)
    requires Distinct(q) && i < |q|
    ensures Without(q, q[i]) == q[..i] + q[i + 1..]
    decreases |q|
  {
    hide Without, Distinct;
    var rest := q[1..];
    WithoutHead(q, q[i]);
    DistinctTail(q, i);
    if i == 0 {
      assert q[..0] + q[1..] == rest;
      assert [] + rest == rest;
    } else {
      WithoutAt(rest, i - 1);
      CloseGap(q, i);
    }
  }

  lemma CloseGap<T>(q: seq<T>, i: nat)
    requires 0 < i < |q|
    ensures [q[0]] + (q[1..][..i - 1] + q[1..][i..]) == q[..i] + q[i + 1..]
  {
  }

  lemma WithoutHead<T(!new)>(q: seq<T>, x: T)
    requires q != []
    ensures Without(q, x) == (if q[0] == x then [] else [q[0]]) + Without(q[1..], x)
  {
  }

  lemma DistinctTail<T(!new)>(q: seq<T>, i: nat)
    requires Distinct(q) && i < |q|
    ensures Distinct(q[1..]) && (i > 0 ==> q[0] != q[i] && q[1..][i - 1] == q[i])
    ensures i == 0 ==> Without(q[1..], q[0]) == q[1..]
  {
    hide Without;
    assert q[0] !in q[1..];
  }
}
