/** Who is served when: the choice of `svrservice`, the order of the queues, and who may be woken. */
module Order {
  import opened Sequences
  import opened Board
  import opened Departure

  // ---------- the earliest call ----------

  function HeadArrival(s: Board, v: Id): int
    requires HeadIsCall(s, v)
  {
    s.calls[FirstCall(s, v)].arrival
  }

  /** No head that is examined would replace the one that is kept. */
  lemma {:induction false} NoneReplacesPick(fx: Fixes, s: Board, order: seq<Id>, best: Option<Id>)
    requires CastsHold(s, order)
    requires best.Some? ==> CallsWaiting(s, best.value) && HeadIsCall(s, best.value)
    ensures var r := FindEarliest(fx, s, order, best);
      && (best.Some? ==> r.Some? && !Replaces(fx, HeadArrival(s, r.value), HeadArrival(s, best.value)))
      && (forall v :: v in order && CallsWaiting(s, v) && HeadIsCall(s, v) ==>
            r.Some? && !Replaces(fx, HeadArrival(s, r.value), HeadArrival(s, v)))
    decreases |order|
  {
    if order != [] {
      var v := order[0];
      var taken := CallsWaiting(s, v) && (best.None? || Replaces(fx, HeadArrival(s, best.value), HeadArrival(s, v)));
      assert CastsHold(s, order[1..]) by { assert forall i :: 0 <= i < |order| - 1 ==> order[1..][i] == order[i + 1]; }
      assert CallsWaiting(s, v) ==> HeadIsCall(s, v) by { assert order[0] == v; }
      NoneReplacesPick(fx, s, order[1..], if taken then Some(v) else best);
      forall u | u in order && CallsWaiting(s, u) && HeadIsCall(s, u)
        ensures !Replaces(fx, HeadArrival(s, FindEarliest(fx, s, order, best).value), HeadArrival(s, u))
      {
        if u != v { assert u in order[1..]; }
      }
    }
  }

  /** The pick is an advertised service with a call waiting whose head arrived no later than any other head. */
  ghost predicate PicksOldest(s: Board, c: Id, v: Id) {
    WaitsFor(s, c, v) && forall u :: WaitsFor(s, c, u) ==> HeadArrival(s, v) <= HeadArrival(s, u)
  }

  /** A call waits at the head of `v`, and `c` advertises `v`. */
  predicate WaitsFor(s: Board, c: Id, v: Id) {
    c in s.clients && v in s.clients[c].adverts && CallsWaiting(s, v) && HeadIsCall(s, v)
  }

  ghost predicate HeadsArrivedTogether(s: Board, c: Id) {
    forall u, v :: WaitsFor(s, c, u) && WaitsFor(s, c, v) ==> HeadArrival(s, u) == HeadArrival(s, v)
  }

  /** With the comparison repaired, a worker is given the call that has waited longest. */
  lemma EarliestIsServed(fx: Fixes, s: Board, c: Id, order: seq<Id>)
    requires fx.oldest && c in s.clients && Walks(order, s.clients[c].adverts.Keys) && CastsHold(s, order)
    ensures match FindEarliest(fx, s, order, None)
      case Some(v) => PicksOldest(s, c, v)
      case None => forall v :: v in s.clients[c].adverts ==> !CallsWaiting(s, v)
  {
    NoneReplacesPick(fx, s, order, None);
  }

  /** As written, it is given the earliest call exactly when all heads arrived at the same time. */
  lemma AsWrittenLatestIsServed(fx: Fixes, s: Board, c: Id, order: seq<Id>)
    requires !fx.oldest && c in s.clients && Walks(order, s.clients[c].adverts.Keys) && CastsHold(s, order)
    requires FindEarliest(fx, s, order, None).Some?
    ensures PicksOldest(s, c, FindEarliest(fx, s, order, None).value) <==> HeadsArrivedTogether(s, c)
  {
    NoneReplacesPick(fx, s, order, None);
    var v := FindEarliest(fx, s, order, None).value;
    assert forall u :: WaitsFor(s, c, u) ==> HeadArrival(s, u) <= HeadArrival(s, v);
  }

  // ---------- queues keep their order ----------

  /** `p` is `q` with some elements left out. */
  ghost predicate Sub<T>(p: seq<T>, q: seq<T>)
    decreases |q|
  {
    p == [] || (q != [] && ((p[0] == q[0] && Sub(p[1..], q[1..])) || Sub(p, q[1..])))
  }

  lemma {:induction false} SubReflexive<T>(q: seq<T>)
    ensures Sub(q, q)
    decreases |q|
  {
    if q != [] { SubReflexive(q[1..]); }
  }

  lemma {:induction false} SubTransitive<T>(p: seq<T>, q: seq<T>, r: seq<T>)
    requires Sub(p, q) && Sub(q, r)
    ensures Sub(p, r)
    decreases |r|
  {
    if p != [] && q != [] {
      if q[0] == r[0] && Sub(q[1..], r[1..]) {
        if p[0] == q[0] && Sub(p[1..], q[1..]) {
          SubTransitive(p[1..], q[1..], r[1..]);
        } else {
          SubTransitive(p, q[1..], r[1..]);
        }
      } else {
        SubTransitive(p, q, r[1..]);
      }
    }
  }

  /** Elements of a subsequence stand in the same order in the whole. */
  lemma {:induction false} SubKeepsOrder<T>(p: seq<T>, q: seq<T>, i: nat, j: nat)
    requires Sub(p, q) && i < j < |p|
    ensures exists a, b :: 0 <= a < b < |q| && q[a] == p[i] && q[b] == p[j]
    decreases |q|
  {
    if p[0] == q[0] && Sub(p[1..], q[1..]) {
      if i == 0 {
        var b := SubFinds(p[1..], q[1..], j - 1);
        assert q[0] == p[i] && q[b + 1] == p[j];
      } else {
        SubKeepsOrder(p[1..], q[1..], i - 1, j - 1);
        var a, b :| 0 <= a < b < |q[1..]| && q[1..][a] == p[1..][i - 1] && q[1..][b] == p[1..][j - 1];
        assert q[a + 1] == p[i] && q[b + 1] == p[j];
      }
    } else {
      SubKeepsOrder(p, q[1..], i, j);
      var a, b :| 0 <= a < b < |q[1..]| && q[1..][a] == p[i] && q[1..][b] == p[j];
      assert q[a + 1] == p[i] && q[b + 1] == p[j];
    }
  }

  lemma {:induction false} SubFinds<T>(p: seq<T>, q: seq<T>, j: nat) returns (b: nat)
    requires Sub(p, q) && j < |p|
    ensures b < |q| && q[b] == p[j]
    decreases |q|
  {
    if p[0] == q[0] && Sub(p[1..], q[1..]) {
      if j == 0 { b := 0; } else { b := SubFinds(p[1..], q[1..], j - 1); b := b + 1; }
    } else {
      b := SubFinds(p, q[1..], j);
      b := b + 1;
    }
  }

  lemma {:induction false} WithoutSub<T(!new)>(q: seq<T>, x: T)
    ensures Sub(Without(q, x), q)
    decreases |q|
  {
    if q != [] { WithoutSub(q[1..], x); }
  }
}
