/** Call descriptors: the pool of random numbers that `new_transaction` draws from. */
module Descriptors {
  import opened Sequences
  import opened Wire

  const NUM_FREE_CD: nat := 10

  /** `free_cd` and the position of `cdp` in it; a used or pruned entry is zero. */
  datatype Pool = Pool(free: seq<Short>, cursor: nat)
  datatype Taken = Taken(cd: Short, pool: Pool)

  function Zeros(n: nat): (r: seq<Short>)
    ensures |r| == n && forall i :: 0 <= i < n ==> r[i] == 0
  {
    seq(n, i => 0)
  }

  /** Position of the first non-zero entry at or after `at`; the length of `free` when there is none. */
  function FirstFree(free: seq<Short>, at: nat): (r: nat)
    requires at <= |free|
    ensures at <= r <= |free|
    ensures forall i :: at <= i < r ==> free[i] == 0
    ensures r < |free| ==> free[r] != 0
    decreases |free| - at
  {
    if at == |free| || free[at] != 0 then at else FirstFree(free, at + 1)
  }

  /** The random batch with the descriptors in use set to zero. */
  function Prune(batch: seq<Short>, live: set<Short>): (r: seq<Short>)
    ensures |r| == |batch|
    ensures forall i :: 0 <= i < |batch| ==> r[i] == if batch[i] in live then 0 else batch[i]
  {
    seq(|batch|, i requires 0 <= i < |batch| => if batch[i] in live then 0 else batch[i])
  }

  /** The next descriptor; `None` when no batch supplied has a usable one and the loop is still drawing. */
  function Take(p: Pool, live: set<Short>, batches: seq<seq<Short>>): (r: Option<Taken>)
    decreases |batches|
  {
    var at := if p.cursor <= |p.free| then FirstFree(p.free, p.cursor) else |p.free|;
    if at < |p.free| then Some(Taken(p.free[at], Pool(p.free[at := 0], at + 1)))
    else if batches == [] then None
    else Take(Pool(Prune(batches[0], live), 0), live, batches[1..])
  }

  /** The entries from `at` on that are not zero differ from each other. */
  ghost predicate Unrepeated(free: seq<Short>, at: nat) {
    forall i, j :: at <= i < j < |free| && free[i] != 0 ==> free[i] != free[j]
  }

  /** The unused entries of the pool are distinct and not in use. */
  ghost predicate PoolFresh(p: Pool, live: set<Short>) {
    && |p.free| == NUM_FREE_CD && p.cursor <= NUM_FREE_CD
    && (forall i :: p.cursor <= i < |p.free| && p.free[i] != 0 ==> p.free[i] !in live)
    && Unrepeated(p.free, p.cursor)
  }

  /** The first batch with a descriptor that is not in use, when one is needed, has no descriptor twice. */
  ghost predicate DrawsWell(p: Pool, live: set<Short>, batches: seq<seq<Short>>)
    decreases |batches|
  {
    var at := if p.cursor <= |p.free| then FirstFree(p.free, p.cursor) else |p.free|;
    if at < |p.free| then Unrepeated(p.free, at)
    else batches != [] && DrawsWell(Pool(Prune(batches[0], live), 0), live, batches[1..])
  }

  /**
   The descriptor taken is neither zero nor in use; and the pool stays usable exactly when the random
   batch it was taken from repeats no descriptor.
   */
  lemma {:induction false} TakeFresh(p: Pool, live: set<Short>, batches: seq<seq<Short>>)
    requires |p.free| == NUM_FREE_CD && p.cursor <= NUM_FREE_CD
    requires forall i :: p.cursor <= i < |p.free| && p.free[i] != 0 ==> p.free[i] !in live
    requires forall i :: 0 <= i < |batches| ==> |batches[i]| == NUM_FREE_CD
    ensures var r := Take(p, live, batches);
      && (r.Some? ==> r.value.cd != 0 && r.value.cd !in live)
      && (r.Some? && PoolFresh(r.value.pool, live + {r.value.cd}) <==> DrawsWell(p, live, batches))
    decreases |batches|
  {
    var at := FirstFree(p.free, p.cursor);
    if at < |p.free| {
      var r := Take(p, live, batches).value;
      assert forall i :: at < i < |p.free| ==> r.pool.free[i] == p.free[i];
      if DrawsWell(p, live, batches) {
        assert PoolFresh(r.pool, live + {r.cd});
      }
      if PoolFresh(r.pool, live + {r.cd}) {
        forall i, j | at <= i < j < |p.free| && p.free[i] != 0 ensures p.free[i] != p.free[j] {
          assert r.pool.free[j] == p.free[j];
          if i > at { assert r.pool.free[i] == p.free[i]; }
        }
      }
    } else if batches != [] {
      TakeFresh(Pool(Prune(batches[0], live), 0), live, batches[1..]);
    }
  }
}
