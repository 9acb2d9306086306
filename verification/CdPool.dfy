/** The descriptor pool as it is kept: ten shorts and a cursor, refilled and pruned in place. */
module CdPool {
  import opened Sequences
  import opened Wire
  import opened Descriptors

  /**
   The program tests `*cdp` before it tests the cursor, so with nothing left in the array it reads the short
   that follows it. `past` is what it finds there; a cursor beyond the end means that it was used.
   */
  function TakeAsWritten(p: Pool, live: set<Short>, batches: seq<seq<Short>>, past: Short): (r: Option<Taken>)
    requires p.cursor <= |p.free|
    decreases |batches|
  {
    var at := FirstFree(p.free, p.cursor);
    if at < |p.free| then Some(Taken(p.free[at], Pool(p.free[at := 0], at + 1)))
    else if past != 0 then Some(Taken(past, Pool(p.free, |p.free| + 1)))
    else if batches == [] then None
    else TakeAsWritten(Pool(Prune(batches[0], live), 0), live, batches[1..], past)
  }

  /** The read beyond the array is harmless exactly when it finds zero or is not made. */
  lemma {:induction false} PastEndMatters(p: Pool, live: set<Short>, batches: seq<seq<Short>>, past: Short)
    requires |p.free| == NUM_FREE_CD && p.cursor <= NUM_FREE_CD
    requires forall i :: 0 <= i < |batches| ==> |batches[i]| == NUM_FREE_CD
    ensures TakeAsWritten(p, live, batches, past) == Take(p, live, batches)
      <==> past == 0 || FirstFree(p.free, p.cursor) < NUM_FREE_CD
    decreases |batches|
  {
    if FirstFree(p.free, p.cursor) == NUM_FREE_CD {
      TakeInside(p, live, batches);
      if past == 0 && batches != [] {
        PastEndMatters(Pool(Prune(batches[0], live), 0), live, batches[1..], past);
      }
    }
  }

  /** A descriptor from the array leaves the cursor within it. */
  lemma {:induction false} TakeInside(p: Pool, live: set<Short>, batches: seq<seq<Short>>)
    requires |p.free| == NUM_FREE_CD && p.cursor <= NUM_FREE_CD
    requires forall i :: 0 <= i < |batches| ==> |batches[i]| == NUM_FREE_CD
    ensures var r := Take(p, live, batches); r.Some? ==> r.value.pool.cursor <= NUM_FREE_CD && |r.value.pool.free| == NUM_FREE_CD
    decreases |batches|
  {
    if FirstFree(p.free, p.cursor) == NUM_FREE_CD && batches != [] {
      TakeInside(Pool(Prune(batches[0], live), 0), live, batches[1..]);
    }
  }

  /** The descriptor read beyond the array may be in use. */
  lemma PastEndMayBeInUse(live: set<Short>, batches: seq<seq<Short>>, past: Short)
    requires past in live && past != 0
    ensures TakeAsWritten(Pool(Zeros(NUM_FREE_CD), 0), live, batches, past).Some?
    ensures TakeAsWritten(Pool(Zeros(NUM_FREE_CD), 0), live, batches, past).value.cd in live
  {
  }

  /** Two equal numbers in a batch: two calls in a row get the same descriptor. */
  lemma RepeatedBatchEntry(live: set<Short>, x: Short)
    requires x != 0 && x !in live
    ensures var batch: seq<Short> := [x, x] + Zeros(NUM_FREE_CD - 2);
      var r := Take(Pool(Zeros(NUM_FREE_CD), 0), live, [batch]);
      && r.Some? && r.value.cd == x
      && var r' := Take(r.value.pool, live + {x}, []);
         r'.Some? && r'.value.cd == x
  {
    var batch: seq<Short> := [x, x] + Zeros(NUM_FREE_CD - 2);
    var p := Prune(batch, live);
    assert p[0] == x && p[1] == x;
    assert FirstFree(p, 0) == 0;
    assert Take(Pool(p, 0), live, []) == Some(Taken(x, Pool(p[0 := 0], 1)));
    assert [batch][1..] == [];
    assert FirstFree(p[0 := 0], 1) == 1;
  }

  function Elements(q: seq<Short>): set<Short> {
    set x | x in q
  }

  class CdPool {
    const free: array<Short>
    var cdp: nat

    ghost predicate Valid()
      reads this
    {
      free.Length == NUM_FREE_CD && cdp <= NUM_FREE_CD
    }

    ghost function Value(): Pool
      reads this, free
    {
      Pool(free[..], cdp)
    }

    constructor ()
      ensures Valid() && Value() == Pool(Zeros(NUM_FREE_CD), 0) && fresh(free)
    {
      free := new Short[NUM_FREE_CD](i => 0);
      cdp := 0;
      new;
      assert free[..] == Zeros(NUM_FREE_CD);
    }

    /** Fill the array with random numbers, then strike out those in use. */
    method Refill(batch: seq<Short>, live: seq<Short>)
      requires Valid() && |batch| == NUM_FREE_CD
      modifies this, free
      ensures Valid() && cdp == 0 && free[..] == Prune(batch, Elements(live))
    {
      cdp := 0;
      while cdp < NUM_FREE_CD
        invariant Valid()
        invariant forall i :: 0 <= i < cdp ==> free[i] == batch[i]
      {
        free[cdp] := batch[cdp];
        cdp := cdp + 1;
      }
      var p := 0;
      while p < |live|
        invariant Valid() && p <= |live|
        invariant forall i :: 0 <= i < NUM_FREE_CD ==> free[i] == if batch[i] in live[..p] then 0 else batch[i]
      {
        var cd := live[p];
        assert live[..p + 1] == live[..p] + [cd];
        cdp := 0;
        while cdp < NUM_FREE_CD
          invariant Valid()
          invariant forall i :: 0 <= i < cdp ==> free[i] == if batch[i] in live[..p + 1] then 0 else batch[i]
          invariant forall i :: cdp <= i < NUM_FREE_CD ==> free[i] == if batch[i] in live[..p] then 0 else batch[i]
        {
          if free[cdp] == cd { free[cdp] := 0; }
          cdp := cdp + 1;
        }
        p := p + 1;
      }
      assert live[..p] == live;
      cdp := 0;
    }

    method ReadCd(past: Short) returns (x: Short)
      requires Valid()
      ensures x == if cdp < NUM_FREE_CD then free[cdp] else past
    {
      x := if cdp < NUM_FREE_CD then free[cdp] else past;
    }

    /** The loop of `new_transaction`. `live` lists the descriptors in use; `past` is the short after the array. */
    method Next(live: seq<Short>, batches: seq<seq<Short>>, past: Short) returns (r: Option<Short>)
      requires Valid() && forall i :: 0 <= i < |batches| ==> |batches[i]| == NUM_FREE_CD
      modifies this, free
      ensures match TakeAsWritten(old(Value()), Elements(live), batches, past)
        case None => r == None
        case Some(taken) => r == Some(taken.cd) && Value() == taken.pool
      ensures r.Some? && past == 0 ==> Valid()
    {
      var k := 0;
      ghost var all := Elements(live);
      var cd := ReadCd(past);
      while cd == 0
        invariant Valid() && k <= |batches| && cd == if cdp < NUM_FREE_CD then free[cdp] else past
        invariant TakeAsWritten(old(Value()), all, batches, past) == TakeAsWritten(Value(), all, batches[k..], past)
        decreases |batches| - k, NUM_FREE_CD - cdp
      {
        if cdp < NUM_FREE_CD {
          cdp := cdp + 1;
        } else if k == |batches| {
          return None;
        } else {
          assert batches[k..][0] == batches[k] && batches[k..][1..] == batches[k + 1..];
          Refill(batches[k], live);
          k := k + 1;
        }
        cd := ReadCd(past);
      }
      r := Some(cd);
      ghost var p := Value();
      assert cdp < NUM_FREE_CD ==> FirstFree(p.free, p.cursor) == cdp;
      if cdp < NUM_FREE_CD {
        free[cdp] := 0;
        assert free[..] == p.free[cdp := 0];
      }
      cdp := cdp + 1;
    }
  }
}
