/** Calls are served by the clock at which they were accepted. */
module Clocks {
  import opened Sequences
  import opened Wire
  import opened Board
  import opened Invariant
  import opened Departure
  import opened Handlers
  import opened Steps
  import opened History
  import opened Order
  import opened Framing
  import opened Turning
  import opened Stream
  import opened Traces
  import opened Messages
  import opened Conservation
  import opened Responses

  // ---------- the clock of a call ----------

  /** Event `p` acknowledged the call `t`. */
  ghost predicate AcceptedBy(ss: seq<Board>, es: seq<Event>, p: nat, t: Id)
    requires p < |es| < |ss|
  {
    es[p].Read? && Acknowledges(ss[p], ss[p + 1], t)
  }

  ghost predicate Acknowledges(s: Board, r: Board, t: Id) {
    exists j :: |s.log| <= j < |r.log| && r.log[j].Accepted? && r.log[j].call == t
  }

  /** The call was acknowledged when the clock showed `now`. */
  ghost predicate AcceptedAt(ss: seq<Board>, es: seq<Event>, t: Id, now: int)
    requires |es| < |ss|
  {
    exists p :: 0 <= p < |es| && AcceptedBy(ss, es, p, t) && es[p].env.now == now
  }

  /** The event that writes an acknowledgement makes the call, at the time its clock shows. */
  lemma AcceptanceMakes(fx: Fixes, ss: seq<Board>, es: seq<Event>, p: nat, j: nat)
    requires Trace(fx, ss, es) && p < |es| && |ss[p].log| <= j < |ss[p + 1].log| && ss[p + 1].log[j].Accepted?
    ensures es[p].Read? && AcceptedBy(ss, es, p, ss[p].next) && ss[p + 1].log[j].call == ss[p].next
    ensures ss[p].next in ss[p + 1].calls && ss[p + 1].calls[ss[p].next].arrival == es[p].env.now
  {
    hide Inv, LogInv, Step, Possible, Allowed, Own, Onward, GoodStep, Trace, FrameOf, CutName, ToLong, NothingElse;
    TraceStarts(fx, ss, es);
    TraceStep(fx, ss, es, p);
    var s, e, r := ss[p], es[p], ss[p + 1];
    WrittenFromFrame(fx, s, e, r, j);
    AcceptedIsThere(fx, s, e, r, j);
    var f := FrameOf(s, e, e.c)[0];
    FrameIsLive(s, e, e.c);
    assert FrameOf(s, e, e.c) == [Framed(Acall, f.payload)];
    var name, len, flags := CutName(f.payload), ToLong(f.payload, NAME_LENGTH), ToLong(f.payload, NAME_LENGTH + IOLONG);
    CallAnswers(fx, s, e, r, e.c, f.payload, name, len, flags);
    assert !Wrote(s, r, Refused(e.c, TPENOENT)) by { assert !r.log[j].Refused?; }
  }

  lemma HeadStays(fx: Fixes, ss: seq<Board>, es: seq<Event>, n: nat, t: Id)
    requires Trace(fx, ss, es) && n < |es| && t in ss[n + 1].calls
    ensures if t in ss[n].calls then ss[n + 1].calls[t].arrival == ss[n].calls[t].arrival else t >= ss[n].next
  {
    hide Inv, LogInv, Step, Possible, Allowed, Own, GoodStep, Trace, OthersOnward, NamesOnward;
    TraceStarts(fx, ss, es);
    TraceStep(fx, ss, es, n);
    if t in ss[n].calls { InvSerials(ss[n], t); }
  }

  lemma {:induction false} ArrivalOf(fx: Fixes, ss: seq<Board>, es: seq<Event>, n: nat, t: Id) returns (p: nat)
    requires Trace(fx, ss, es) && n <= |es| && t in ss[n].calls
    ensures p < n && AcceptedBy(ss, es, p, t) && ss[n].calls[t].arrival == es[p].env.now
    decreases n
  {
    hide Inv, LogInv, Trace, AcceptedBy;
    TraceStarts(fx, ss, es);
    assert n > 0;
    HeadStays(fx, ss, es, n - 1, t);
    if t in ss[n - 1].calls {
      p := ArrivalOf(fx, ss, es, n - 1, t);
    } else {
      p := n - 1;
      var j := NewlyAccepted(fx, ss, es, p, t);
      AcceptanceMakes(fx, ss, es, p, j);
    }
  }

  lemma NewlyAccepted(fx: Fixes, ss: seq<Board>, es: seq<Event>, n: nat, t: Id) returns (j: nat)
    requires Trace(fx, ss, es) && n < |es| && t in ss[n + 1].calls && t >= ss[n].next
    ensures |ss[n].log| <= j < |ss[n + 1].log| && ss[n + 1].log[j].Accepted? && ss[n + 1].log[j].call == t
  {
    hide Inv, Trace, Sound, CallLogged;
    TraceStarts(fx, ss, es);
    TraceGood(fx, ss, es, n);
    TraceGood(fx, ss, es, n + 1);
    TraceGrows(fx, ss, es, n, n + 1);
    AcceptedIsLogged(ss[n + 1], t);
    j :| 0 <= j < |ss[n + 1].log| && ss[n + 1].log[j] == AcceptEntry(ss[n + 1].calls[t], t);
  }

  lemma AcceptedOnce(fx: Fixes, ss: seq<Board>, es: seq<Event>, p: nat, q: nat, t: Id)
    requires Trace(fx, ss, es) && p <= q < |es| && AcceptedBy(ss, es, p, t) && AcceptedBy(ss, es, q, t)
    ensures p == q
  {
    hide Inv, LogInv, Trace;
    TraceStarts(fx, ss, es);
    var i :| |ss[p].log| <= i < |ss[p + 1].log| && ss[p + 1].log[i].Accepted? && ss[p + 1].log[i].call == t;
    var j :| |ss[q].log| <= j < |ss[q + 1].log| && ss[q + 1].log[j].Accepted? && ss[q + 1].log[j].call == t;
    AcceptanceMakes(fx, ss, es, p, i);
    AcceptanceMakes(fx, ss, es, q, j);
    if p < q {
      TraceGood(fx, ss, es, p + 1);
      InvSerials(ss[p + 1], t);
      TraceGrows(fx, ss, es, p + 1, q);
    }
  }

  /** Over any good run, a live call's arrival is the clock of the event that acknowledged it, and there is one such event. */
  lemma ArrivalIsClock(fx: Fixes, ss: seq<Board>, es: seq<Event>, n: nat, t: Id, now: int)
    requires Trace(fx, ss, es) && n <= |es| && t in ss[n].calls
    ensures AcceptedAt(ss, es, t, now) <==> now == ss[n].calls[t].arrival
  {
    hide Trace, Acknowledges;
    TraceStarts(fx, ss, es);
    var p := ArrivalOf(fx, ss, es, n, t);
    if q :| 0 <= q < |es| && AcceptedBy(ss, es, q, t) && es[q].env.now == now {
      if p <= q { AcceptedOnce(fx, ss, es, p, q, t); } else { AcceptedOnce(fx, ss, es, q, p, t); }
    }
  }

  // ---------- who is served ----------

  /** The call at the head of `v` that a request for work by `c` takes. */
  ghost predicate Takes(s: Board, r: Board, c: Id, v: Id) {
    && WaitsFor(s, c, v) && |r.log| == |s.log| + 1 && r.log[..|s.log|] == s.log
    && Last(r.log).Handed? && Last(r.log).to == c && Last(r.log).svc == s.calls[FirstCall(s, v)].svc && Last(r.log).call == FirstCall(s, v)
  }

  /** A head that the chosen one would not give way to. */
  predicate Outranks(fx: Fixes, x: int, y: int) {
    if fx.oldest then x <= y else y <= x
  }

  lemma UnarmWaits(s: Board, c: Id, v: Id)
    requires c in s.clients
    ensures WaitsFor(Unarm(s, c), c, v) <==> WaitsFor(s, c, v)
    ensures WaitsFor(s, c, v) ==> FirstCall(Unarm(s, c), v) == FirstCall(s, v) && HeadArrival(Unarm(s, c), v) == HeadArrival(s, v)
  {
  }

  lemma WorkServes(fx: Fixes, s: Board, c: Id, env: Env, r: Board) returns (v: Option<Id>)
    requires c in s.clients && Walks(env.order, s.clients[c].adverts.Keys) && SvrService(fx, s, c, env) == Ok(r)
    ensures if v.Some? then Takes(s, r, c, v.value) && WaitsFor(s, c, v.value)
            else r.log == s.log && c in r.clients && r.clients[c].conn.IdleWorker?
    ensures forall u :: WaitsFor(s, c, u) ==> v.Some? && Outranks(fx, HeadArrival(s, v.value), HeadArrival(s, u))
  {
    hide SendToServer, FindEarliest, Park, Takes;
    NoneReplacesPick(fx, s, env.order, None);
    v := FindEarliest(fx, s, env.order, None);
    if v.Some? { HandsFirst(fx, s, c, v.value, r); } else { Parking(s, c); }
  }

  lemma Parking(s: Board, c: Id)
    requires c in s.clients
    ensures Park(s, c).log == s.log && c in Park(s, c).clients && Park(s, c).clients[c].conn.IdleWorker?
  {
  }

  lemma HandsFirst(fx: Fixes, s: Board, c: Id, v: Id, r: Board)
    requires WaitsFor(s, c, v) && SendToServer(fx, s, c, FirstCall(s, v)) == Ok(r)
    ensures Takes(s, r, c, v)
  {
    hide Unlinked, WorkerLeaves;
  }

  /** No head that waits for `c` was accepted at a clock that should have been preferred to that of the call at `v`. */
  ghost predicate BestByClock(fx: Fixes, ss: seq<Board>, es: seq<Event>, n: nat, c: Id, v: Id)
    requires n < |es| < |ss| && WaitsFor(ss[n], c, v)
  {
    forall u, x, y :: WaitsFor(ss[n], c, u) && AcceptedAt(ss, es, FirstCall(ss[n], v), x) && AcceptedAt(ss, es, FirstCall(ss[n], u), y) ==>
      Outranks(fx, x, y)
  }

  /**
   Over any good run, a worker that asks for work gets a call if and only if one waits at a service it
   advertises, and parks otherwise. With the comparison repaired no waiting head was accepted at a smaller
   clock than the one it gets; as written, none at a greater one.
   */
  lemma ServedByClock(fx: Fixes, ss: seq<Board>, es: seq<Event>, n: nat, c: Id)
    requires Trace(fx, ss, es) && n < |es| && FrameOf(ss[n], es[n], c) == [Framed(Command, [TPTWORK])]
    ensures if exists v :: WaitsFor(ss[n], c, v)
            then exists v :: Takes(ss[n], ss[n + 1], c, v) && BestByClock(fx, ss, es, n, c, v)
            else ss[n + 1].log == ss[n].log && c in ss[n + 1].clients && ss[n + 1].clients[c].conn.IdleWorker?
  {
    hide Inv, LogInv, Step, Own, Onward, GoodStep, Trace, FrameOf, SvrService, Takes, AcceptedAt, GoodBatches, Possible, Allowed, CallsWaiting, HeadIsCall;
    TraceStarts(fx, ss, es);
    TraceStep(fx, ss, es, n);
    var s, e, r := ss[n], es[n], ss[n + 1];
    RequestRuns(fx, s, e, r, c, Command, [TPTWORK]);
    var s0 := Unarm(s, c);
    assert Walks(e.env.order, s0.clients[c].adverts.Keys) by { WalkIsGood(s, e); }
    var v := WorkServes(fx, s0, c, e.env, r);
    forall u | WaitsFor(s, c, u) ensures v.Some? && WaitsFor(s0, c, u) { UnarmWaits(s, c, u); }
    if v.Some? {
      UnarmWaits(s, c, v.value);
      UnarmTakes(s, r, c, v.value);
      forall u, x, y | WaitsFor(s, c, u) && AcceptedAt(ss, es, FirstCall(s, v.value), x) && AcceptedAt(ss, es, FirstCall(s, u), y)
        ensures Outranks(fx, x, y)
      {
        UnarmWaits(s, c, u);
        ArrivalIsClock(fx, ss, es, n, FirstCall(s, v.value), x);
        ArrivalIsClock(fx, ss, es, n, FirstCall(s, u), y);
      }
      assert WaitsFor(s, c, v.value);
      assert Takes(ss[n], ss[n + 1], c, v.value) && BestByClock(fx, ss, es, n, c, v.value);
    }
  }

  lemma WalkIsGood(s: Board, e: Event)
    requires e.Read? && Possible(s, e)
    ensures e.c in s.clients && Walks(e.env.order, s.clients[e.c].adverts.Keys)
  {
    hide Walks, GoodBatches;
  }

  lemma UnarmTakes(s: Board, r: Board, c: Id, v: Id)
    requires c in s.clients && Takes(Unarm(s, c), r, c, v)
    ensures Takes(s, r, c, v)
  {
  }
}
