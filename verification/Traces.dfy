/** The states a good run passes through, and what becomes of connections, names and bytes along them. */
module Traces {
  import opened Sequences
  import opened Wire
  import opened Board
  import opened Invariant
  import opened Departure
  import opened Handlers
  import opened Steps
  import opened History
  import opened HistorySteps
  import opened Framing
  import opened Turning
  import opened Runs
  import opened Stream

  /** `ss` are the states of the good run `es` from the start. */
  ghost predicate Trace(fx: Fixes, ss: seq<Board>, es: seq<Event>) {
    && |ss| == |es| + 1 && ss[0] == EMPTY
    && forall n :: 0 <= n < |es| ==> GoodStep(fx, ss[n], es[n], ss[n + 1])
  }

  ghost predicate GoodStep(fx: Fixes, s: Board, e: Event, r: Board) {
    Possible(s, e) && Allowed(fx, s, e) && Step(fx, s, e) == Ok(r)
  }

  /** Every good run has its states. */
  lemma {:induction false} TraceFrom(fx: Fixes, s: Board, es: seq<Event>) returns (ss: seq<Board>)
    requires Inv(s) && GoodRun(fx, s, es)
    ensures |ss| == |es| + 1 && ss[0] == s && (forall n :: 0 <= n < |es| ==> GoodStep(fx, ss[n], es[n], ss[n + 1]))
    ensures Run(fx, s, es) == Ok(ss[|es|])
    decreases |es|
  {
    hide Inv, Step, Possible, Allowed;
    if es == [] {
      ss := [s];
    } else {
      StepKeeps(fx, s, es[0]);
      var s1 := Step(fx, s, es[0]).board;
      var rest := TraceFrom(fx, s1, es[1..]);
      ss := [s] + rest;
      forall n | 0 <= n < |es| ensures GoodStep(fx, ss[n], es[n], ss[n + 1]) {
        if n > 0 { assert GoodStep(fx, rest[n - 1], es[1..][n - 1], rest[n]); }
      }
    }
  }

  lemma TraceOf(fx: Fixes, es: seq<Event>) returns (ss: seq<Board>)
    requires GoodRun(fx, EMPTY, es)
    ensures Trace(fx, ss, es) && Run(fx, EMPTY, es) == Ok(ss[|es|])
  {
    hide Inv, LogInv, GoodRun, Run;
    EmptyIsGood();
    ss := TraceFrom(fx, EMPTY, es);
  }

  lemma {:induction false} TraceRunsFrom(fx: Fixes, ss: seq<Board>, es: seq<Event>, n: nat)
    requires Trace(fx, ss, es) && n <= |es|
    ensures GoodRun(fx, ss[n], es[n..]) && Run(fx, ss[n], es[n..]) == Ok(ss[|es|])
    decreases |es| - n
  {
    hide Step, Possible, Allowed;
    if n < |es| {
      TraceRunsFrom(fx, ss, es, n + 1);
      assert GoodStep(fx, ss[n], es[n], ss[n + 1]);
      assert es[n..][0] == es[n] && es[n..][1..] == es[n + 1..];
    }
  }

  /** The states of a good run are those it leads through. */
  lemma TraceRuns(fx: Fixes, ss: seq<Board>, es: seq<Event>)
    requires Trace(fx, ss, es)
    ensures GoodRun(fx, EMPTY, es) && Run(fx, EMPTY, es) == Ok(ss[|es|]) && Reachable(fx, ss[|es|])
  {
    hide GoodRun, Run, GoodStep;
    TraceRunsFrom(fx, ss, es, 0);
    assert es[0..] == es;
  }

  lemma {:induction false} TraceGood(fx: Fixes, ss: seq<Board>, es: seq<Event>, n: nat)
    requires Trace(fx, ss, es) && n <= |es|
    ensures Inv(ss[n]) && LogInv(ss[n])
    decreases n
  {
    hide Inv, LogInv, Step, Possible, Allowed;
    if n == 0 {
      EmptyIsGood();
    } else {
      TraceGood(fx, ss, es, n - 1);
      assert GoodStep(fx, ss[n - 1], es[n - 1], ss[n]);
      StepKeeps(fx, ss[n - 1], es[n - 1]);
      StepLog(fx, ss[n - 1], es[n - 1]);
    }
  }

  /** One step of a trace, as `EveryEffect` and `StepKeeps` describe it. */
  lemma TraceStep(fx: Fixes, ss: seq<Board>, es: seq<Event>, n: nat)
    requires Trace(fx, ss, es) && n < |es|
    ensures Inv(ss[n]) && LogInv(ss[n]) && Possible(ss[n], es[n]) && Allowed(fx, ss[n], es[n]) && Step(fx, ss[n], es[n]) == Ok(ss[n + 1])
    ensures Inv(ss[n + 1]) && LogInv(ss[n + 1]) && ClientsAfter(ss[n], es[n], ss[n + 1])
    ensures Onward(ss[n], ss[n + 1], Actor(ss[n], es[n]), Own(ss[n], Actor(ss[n], es[n])))
  {
    hide Inv, LogInv, Step, Possible, Allowed, Onward, Own;
    TraceGood(fx, ss, es, n);
    TraceGood(fx, ss, es, n + 1);
    assert GoodStep(fx, ss[n], es[n], ss[n + 1]);
    StepKeeps(fx, ss[n], es[n]);
    EveryEffect(fx, ss[n], es[n]);
  }

  // ---------- logs and serial numbers grow ----------

  lemma {:induction false} TraceGrows(fx: Fixes, ss: seq<Board>, es: seq<Event>, m: nat, n: nat)
    requires Trace(fx, ss, es) && m <= n <= |es|
    ensures |ss[m].log| <= |ss[n].log| && ss[m].next <= ss[n].next
    ensures forall i :: 0 <= i < |ss[m].log| ==> ss[n].log[i] == ss[m].log[i]
    decreases n
  {
    hide Inv, LogInv, Step, Possible, Allowed, Own, GoodStep, OthersOnward, CallsOnward, NamesOnward;
    if m < n {
      TraceGrows(fx, ss, es, m, n - 1);
      TraceStep(fx, ss, es, n - 1);
    }
  }

  /** The event that wrote entry `j` of the log. */
  lemma {:induction false} WrittenAt(fx: Fixes, ss: seq<Board>, es: seq<Event>, n: nat, j: nat) returns (m: nat)
    requires Trace(fx, ss, es) && n <= |es| && j < |ss[n].log|
    ensures m < n && |ss[m].log| <= j < |ss[m + 1].log| && ss[m + 1].log[j] == ss[n].log[j]
    decreases n
  {
    hide Trace;
    assert ss[0].log == [] && |ss| == |es| + 1 by { TraceStarts(fx, ss, es); }
    TraceGrows(fx, ss, es, n - 1, n);
    if j < |ss[n - 1].log| {
      m := WrittenAt(fx, ss, es, n - 1, j);
    } else {
      m := n - 1;
    }
  }

  lemma TraceStarts(fx: Fixes, ss: seq<Board>, es: seq<Event>)
    requires Trace(fx, ss, es)
    ensures |ss| == |es| + 1 && ss[0] == EMPTY
  {
  }

  /** A service that was there keeps its name as long as it is there. */
  lemma {:induction false} NamesStay(fx: Fixes, ss: seq<Board>, es: seq<Event>, m: nat, n: nat, v: Id)
    requires Trace(fx, ss, es) && m <= n <= |es| && v < ss[m].next && v in ss[n].services
    ensures v in ss[m].services && ss[n].services[v].name == ss[m].services[v].name
    decreases n
  {
    hide Inv, LogInv, Step, Possible, Allowed, Own, GoodStep, OthersOnward, CallsOnward;
    if m < n {
      TraceStep(fx, ss, es, n - 1);
      TraceGrows(fx, ss, es, m, n - 1);
      NamesStay(fx, ss, es, m, n - 1, v);
    }
  }

  // ---------- connections that are lost ----------

  /** The connection is gone, or armed with a freed buffer. */
  predicate Lost(s: Board, c: Id) {
    DeadInput(s, c) || (c !in s.clients && c < s.next)
  }

  /** An allowed event is not one of a lost connection, and leaves it lost. */
  lemma LostStep(fx: Fixes, s: Board, e: Event, r: Board, c: Id)
    requires Inv(s) && Possible(s, e) && Allowed(fx, s, e) && ClientsAfter(s, e, r) && Lost(s, c)
    requires Onward(s, r, Actor(s, e), Own(s, Actor(s, e)))
    ensures Actor(s, e) != c && Lost(r, c)
  {
    hide Inv, Own, Walks, GoodBatches, HandlerOk, LeaveOk;
    if DeadInput(s, c) { InvFits(s, c); InvNextFree(s); }
  }

  /** Nothing more is read from a connection once it is lost. */
  lemma {:induction false} LostForever(fx: Fixes, ss: seq<Board>, es: seq<Event>, m: nat, n: nat, c: Id)
    requires Trace(fx, ss, es) && m <= n <= |es| && Lost(ss[m], c)
    ensures Lost(ss[n], c) && (n < |es| ==> Actor(ss[n], es[n]) != c)
    decreases n
  {
    hide Inv, LogInv, Step, Possible, Allowed, Own, Onward, Lost, GoodStep, Trace;
    TraceStarts(fx, ss, es);
    if m < n {
      LostForever(fx, ss, es, m, n - 1, c);
      TraceStep(fx, ss, es, n - 1);
      LostStep(fx, ss[n - 1], es[n - 1], ss[n], c);
    }
    if n < |es| {
      TraceStep(fx, ss, es, n);
      LostStep(fx, ss[n], es[n], ss[n + 1], c);
    }
  }

  // ---------- every byte ----------

  /** What the first `n` events read from `c`. */
  function Delivered(es: seq<Event>, n: nat, c: Id): seq<byte>
    requires n <= |es|
  {
    if n == 0 then [] else Delivered(es, n - 1, c) + Chunk(es[n - 1], c)
  }

  /** The frames that the first `n` events completed on the connection of `c`. */
  function Handled(ss: seq<Board>, es: seq<Event>, n: nat, c: Id): seq<Framed>
    requires n <= |es| < |ss|
  {
    if n == 0 then [] else Handled(ss, es, n - 1, c) + FrameOf(ss[n - 1], es[n - 1], c)
  }

  lemma PayloadsSnoc(fs: seq<Framed>, gs: seq<Framed>)
    requires |gs| <= 1
    ensures Payloads(fs + gs) == Payloads(fs) + Payloads(gs)
  {
    if gs == [] {
      assert fs + gs == fs && Payloads(gs) == [];
    } else {
      assert (fs + gs)[..|fs|] == fs && Last(fs + gs) == gs[0] && gs == [gs[0]];
      OneFrame(gs[0]);
    }
  }

  /** Nothing is read from a connection that is not there yet. */
  lemma {:induction false} NothingYet(fx: Fixes, ss: seq<Board>, es: seq<Event>, n: nat, c: Id)
    requires Trace(fx, ss, es) && n <= |es| && ss[n].next <= c
    ensures Delivered(es, n, c) == [] && Handled(ss, es, n, c) == [] && c !in ss[n].clients
    decreases n
  {
    hide Inv, LogInv, Step, Allowed, Own, GoodStep, OthersOnward, CallsOnward, NamesOnward, Walks, GoodBatches;
    TraceGood(fx, ss, es, n);
    InvSerial(ss[n], c);
    if n > 0 {
      TraceStep(fx, ss, es, n - 1);
      NothingYet(fx, ss, es, n - 1, c);
      NoFrame(ss[n - 1], es[n - 1], c);
    }
  }

  lemma InvSerial(s: Board, c: Id)
    requires Inv(s) && s.next <= c
    ensures c !in s.clients && c !in s.calls && c !in s.services
  {
    hide InvX;
    InvTightSerials(s);
  }

  /**
   Over any good run: what has been read from a connection is the bytes its handlers were called with, in
   order, followed by the filled part of its buffer. Of a connection that has been lost, they are a prefix.
   */
  lemma {:induction false} EveryByteIsHandledOnce(fx: Fixes, ss: seq<Board>, es: seq<Event>, n: nat, c: Id)
    requires Trace(fx, ss, es) && n <= |es|
    ensures !Lost(ss[n], c) ==> Delivered(es, n, c) == Payloads(Handled(ss, es, n, c)) + Filled(ss[n], c)
    ensures Payloads(Handled(ss, es, n, c)) <= Delivered(es, n, c)
    decreases n
  {
    hide Inv, LogInv, Step, Possible, Allowed, Own, Onward, GoodStep, Trace, FrameOf, Filled, Chunk, DeadInput;
    assert |ss| == |es| + 1 && ss[0] == EMPTY by { TraceStarts(fx, ss, es); }
    if ss[n].next <= c {
      NothingYet(fx, ss, es, n, c);
      NotFilled(ss[n], c);
    } else if n == 0 {
    } else {
      EveryByteIsHandledOnce(fx, ss, es, n - 1, c);
      ByteStep(fx, ss, es, n - 1, c);
    }
  }

  lemma NotFilled(s: Board, c: Id)
    requires c !in s.clients
    ensures Filled(s, c) == [] && !DeadInput(s, c)
  {
  }

  lemma ByteStep(fx: Fixes, ss: seq<Board>, es: seq<Event>, n: nat, c: Id)
    requires Trace(fx, ss, es) && n < |es| && c < ss[n + 1].next
    requires !Lost(ss[n], c) ==> Delivered(es, n, c) == Payloads(Handled(ss, es, n, c)) + Filled(ss[n], c)
    requires Payloads(Handled(ss, es, n, c)) <= Delivered(es, n, c)
    ensures !Lost(ss[n + 1], c) ==> Delivered(es, n + 1, c) == Payloads(Handled(ss, es, n + 1, c)) + Filled(ss[n + 1], c)
    ensures Payloads(Handled(ss, es, n + 1, c)) <= Delivered(es, n + 1, c)
  {
    hide Inv, LogInv, Step, Possible, Allowed, Own, Onward, GoodStep, Trace, FrameOf, Filled, Chunk, DeadInput;
    assert |ss| == |es| + 1 by { TraceStarts(fx, ss, es); }
    TraceStep(fx, ss, es, n);
    StepStream(fx, ss[n], es[n], c);
    var f := FrameOf(ss[n], es[n], c);
    assert |f| <= 1 && (f != [] ==> !Lost(ss[n], c)) by { FrameIsLive(ss[n], es[n], c); }
    PayloadsSnoc(Handled(ss, es, n, c), f);
    var d, p, q := Delivered(es, n, c), Payloads(Handled(ss, es, n, c)), Payloads(f);
    hide Payloads, Lost;
    if !Lost(ss[n], c) {
      Regroup(d, p, Filled(ss[n], c), Chunk(es[n], c), q, Filled(ss[n + 1], c));
      if f == [] { NoPayload(); }
    } else {
      LostForever(fx, ss, es, n, n + 1, c);
      NoPayload();
      assert p + q == p;
    }
    NotLost(ss[n + 1], c);
  }

  lemma NotLost(s: Board, c: Id)
    requires c < s.next
    ensures !Lost(s, c) <==> c in s.clients && !DeadInput(s, c)
  {
  }

  lemma NoPayload()
    ensures Payloads([]) == []
  {
  }

  lemma Regroup(d: seq<byte>, p: seq<byte>, had: seq<byte>, chunk: seq<byte>, q: seq<byte>, left: seq<byte>)
    requires d == p + had
    ensures had + chunk == q + left ==> d + chunk == p + q + left
    ensures q == had + chunk || q == [] ==> p + q <= d + chunk
  {
    if had + chunk == q + left { assert d + chunk == p + (had + chunk); }
    if q == had + chunk { assert p + q == d + chunk; }
  }

  lemma FrameIsLive(s: Board, e: Event, c: Id)
    ensures |FrameOf(s, e, c)| <= 1 && (FrameOf(s, e, c) != [] ==> !Lost(s, c))
  {
  }
}
