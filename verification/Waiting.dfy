/** Clients that wait for a reply which cannot come. */
module Waiting {
  import opened Sequences
  import opened Board
  import opened Invariant
  import opened Steps
  import opened History
  import opened Turning
  import opened Stream
  import opened Traces
  import opened Messages
  import opened Conservation
  import opened Clocks
  import opened Responses
  import opened Ledger
  import opened Holdings
  import opened Replies

  predicate IsParked(s: Board, c: Id) {
    c in s.clients && s.clients[c].conn.AwaitReply?
  }

  /** A call of `c` is out, and `c` waits for it. */
  predicate Awaited(s: Board, c: Id, t: Id) {
    Pending(s, t) && s.calls[t].client == c && Expects(s, c, t)
  }

  /** `c` waits for a reply, and no call is out that it waits for. */
  ghost predicate Hopeless(s: Board, c: Id) {
    IsParked(s, c) && forall t :: !Awaited(s, c, t)
  }

  /** A live call of a parked client that it waits for is out. */
  lemma ExpectedIsOut(s: Board, c: Id, t: Id)
    requires Inv(s) && IsParked(s, c) && t in s.calls && s.calls[t].client == c && Expects(s, c, t)
    ensures Awaited(s, c, t)
  {
    hide Inv;
    OnItsList(s, c, t);
    if Done(s, t) { NotParked(s, t); }
  }

  // ---------- what was written to a client ----------

  lemma {:induction false} OutboxGrows(log: seq<Entry>, log': seq<Entry>, d: Id)
    requires |log| <= |log'| && forall i :: 0 <= i < |log| ==> log'[i] == log[i]
    ensures Outbox(log, d) <= Outbox(log', d)
    ensures Outbox(log, d) != Outbox(log', d) ==> exists i :: |log| <= i < |log'| && To(log'[i], d) && Last(Outbox(log', d)) == log'[i]
    ensures Outbox(log, d) != Outbox(log', d) ==> Outbox(log', d) != []
    decreases |log'|
  {
    if |log| == |log'| {
      assert log == log';
    } else {
      OutboxGrows(log, log'[..|log'| - 1], d);
    }
  }

  lemma LastKind(q: seq<Entry>)
    requires q != []
    ensures Kinds(q) != [] && Last(Kinds(q)) == KindOf(Last(q))
  {
  }

  /** All that is written to a parked client is the answer it waits for. */
  lemma PaidIsAnswer(s: Board, e: Event, r: Board, c: Id) returns (i: nat)
    requires LogGrows(s, r) && Pays(s, e, r) && IsParked(s, c) && Paid(r, c) != Paid(s, c)
    ensures |s.log| <= i < |r.log| && To(r.log[i], c) && AnswersGet(r.log[i])
  {
    hide Outbox, Kinds, FrameOf, Asks, Pays;
    PaidAtMost(s, e, r, c);
    OutboxGrows(s.log, r.log, c);
    var q := Outbox(r.log, c);
    assert Paid(r, c) == Paid(s, c) + [AReply];
    LastKind(q);
    i :| |s.log| <= i < |r.log| && To(r.log[i], c) && Last(q) == r.log[i];
    assert Last(Paid(r, c)) == AReply;
  }

  lemma PaidAtMost(s: Board, e: Event, r: Board, c: Id)
    requires Pays(s, e, r) && IsParked(s, c)
    ensures Paid(r, c) <= Paid(s, c) + [AReply]
    ensures c in r.clients ==> Paid(r, c) + Owed(r, c, c, []) == Paid(s, c) + [AReply]
  {
    hide Paid, FrameOf, Asks;
    ParkedHasNoFrame(s, e, c);
    assert Account(s, c, c, []) + [] == Paid(s, c) + [AReply];
  }

  // ---------- one event ----------

  /** Whoever waits and stays connected does not act. */
  lemma ParkedIsPassive(fx: Fixes, s: Board, e: Event, r: Board, c: Id)
    requires Inv(s) && Possible(s, e) && ClientsAfter(s, e, r) && IsParked(s, c) && c in r.clients
    ensures Actor(s, e) != c
  {
    hide Inv;
    InvNextFree(s);
  }

  /** A new call is one of the client whose event it is. */
  lemma NewCallIsActors(fx: Fixes, ss: seq<Board>, es: seq<Event>, n: nat, t: Id)
    requires Trace(fx, ss, es) && n < |es| && t in ss[n + 1].calls && t !in ss[n].calls
    ensures ss[n + 1].calls[t].client == Actor(ss[n], es[n])
  {
    hide Inv, LogInv, Step, Possible, Allowed, Own, Onward, GoodStep, Trace, FrameOf;
    TraceStarts(fx, ss, es);
    HeadStays(fx, ss, es, n, t);
    var j := NewlyAccepted(fx, ss, es, n, t);
    TraceStep(fx, ss, es, n);
    WrittenFromFrame(fx, ss[n], es[n], ss[n + 1], j);
    var a := AcceptEntry(ss[n + 1].calls[t], t);
    AcceptedIsLogged(ss[n + 1], t);
    LogIsSound(ss[n + 1]);
    OnlyOneAccepted(ss[n + 1].log, a, ss[n + 1].log[j]);
  }

  lemma CallerStays(fx: Fixes, ss: seq<Board>, es: seq<Event>, n: nat, t: Id)
    requires Trace(fx, ss, es) && n < |es| && t in ss[n + 1].calls && t in ss[n].calls
    ensures ss[n + 1].calls[t].client == ss[n].calls[t].client
  {
    hide Inv, LogInv, Step, Possible, Allowed, Own, GoodStep, Trace, OthersOnward, NamesOnward;
    TraceStarts(fx, ss, es);
    TraceStep(fx, ss, es, n);
    InvSerials(ss[n], t);
  }

  /** Nothing is sent to a client without hope, and it stays so. */
  lemma HopelessStep(fx: Fixes, ss: seq<Board>, es: seq<Event>, n: nat, c: Id)
    requires Trace(fx, ss, es) && n < |es| && Hopeless(ss[n], c)
    ensures c in ss[n + 1].clients ==> Hopeless(ss[n + 1], c)
    ensures Paid(ss[n + 1], c) == Paid(ss[n], c)
  {
    hide Inv, LogInv, Step, Possible, Allowed, Own, Onward, GoodStep, Trace, Pays, Awaited, Expects, ListsAfter, AsksNow, Paid;
    TraceStarts(fx, ss, es);
    TraceStep(fx, ss, es, n);
    TraceGrows(fx, ss, es, n, n + 1);
    var s, e, r := ss[n], es[n], ss[n + 1];
    StepPays(fx, s, e);
    var u := StepCollecting(fx, s, e, r);
    if Paid(r, c) != Paid(s, c) {
      var i := PaidIsAnswer(s, e, r, c);
      NotAnswered(fx, ss, es, n, c, i);
    }
    if c in r.clients {
      ParkedIsPassive(fx, s, e, r, c);
      PaidAtMost(s, e, r, c);
      assert Owed(r, c, c, []) == [AReply] by { SameTail(Paid(s, c), Owed(r, c, c, []), [AReply]); }
      assert !AsksNow(s, e, c) by { ParkedAsksNothing(s, e, c); }
      forall t ensures !Awaited(r, c, t) {
        if Awaited(r, c, t) { WasAwaited(fx, ss, es, n, c, t); }
      }
    }
  }

  lemma SameTail(p: seq<Kind>, x: seq<Kind>, y: seq<Kind>)
    requires p + x == p + y
    ensures x == y
  {
    assert (p + x)[|p|..] == x && (p + y)[|p|..] == y;
  }

  lemma ParkedAsksNothing(s: Board, e: Event, c: Id)
    requires IsParked(s, c)
    ensures !AsksNow(s, e, c)
  {
    ParkedHasNoFrame(s, e, c);
  }

  lemma NotAnswered(fx: Fixes, ss: seq<Board>, es: seq<Event>, n: nat, c: Id, i: nat)
    requires Trace(fx, ss, es) && n < |es| && Hopeless(ss[n], c) && RepliesAfter(ss[n], es[n], ss[n + 1])
    requires |ss[n].log| <= i < |ss[n + 1].log| && To(ss[n + 1].log[i], c)
    ensures !AnswersGet(ss[n + 1].log[i])
  {
    hide Inv, LogInv, Trace, Awaited, Expects, FrameOf;
    TraceStarts(fx, ss, es);
    ParkedHasNoFrame(ss[n], es[n], c);
    if AnswersGet(ss[n + 1].log[i]) {
      TraceGood(fx, ss, es, n);
      ReplyHasCd(fx, ss, es, n, n + 1, i);
      ExpectedIsOut(ss[n], c, ss[n + 1].log[i].call);
    }
  }

  lemma WasAwaited(fx: Fixes, ss: seq<Board>, es: seq<Event>, n: nat, c: Id, t: Id)
    requires Trace(fx, ss, es) && n < |es| && IsParked(ss[n], c) && Awaited(ss[n + 1], c, t) && Actor(ss[n], es[n]) != c
    requires Less(ss[n].clients[c].wait4, ss[n + 1].clients[c].wait4)
    ensures Awaited(ss[n], c, t)
  {
    hide Inv, LogInv, Trace;
    TraceStarts(fx, ss, es);
    TraceGood(fx, ss, es, n);
    if t !in ss[n].calls { NewCallIsActors(fx, ss, es, n, t); }
    CallerStays(fx, ss, es, n, t);
    ExpectedIsOut(ss[n], c, t);
  }

  // ---------- whole runs ----------

  /**
   Over any good run, a client that waits while no call is out that it waits for goes on waiting until it
   disconnects: nothing is ever written to it again.
   */
  lemma HopelessForever(fx: Fixes, ss: seq<Board>, es: seq<Event>, m: nat, n: nat, c: Id)
    requires Trace(fx, ss, es) && m <= n <= |es| && Hopeless(ss[m], c)
    ensures c in ss[n].clients ==> Hopeless(ss[n], c)
    ensures Outbox(ss[n].log, c) == Outbox(ss[m].log, c)
  {
    hide Trace, Hopeless, Inv, LogInv, Outbox;
    TraceStarts(fx, ss, es);
    HopelessSince(fx, ss, es, m, n, c);
    TraceGrows(fx, ss, es, m, n);
    OutboxGrows(ss[m].log, ss[n].log, c);
  }

  lemma {:induction false} HopelessSince(fx: Fixes, ss: seq<Board>, es: seq<Event>, m: nat, n: nat, c: Id)
    requires Trace(fx, ss, es) && m <= n <= |es| && Hopeless(ss[m], c)
    ensures c in ss[n].clients ==> Hopeless(ss[n], c)
    ensures Paid(ss[n], c) == Paid(ss[m], c)
    decreases n
  {
    hide Trace, Awaited, Paid, Inv, LogInv, Step, Possible, Allowed, Own, Onward, GoodStep, Pays, FrameOf;
    TraceStarts(fx, ss, es);
    if m < n {
      HopelessSince(fx, ss, es, m, n - 1, c);
      if c in ss[n - 1].clients {
        HopelessStep(fx, ss, es, n - 1, c);
      } else {
        TraceStep(fx, ss, es, n - 1);
        StepPays(fx, ss[n - 1], es[n - 1]);
        NobodyIsPaid(ss[n - 1], es[n - 1], ss[n], c);
        StaysAway(fx, ss, es, m, n - 1, c);
      }
    }
  }

  /** A client that has left does not come back. */
  lemma StaysAway(fx: Fixes, ss: seq<Board>, es: seq<Event>, m: nat, n: nat, c: Id)
    requires Trace(fx, ss, es) && m <= n < |es| && c in ss[m].clients && c !in ss[n].clients
    ensures c !in ss[n + 1].clients
  {
    hide Trace, Inv, LogInv, Step, Possible, Allowed, Own, Onward, GoodStep, DeadInput;
    TraceStarts(fx, ss, es);
    TraceGood(fx, ss, es, m);
    TraceGrows(fx, ss, es, m, n);
    assert c < ss[m].next by { if ss[m].next <= c { InvSerial(ss[m], c); } }
    TraceStep(fx, ss, es, n);
    assert ClientsAfter(ss[n], es[n], ss[n + 1]);
  }
}
