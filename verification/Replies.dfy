/** Replies over whole runs: in which order they are kept and collected, which request they answer, what they carry. */
module Replies {
  import opened Sequences
  import opened Wire
  import opened Board
  import opened Invariant
  import opened Answer
  import opened Departure
  import opened Handlers
  import opened Steps
  import opened History
  import opened HistorySteps
  import opened Framing
  import opened Turning
  import opened Runs
  import opened Stream
  import opened Traces
  import opened Messages
  import opened Conservation
  import opened Responses
  import opened Holdings

  // ---------- the order of kept replies ----------

  /** The log has the end of `t` before that of `u`. */
  ghost predicate EndedBefore(log: seq<Entry>, t: Id, u: Id) {
    exists i, k :: 0 <= i < k < |log| && Ends(log[i]) && log[i].call == t && Ends(log[k]) && log[k].call == u
  }

  /** Each call ends once, so that one of two ended first. */
  lemma EndOrderIsStrict(log: seq<Entry>, t: Id, u: Id)
    requires Sound(log) && EndedBefore(log, t, u)
    ensures !EndedBefore(log, u, t)
  {
    var i, k :| 0 <= i < k < |log| && Ends(log[i]) && log[i].call == t && Ends(log[k]) && log[k].call == u;
    forall l, j | 0 <= l < j < |log| && Ends(log[l]) && log[l].call == u && Ends(log[j]) && log[j].call == t ensures false {
      EndsOnce(log, i, j);
      EndsOnce(log, k, l);
    }
  }

  lemma EndsOnce(log: seq<Entry>, i: nat, j: nat)
    requires Sound(log) && i < |log| && j < |log| && Ends(log[i]) && Ends(log[j]) && log[i].call == log[j].call
    ensures i == j
  {
    NoClash(log, i, j);
    NoClash(log, j, i);
  }

  ghost predicate InEndOrder(log: seq<Entry>, q: seq<Id>) {
    forall i, j :: 0 <= i < j < |q| ==> EndedBefore(log, q[i], q[j])
  }

  lemma EndedBeforeGrows(s: Board, r: Board, t: Id, u: Id)
    requires LogGrows(s, r) && EndedBefore(s.log, t, u)
    ensures EndedBefore(r.log, t, u)
  {
    var i, k :| 0 <= i < k < |s.log| && Ends(s.log[i]) && s.log[i].call == t && Ends(s.log[k]) && s.log[k].call == u;
    assert r.log[i] == s.log[i] && r.log[k] == s.log[k];
  }

  /** What has ended before ended before what ends now. */
  lemma EndsLater(s: Board, r: Board, t: Id, u: Id)
    requires LogGrows(s, r) && WasEnded(s.log, t) && !WasEnded(s.log, u) && WasEnded(r.log, u)
    ensures EndedBefore(r.log, t, u)
  {
    var i :| 0 <= i < |s.log| && Ends(s.log[i]) && s.log[i].call == t;
    var k :| 0 <= k < |r.log| && Ends(r.log[k]) && r.log[k].call == u;
    assert r.log[i] == s.log[i];
  }

  lemma ExecutingNotEnded(s: Board, t: Id)
    requires LogInv(s) && Executing(s, t)
    ensures !WasEnded(s.log, t)
  {
    hide Sound, Arriving, Queued, Done, WasEnded, WasHanded, WasReplied, WasSubmitted, WasHandedTo, Explained;
    assert CallLogged(s, t);
  }

  lemma ListIsDone(s: Board, d: Id, i: nat)
    requires Inv(s) && LogInv(s) && d in s.clients && i < |s.clients[d].replies|
    ensures Done(s, s.clients[d].replies[i]) && WasEnded(s.log, s.clients[d].replies[i])
  {
    hide Inv, LogInv, WasEnded;
    OnItsList(s, d, s.clients[d].replies[i]);
    DoneIsNoted(s, s.clients[d].replies[i]);
  }

  lemma ListIsDistinct(s: Board, d: Id, i: nat, j: nat)
    requires Inv(s) && d in s.clients && i < j < |s.clients[d].replies|
    ensures s.clients[d].replies[i] != s.clients[d].replies[j]
  {
    hide Tables, Queues, Workers, Waiters, Buffers, Phases, Cds;
  }

  lemma OrderStep(s: Board, r: Board, t: Option<Id>, d: Id)
    requires Inv(s) && LogInv(s) && Inv(r) && LogInv(r) && LogGrows(s, r) && d in r.clients
    requires ListsAfter(s, r, Ending(t)) && (t.Some? ==> Executing(s, t.value))
    requires d in s.clients ==> InEndOrder(s.log, s.clients[d].replies)
    ensures InEndOrder(r.log, r.clients[d].replies)
  {
    hide Inv, LogInv, WasEnded, EndedBefore, Executing, Done;
    var q' := r.clients[d].replies;
    forall i, j | 0 <= i < j < |q'| ensures EndedBefore(r.log, q'[i], q'[j]) {
      var q := s.clients[d].replies;
      if q' == q {
        EndedBeforeGrows(s, r, q[i], q[j]);
      } else if Before(q, q'[i], q'[j]) {
        var a, b :| 0 <= a < b < |q| && q[a] == q'[i] && q[b] == q'[j];
        EndedBeforeGrows(s, r, q[a], q[b]);
      } else {
        ListIsDistinct(r, d, i, j);
        assert t == Some(q'[j]) && q'[i] in q;
        var a :| 0 <= a < |q| && q[a] == q'[i];
        ListIsDone(s, d, a);
        ListIsDone(r, d, j);
        ExecutingNotEnded(s, q'[j]);
        EndsLater(s, r, q'[i], q'[j]);
      }
    }
  }

  /** Over any good run, the kept replies of a client stand in the order in which their calls ended. */
  lemma {:induction false} RepliesInOrder(fx: Fixes, ss: seq<Board>, es: seq<Event>, n: nat, d: Id)
    requires Trace(fx, ss, es) && n <= |es| && d in ss[n].clients
    ensures InEndOrder(ss[n].log, ss[n].clients[d].replies)
    decreases n
  {
    hide Inv, LogInv, Step, Possible, Allowed, Own, Onward, GoodStep, Trace, ListsAfter, WaitersAfter, RepliesAfter, Executing, InEndOrder;
    TraceStarts(fx, ss, es);
    assert n > 0;
    if d in ss[n - 1].clients { RepliesInOrder(fx, ss, es, n - 1, d); }
    TraceStep(fx, ss, es, n - 1);
    TraceGrows(fx, ss, es, n - 1, n);
    var t := StepCollecting(fx, ss[n - 1], es[n - 1], ss[n]);
    OrderStep(ss[n - 1], ss[n], t, d);
  }

  /** The reply to `t` is kept for `c`. */
  predicate KeptFor(s: Board, c: Id, t: Id) {
    Done(s, t) && s.calls[t].client == c
  }

  /** Of the kept replies of `c`, that to `t` came first. */
  ghost predicate FirstOfKept(s: Board, c: Id, t: Id) {
    KeptFor(s, c, t) && forall u :: KeptFor(s, c, u) && u != t ==> EndedBefore(s.log, t, u) && !EndedBefore(s.log, u, t)
  }

  /** Over any good run, a request for any reply that is answered at once gets the one whose call ended first. */
  lemma FirstEndedFirst(fx: Fixes, ss: seq<Board>, es: seq<Event>, n: nat, c: Id, b: seq<byte>) returns (t: Id)
    requires Trace(fx, ss, es) && n < |es| && FrameOf(ss[n], es[n], c) == [Framed(GetReply, b)] && |b| == CommandLength(GetReply)
    requires FlagSet(ToLong(b, IOSHORT), TPGETANY) && exists u :: KeptFor(ss[n], c, u)
    ensures FirstOfKept(ss[n], c, t) && Wrote(ss[n], ss[n + 1], ReplyEntry(ss[n], t))
  {
    hide Inv, LogInv, Step, Possible, Allowed, Own, Onward, GoodStep, Trace, FrameOf, ToLong, FlagSet, KeptFor, EndedBefore, Sound;
    TraceStarts(fx, ss, es);
    TraceStep(fx, ss, es, n);
    var s := ss[n];
    RequestRuns(fx, s, es[n], ss[n + 1], c, GetReply, b);
    var q := s.clients[c].replies;
    forall u ensures u in q <==> KeptFor(s, c, u) { KeptIsListed(s, c, u); }
    var u :| KeptFor(s, c, u);
    assert u in q;
    GetReplyAny(fx, s, es[n], ss[n + 1], c, b, ToLong(b, IOSHORT));
    t := q[0];
    RepliesInOrder(fx, ss, es, n, c);
    assert Sound(s.log) by { LogIsSound(s); }
    forall u | KeptFor(s, c, u) && u != t ensures EndedBefore(s.log, t, u) && !EndedBefore(s.log, u, t) {
      var k :| 0 <= k < |q| && q[k] == u;
      EndOrderIsStrict(s.log, t, u);
    }
  }

  lemma KeptIsListed(s: Board, c: Id, t: Id)
    requires Inv(s) && c in s.clients
    ensures t in s.clients[c].replies <==> KeptFor(s, c, t)
  {
    hide Inv;
    OnItsList(s, c, t);
  }

  // ---------- the request that a reply answers ----------

  /** Since event `m`, which completed the request `b`, no other request of `c` has been completed. */
  ghost predicate LastAsked(ss: seq<Board>, es: seq<Event>, m: nat, n: nat, c: Id, b: seq<byte>)
    requires m <= n < |es| < |ss|
  {
    && FrameOf(ss[m], es[m], c) == [Framed(GetReply, b)] && |b| == CommandLength(GetReply)
    && forall i :: m < i <= n ==> FrameOf(ss[i], es[i], c) == []
  }

  /** The reply is what the request asks for: any, or the one under its descriptor. */
  predicate Fits(b: seq<byte>, x: Entry)
    requires |b| == CommandLength(GetReply) && x.Replied?
  {
    FlagSet(ToLong(b, IOSHORT), TPGETANY) || x.cd == AsShort(ToShort(b, 0))
  }

  lemma {:induction false} ParkedSince(fx: Fixes, ss: seq<Board>, es: seq<Event>, n: nat, c: Id) returns (m: nat)
    requires Trace(fx, ss, es) && n <= |es| && c in ss[n].clients && ss[n].clients[c].conn.AwaitReply?
    ensures m < n && AsksNow(ss[m], es[m], c)
    ensures forall i :: m < i <= n ==> c in ss[i].clients && ss[i].clients[c].conn.AwaitReply?
    ensures Less(ss[m + 1].clients[c].wait4, ss[n].clients[c].wait4)
    decreases n
  {
    hide Inv, LogInv, Step, Possible, Allowed, Own, Onward, GoodStep, Trace, ListsAfter, RepliesAfter, AsksNow;
    TraceStarts(fx, ss, es);
    assert n > 0;
    TraceStep(fx, ss, es, n - 1);
    var t := StepCollecting(fx, ss[n - 1], es[n - 1], ss[n]);
    if AsksNow(ss[n - 1], es[n - 1], c) { m := n - 1; } else { m := ParkedSince(fx, ss, es, n - 1, c); }
  }

  lemma ParkedHasNoFrame(s: Board, e: Event, c: Id)
    requires c in s.clients && s.clients[c].conn.AwaitReply?
    ensures FrameOf(s, e, c) == []
  {
  }

  lemma AsksWith(fx: Fixes, ss: seq<Board>, es: seq<Event>, m: nat, c: Id) returns (b: seq<byte>)
    requires Trace(fx, ss, es) && m < |es| && AsksNow(ss[m], es[m], c)
    ensures FrameOf(ss[m], es[m], c) == [Framed(GetReply, b)] && |b| == CommandLength(GetReply)
    ensures HandlesRequest(fx, ss[m], es[m], ss[m + 1], c, GetReply, b)
  {
    hide Inv, LogInv, Step, Possible, Allowed, Own, Onward, GoodStep, Trace, FrameOf;
    TraceStarts(fx, ss, es);
    TraceStep(fx, ss, es, m);
    b := FrameOf(ss[m], es[m], c)[0].payload;
    RequestRuns(fx, ss[m], es[m], ss[m + 1], c, GetReply, b);
  }

  /** A reply that is sent at once fits the request. */
  lemma AtOnceFits(fx: Fixes, s: Board, e: Event, r: Board, c: Id, b: seq<byte>, j: nat)
    requires HandlesRequest(fx, s, e, r, c, GetReply, b) && |b| == CommandLength(GetReply)
    requires |s.log| <= j < |r.log| && r.log[j].Replied?
    ensures Fits(b, r.log[j]) && r.log[j].call in s.calls && r.log[j] == ReplyEntry(s, r.log[j].call)
  {
    hide HandlesRequest, Of, Done, Pending, FlagSet, ToLong, ToShort, AsShort, Parks;
    var cd, flags := AsShort(ToShort(b, 0)), ToLong(b, IOSHORT);
    if FlagSet(flags, TPGETANY) {
      GetReplyAny(fx, s, e, r, c, b, flags);
    } else {
      GetReplyByDescriptor(fx, s, e, r, c, b, cd, flags);
      var x :| Wrote(s, r, x);
      OfIsLive(s, c, cd, x.call);
    }
  }

  lemma OfIsLive(s: Board, c: Id, cd: Short, t: Id)
    requires Of(s, c, cd, t)
    ensures t in s.calls
  {
  }

  /** A reply carries the descriptor of its call, and goes to its caller. */
  lemma ReplyHasCd(fx: Fixes, ss: seq<Board>, es: seq<Event>, m: nat, n: nat, j: nat)
    requires Trace(fx, ss, es) && m <= n <= |es| && j < |ss[n].log| && ss[n].log[j].Replied? && ss[n].log[j].call in ss[m].calls
    ensures ss[n].log[j].cd == ss[m].calls[ss[n].log[j].call].cd && ss[n].log[j].to == ss[m].calls[ss[n].log[j].call].client
  {
    hide Inv, LogInv, Trace;
    TraceStarts(fx, ss, es);
    TraceGood(fx, ss, es, m);
    TraceGood(fx, ss, es, n);
    TraceGrows(fx, ss, es, m, n);
    var log, x := ss[n].log, ss[n].log[j];
    var a := AcceptEntry(ss[m].calls[x.call], x.call);
    AcceptedIsLogged(ss[m], x.call);
    StillIn(ss[m].log, log, a);
    LogIsSound(ss[n]);
    var v, flags := RepliedAccepted(log, j);
    OnlyOneAccepted(log, a, Accepted(x.to, x.call, x.cd, v, flags));
  }

  lemma RepliedAccepted(log: seq<Entry>, j: nat) returns (v: Id, flags: int)
    requires Sound(log) && j < |log| && log[j].Replied?
    ensures Accepted(log[j].to, log[j].call, log[j].cd, v, flags) in log
  {
    assert Fair(log[..j], log[j]);
    v, flags :| Accepted(log[j].to, log[j].call, log[j].cd, v, flags) in log[..j];
  }

  /** A reply for which the client was parked fits the request that parked it. */
  lemma LaterFits(fx: Fixes, ss: seq<Board>, es: seq<Event>, m: nat, p: nat, c: Id, b: seq<byte>, j: nat)
    requires Trace(fx, ss, es) && m < p < |es| && |b| == CommandLength(GetReply)
    requires HandlesRequest(fx, ss[m], es[m], ss[m + 1], c, GetReply, b)
    requires c in ss[m + 1].clients && ss[m + 1].clients[c].conn.AwaitReply?
    requires j < |ss[p + 1].log| && ss[p + 1].log[j].Replied? && ParkedFor(ss[p], c, ss[p + 1].log[j].call)
    requires Less(ss[m + 1].clients[c].wait4, ss[p].clients[c].wait4)
    ensures Fits(b, ss[p + 1].log[j])
  {
    hide Trace, HandlesRequest, FlagSet, ToLong, ToShort, AsShort, Wrote, Done, Pending;
    TraceStarts(fx, ss, es);
    var cd, flags, w := AsShort(ToShort(b, 0)), ToLong(b, IOSHORT), ss[m + 1].clients[c].wait4;
    if !FlagSet(flags, TPGETANY) {
      GetReplyByDescriptor(fx, ss[m], es[m], ss[m + 1], c, b, cd, flags);
      assert Parks(ss[m + 1], c, w);
      ReplyHasCd(fx, ss, es, m, p + 1, j);
    }
  }

  /**
   Over any good run, every reply answers the last request of its client, a request for any reply or for the
   reply under that very descriptor.
   */
  lemma ReplyWasAskedFor(fx: Fixes, ss: seq<Board>, es: seq<Event>, j: nat) returns (m: nat, p: nat, b: seq<byte>)
    requires Trace(fx, ss, es) && j < |ss[|es|].log| && ss[|es|].log[j].Replied?
    ensures m <= p < |es| && |ss[p].log| <= j < |ss[p + 1].log|
    ensures LastAsked(ss, es, m, p, ss[|es|].log[j].to, b) && Fits(b, ss[|es|].log[j])
  {
    hide Inv, LogInv, Step, Possible, Allowed, Own, Onward, GoodStep, Trace, ListsAfter, WaitersAfter, AsksNow, ParkedFor, Fits, HandlesRequest;
    TraceStarts(fx, ss, es);
    p := WrittenAt(fx, ss, es, |es|, j);
    var x := ss[|es|].log[j];
    assert ss[p + 1].log[j] == x;
    TraceStep(fx, ss, es, p);
    var t := StepCollecting(fx, ss[p], es[p], ss[p + 1]);
    if AsksNow(ss[p], es[p], x.to) {
      m := p;
      b := AsksWith(fx, ss, es, p, x.to);
      AtOnceFits(fx, ss[p], es[p], ss[p + 1], x.to, b, j);
    } else {
      assert x.to in ss[p].clients && ss[p].clients[x.to].conn.AwaitReply? by { ParkedIsThere(ss[p], x.to, x.call); }
      m := ParkedSince(fx, ss, es, p, x.to);
      b := AsksWith(fx, ss, es, m, x.to);
      LaterFits(fx, ss, es, m, p, x.to, b, j);
      forall i | m < i <= p ensures FrameOf(ss[i], es[i], x.to) == [] { ParkedHasNoFrame(ss[i], es[i], x.to); }
    }
  }

  lemma ParkedIsThere(s: Board, c: Id, t: Id)
    requires ParkedFor(s, c, t)
    ensures c in s.clients && s.clients[c].conn.AwaitReply?
  {
  }

  // ---------- what the reply of a failed worker carries ----------

  /** A departure runs `del_client`. */
  lemma DepartureRuns(fx: Fixes, s: Board, e: Event, r: Board, c: Id) returns (m: Board, order: seq<Id>)
    requires Inv(s) && Possible(s, e) && Allowed(fx, s, e) && Step(fx, s, e) == Ok(r) && Actor(s, e) == c && c in s.clients && c !in r.clients
    ensures DelClient(fx, m, c, order) == Ok(r) && (m == s || m == Unarm(s, c))
  {
    hide Inv, DelClient, Walks, GoodBatches, HandlerOk, LeaveOk, ReadScratch, ReadData;
    m := s;
    match e
    case Arrive =>
      order := [];
      InvNextFree(s);
      assert false;
    case Leave(_, o) => order := o;
    case Read(_, chunk, env) =>
      order := env.order;
      StepKeeps(fx, s, e);
      if s.clients[c].conn.Receiving? {
        m := Unarm(s, c);
        HangUpRuns(fx, s, e, r, c);
      }
  }

  lemma HangUpRuns(fx: Fixes, s: Board, e: Event, r: Board, c: Id)
    requires Inv(s) && Possible(s, e) && Allowed(fx, s, e) && Step(fx, s, e) == Ok(r) && e.Read? && e.c == c
    requires s.clients[c].conn.Receiving? && HangsUp(s, c, e.chunk)
    ensures DelClient(fx, Unarm(s, c), c, e.env.order) == Ok(r)
  {
    hide Inv, DelClient, Walks, GoodBatches, HandlerOk;
    InvFits(s, c);
    assert Splice(s.clients[c].conn.input.bytes, 0, e.chunk) == e.chunk;
  }

  /** The reply that a departure causes, at once or later, has the contents the call had. */
  lemma AbandonedAsItWas(fx: Fixes, s: Board, e: Event, r: Board, w: Id, t: Id)
    requires Inv(s) && Possible(s, e) && Allowed(fx, s, e) && Step(fx, s, e) == Ok(r) && LeavesExecuting(s, e, r, w, t)
    ensures t in r.calls ==> r.calls[t].data == s.calls[t].data
    ensures WasEnded(r.log, t)
    ensures forall i :: |s.log| <= i < |r.log| && r.log[i].Replied? ==> r.log[i].call == t && r.log[i].data == s.calls[t].data
  {
    hide Inv, Step, Possible, Allowed, DelClient, Passes;
    var m, order := DepartureRuns(fx, s, e, r, w);
    DelClientConcludes(fx, m, w, order);
    assert s.clients[w].wait4 == For(t) by { ExecutorWaitsFor(s, t); }
    assert r.log[|s.log|] == Abandoned(w, t);
  }

  lemma ExecutorWaitsFor(s: Board, t: Id)
    requires Inv(s) && t in s.calls && s.calls[t].executor.Some?
    ensures s.calls[t].executor.value in s.clients && s.clients[s.calls[t].executor.value].wait4 == For(t)
  {
    hide Tables, Lists, Queues, Waiters, Buffers, Phases, Cds;
  }

  /** Nobody writes to a call whose reply is kept. */
  lemma DoneStays(fx: Fixes, ss: seq<Board>, es: seq<Event>, n: nat, t: Id)
    requires Trace(fx, ss, es) && n < |es| && Done(ss[n], t) && t in ss[n + 1].calls
    ensures ss[n + 1].calls[t].data == ss[n].calls[t].data
  {
    hide Inv, LogInv, Step, Possible, Allowed, Own, GoodStep, Trace, OthersOnward, NamesOnward;
    TraceStarts(fx, ss, es);
    TraceStep(fx, ss, es, n);
    InvSerials(ss[n], t);
    DoneIsNobodys(ss[n], Actor(ss[n], es[n]), t);
  }

  lemma DoneIsNobodys(s: Board, c: Id, t: Id)
    requires Inv(s) && Done(s, t)
    ensures t !in Own(s, c)
  {
    hide Inv, Arriving, Queued;
    if c in s.clients && ReadsInto(s.clients[c], t) {
      ReadsAsExecutor(s, c, t);
      if s.clients[c].conn.handler == CallBody { IsArriving(s, c, t); }
    }
    InOnePlaceAlways(s, t);
  }

  lemma IsArriving(s: Board, c: Id, t: Id)
    requires c in s.clients && ReadsInto(s.clients[c], t) && s.clients[c].conn.handler == CallBody && t in s.calls && s.calls[t].client == c
    ensures Arriving(s, t)
  {
  }

  lemma {:induction false} KeptAsItWas(fx: Fixes, ss: seq<Board>, es: seq<Event>, p: nat, n: nat, t: Id)
    requires Trace(fx, ss, es) && p <= n <= |es| && Done(ss[p], t) && t in ss[n].calls
    ensures Done(ss[n], t) && ss[n].calls[t].data == ss[p].calls[t].data
    decreases n
  {
    hide Trace, Done;
    TraceStarts(fx, ss, es);
    if p < n {
      var m := KeptReplyStays(fx, ss, es, p, n, t);
      assert Done(ss[n - 1], t);
      assert t in ss[n - 1].calls by { DoneIsLive(ss[n - 1], t); }
      KeptAsItWas(fx, ss, es, p, n - 1, t);
      DoneStays(fx, ss, es, n - 1, t);
    }
  }

  lemma DoneIsLive(s: Board, t: Id)
    requires Done(s, t)
    ensures t in s.calls
  {
  }

  /** A kept reply is sent as it is kept. */
  lemma KeptIsSentAsKept(fx: Fixes, ss: seq<Board>, es: seq<Event>, p: nat, j: nat)
    requires Trace(fx, ss, es) && p < |es| && |ss[p].log| <= j < |ss[p + 1].log| && ss[p + 1].log[j].Replied? && Done(ss[p], ss[p + 1].log[j].call)
    ensures ss[p + 1].log[j].data == ss[p].calls[ss[p + 1].log[j].call].data
  {
    hide Inv, LogInv, Step, Possible, Allowed, Own, Onward, GoodStep, Trace, ListsAfter, WaitersAfter, AsksNow, HandlesRequest;
    TraceStarts(fx, ss, es);
    TraceStep(fx, ss, es, p);
    var x := ss[p + 1].log[j];
    var t := StepCollecting(fx, ss[p], es[p], ss[p + 1]);
    if AsksNow(ss[p], es[p], x.to) {
      var b := AsksWith(fx, ss, es, p, x.to);
      AtOnceFits(fx, ss[p], es[p], ss[p + 1], x.to, b, j);
    } else {
      NotParkedForKept(fx, ss, es, p, j);
    }
  }

  lemma NotParkedForKept(fx: Fixes, ss: seq<Board>, es: seq<Event>, p: nat, j: nat)
    requires Trace(fx, ss, es) && p < |es| && j < |ss[p + 1].log| && ss[p + 1].log[j].Replied?
    requires Done(ss[p], ss[p + 1].log[j].call)
    ensures !ParkedFor(ss[p], ss[p + 1].log[j].to, ss[p + 1].log[j].call)
  {
    hide Inv, LogInv, Trace, ParkedFor;
    TraceStarts(fx, ss, es);
    TraceGood(fx, ss, es, p);
    ReplyHasCd(fx, ss, es, p, p + 1, j);
    NotParked(ss[p], ss[p + 1].log[j].call);
  }

  lemma NotParked(s: Board, t: Id)
    requires Inv(s) && Done(s, t)
    ensures !ParkedFor(s, s.calls[t].client, t)
  {
    hide InvX, Distinct;
    InvWaiters(s, TIGHT);
    InvOwned(s, TIGHT);
  }

  /**
   Over any good run, a reply that its worker did not return carries what the data of the call was when the
   worker left: the request, or what had come of the reply.
   */
  lemma FailureCarriesData(fx: Fixes, ss: seq<Board>, es: seq<Event>, j: nat) returns (m: nat, w: Id)
    requires Trace(fx, ss, es) && j < |ss[|es|].log| && ss[|es|].log[j].Replied?
    requires var e := ss[|es|].log[j]; forall d :: Returned(d, e.call, e.rval, e.rcode, e.data) !in ss[|es|].log[..j]
    ensures m < |es| && LeavesExecuting(ss[m], es[m], ss[m + 1], w, ss[|es|].log[j].call)
    ensures ss[|es|].log[j].data == ss[m].calls[ss[|es|].log[j].call].data
  {
    hide Inv, LogInv, Step, Possible, Allowed, Own, Onward, GoodStep, Trace, Done, WasEnded;
    TraceStarts(fx, ss, es);
    m, w := FailureMeansDeparture(fx, ss, es, j);
    var x := ss[|es|].log[j];
    TraceStep(fx, ss, es, m);
    AbandonedAsItWas(fx, ss[m], es[m], ss[m + 1], w, x.call);
    var p := WrittenAt(fx, ss, es, |es|, j);
    assert m <= p by { if p < m { TraceGrows(fx, ss, es, p + 1, m); } }
    if m < p {
      assert x.call in ss[p].calls by { RepliedWasThere(fx, ss, es, m, p, j); }
      assert x.call in ss[m + 1].calls by { WasThere(fx, ss, es, m, p, x.call); }
      EndedIsDone(ss[m + 1], x.call);
      KeptAsItWas(fx, ss, es, m + 1, p, x.call);
      KeptIsSentAsKept(fx, ss, es, p, j);
    }
  }

  lemma WasThere(fx: Fixes, ss: seq<Board>, es: seq<Event>, m: nat, p: nat, t: Id)
    requires Trace(fx, ss, es) && m < p <= |es| && t in ss[m].calls && t in ss[p].calls
    ensures t in ss[m + 1].calls
  {
    hide Trace, Ended;
    TraceStarts(fx, ss, es);
    var k := Lifetime(fx, ss, es, m, p, t);
  }

  /** A call is answered while it is there. */
  lemma RepliedWasThere(fx: Fixes, ss: seq<Board>, es: seq<Event>, m: nat, p: nat, j: nat)
    requires Trace(fx, ss, es) && m <= p < |es| && |ss[p].log| <= j < |ss[p + 1].log| && ss[p + 1].log[j].Replied?
    requires ss[p + 1].log[j].call in ss[m].calls
    ensures ss[p + 1].log[j].call in ss[p].calls
  {
    hide Inv, LogInv, Step, Possible, Allowed, Own, Onward, GoodStep, Trace, ListsAfter, WaitersAfter, AsksNow, HandlesRequest;
    TraceStarts(fx, ss, es);
    TraceStep(fx, ss, es, p);
    var x := ss[p + 1].log[j];
    var t := StepCollecting(fx, ss[p], es[p], ss[p + 1]);
    if AsksNow(ss[p], es[p], x.to) {
      var b := AsksWith(fx, ss, es, p, x.to);
      AtOnceFits(fx, ss[p], es[p], ss[p + 1], x.to, b, j);
    }
  }
}
