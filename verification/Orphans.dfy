/** Workers whose caller leaves while they send the reply: exactly their connections can never be served again. */
module Orphans {
  import opened Sequences
  import opened Board
  import opened Invariant
  import opened Touch
  import opened Answer
  import opened Departure
  import opened Handlers
  import opened Steps
  import opened Exactness
  import opened Calmness
  import opened History
  import opened Turning
  import opened Stream
  import opened Traces
  import opened HistorySteps
  import opened Conservation

  // ---------- whether a client waits for any reply makes no difference to deletions ----------

  /** `d`, if it waits for any reply, gives up waiting. */
  function Eased(s: Board, d: Id): Board {
    if d in s.clients && s.clients[d].wait4 == AnyReply then PutClient(s, d, s.clients[d].(wait4 := Nothing)) else s
  }

  function EasedAfter(o: Outcome, d: Id): Outcome {
    if o.Ok? then Ok(Eased(o.board, d)) else o
  }

  lemma EasedDelCall(s: Board, t: Id, d: Id)
    requires t in s.calls
    ensures DelCall(Eased(s, d), t) == Eased(DelCall(s, t), d)
  {
    var a, b := DelCall(Eased(s, d), t), Eased(DelCall(s, t), d);
    hide *;
    EasedElsewhere(s, t, d);
    forall c | c in a.clients ensures a.clients[c] == b.clients[c] { EasedForgets(s, t, d, c); }
    assert a.clients == b.clients;
  }

  lemma EasedElsewhere(s: Board, t: Id, d: Id)
    requires t in s.calls
    ensures t in Eased(s, d).calls
    ensures var a, b := DelCall(Eased(s, d), t), Eased(DelCall(s, t), d);
      && a.clients.Keys == b.clients.Keys == s.clients.Keys && a == b.(clients := a.clients)
  {
    hide Without;
  }

  lemma EasedForgets(s: Board, t: Id, d: Id, c: Id)
    requires t in s.calls && c in s.clients
    ensures c in DelCall(Eased(s, d), t).clients && DelCall(Eased(s, d), t).clients[c] == Eased(DelCall(s, t), d).clients[c]
  {
    hide Without;
  }

  lemma {:induction false} EasedDrain(s: Board, v: Id, d: Id)
    ensures Drain(Eased(s, d), v) == EasedAfter(Drain(s, v), d)
    decreases if v in s.services then |s.services[v].waitq| else 0
  {
    hide Without, DelCall;
    if v in s.services && s.services[v].waitq != [] && s.services[v].holdsCalls && s.services[v].waitq[0].CallNode?
      && s.services[v].waitq[0].call in s.calls
    {
      var t := s.services[v].waitq[0].call;
      assert CallNode(t) in s.services[v].waitq;
      EasedDelCall(s, t, d);
      QueueShrinks(s, t, v);
      EasedDrain(DelCall(s, t), v, d);
    }
  }

  lemma EasedDropAdvert(s: Board, c: Id, v: Id, d: Id)
    requires c in s.clients
    ensures DropAdvert(Eased(s, d), c, v) == Eased(DropAdvert(s, c, v), d) && c in DropAdvert(s, c, v).clients
  {
    hide Without;
    assert DropAdvert(Eased(s, d), c, v).clients == Eased(DropAdvert(s, c, v), d).clients;
  }

  lemma EasedAdvertises(s: Board, v: Id, d: Id)
    ensures SomeoneAdvertises(Eased(s, d), v) <==> SomeoneAdvertises(s, v)
  {
    if SomeoneAdvertises(s, v) {
      var c :| c in s.clients && v in s.clients[c].adverts;
      assert c in Eased(s, d).clients && v in Eased(s, d).clients[c].adverts;
    }
  }

  lemma EasedDelAdvert(s: Board, c: Id, v: Id, d: Id)
    ensures DelAdvert(Eased(s, d), c, v) == EasedAfter(DelAdvert(s, c, v), d)
  {
    hide Drain, DropAdvert, SomeoneAdvertises;
    if Advertises(s, c, v) {
      EasedDropAdvert(s, c, v, d);
      var s1 := DropAdvert(s, c, v);
      EasedAdvertises(s1, v, d);
      EasedDrain(s1, v, d);
    }
  }

  lemma {:induction false} EasedDelAdverts(s: Board, c: Id, order: seq<Id>, d: Id)
    ensures DelAdverts(Eased(s, d), c, order) == EasedAfter(DelAdverts(s, c, order), d)
    decreases |order|
  {
    hide DelAdvert, Eased;
    if order != [] {
      EasedDelAdvert(s, c, order[0], d);
      if DelAdvert(s, c, order[0]).Ok? { EasedDelAdverts(DelAdvert(s, c, order[0]).board, c, order[1..], d); }
    }
  }

  lemma ListsShorter(s: Board, c: Id, t: Id)
    requires t in s.calls && c in s.clients
    ensures c in DelCall(s, t).clients
    ensures t in s.clients[c].requests ==> |DelCall(s, t).clients[c].requests| < |s.clients[c].requests|
    ensures t in s.clients[c].replies ==> |DelCall(s, t).clients[c].replies| < |s.clients[c].replies|
  {
    hide Without;
  }

  lemma {:induction false} EasedDelRequests(s: Board, c: Id, d: Id)
    ensures DelRequests(Eased(s, d), c) == EasedAfter(DelRequests(s, c), d)
    decreases if c in s.clients then |s.clients[c].requests| else 0
  {
    hide Without, DelCall;
    if c in s.clients && s.clients[c].requests != [] && s.clients[c].requests[0] in s.calls {
      var t := s.clients[c].requests[0];
      assert t in s.clients[c].requests;
      EasedDelCall(s, t, d);
      ListsShorter(s, c, t);
      EasedDelRequests(DelCall(s, t), c, d);
    }
  }

  lemma {:induction false} EasedDelReplies(s: Board, c: Id, d: Id)
    ensures DelReplies(Eased(s, d), c) == EasedAfter(DelReplies(s, c), d)
    decreases if c in s.clients then |s.clients[c].replies| else 0
  {
    hide Without, DelCall;
    if c in s.clients && s.clients[c].replies != [] && s.clients[c].replies[0] in s.calls {
      var t := s.clients[c].replies[0];
      assert t in s.clients[c].replies;
      EasedDelCall(s, t, d);
      ListsShorter(s, c, t);
      EasedDelReplies(DelCall(s, t), c, d);
    }
  }

  /** The second part of `del_client`. */
  function DelRest(s: Board, c: Id, order: seq<Id>): Outcome {
    var s2 :- DelAdverts(s, c, order);
    var s3 :- DelRequests(s2, c);
    var s4 :- DelReplies(s3, c);
    Ok(s4.(clients := s4.clients - {c}))
  }

  lemma EasedDelRest(s: Board, c: Id, order: seq<Id>, d: Id)
    requires c != d
    ensures DelRest(Eased(s, d), c, order) == EasedAfter(DelRest(s, c, order), d)
  {
    hide DelAdverts, DelRequests, DelReplies, Eased;
    EasedDelAdverts(s, c, order, d);
    if DelAdverts(s, c, order).Ok? {
      var s2 := DelAdverts(s, c, order).board;
      EasedDelRequests(s2, c, d);
      if DelRequests(s2, c).Ok? {
        var s3 := DelRequests(s2, c).board;
        EasedDelReplies(s3, c, d);
        if DelReplies(s3, c).Ok? { EasedRemove(DelReplies(s3, c).board, c, d); }
      }
    }
  }

  lemma EasedRemove(s: Board, c: Id, d: Id)
    requires c != d
    ensures var r := Eased(s, d); r.(clients := r.clients - {c}) == Eased(s.(clients := s.clients - {c}), d)
  {
    var r := Eased(s, d);
    assert r.(clients := r.clients - {c}).clients == Eased(s.(clients := s.clients - {c}), d).clients;
  }

  lemma DelClientParts(fx: Fixes, s: Board, c: Id, order: seq<Id>)
    requires c in s.clients
    ensures DelClient(fx, s, c, order) ==
      if AbandonWork(fx, s, c).Ok? then DelRest(AbandonWork(fx, s, c).board, c, order) else AbandonWork(fx, s, c)
  {
    hide AbandonWork, DelAdverts, DelRequests, DelReplies;
  }

  // ---------- a departure does not fault ----------

  lemma EasingTables(s: Board, d: Id)
    requires d in s.clients && s.clients[d].wait4 == AnyReply && Tables(s, {}) && Lists(s)
    ensures Tables(Eased(s, d), {}) && Lists(Eased(s, d))
  {
    hide Lists;
    TouchTables(s, d, s.clients[d].(wait4 := Nothing), {});
    TouchLists(s, d, s.clients[d].(wait4 := Nothing));
  }

  lemma EasingQueues(s: Board, d: Id)
    requires d in s.clients && s.clients[d].wait4 == AnyReply && Queues(s)
    ensures Queues(Eased(s, d))
  {
    hide Distinct;
    var r := Eased(s, d);
    forall v, u | v in r.services && CallNode(u) in r.services[v].waitq
      ensures r.services[v].holdsCalls && Pending(r, u) && r.calls[u].svc == v && r.calls[u].executor.None? && !Arriving(r, u)
    {
      assert CallNode(u) in s.services[v].waitq;
    }
  }

  lemma EasingWorkers(s: Board, d: Id)
    requires d in s.clients && s.clients[d].wait4 == AnyReply && Workers(s) && Waiters(s)
    ensures Workers(Eased(s, d)) && Waiters(Eased(s, d))
  {
  }

  lemma EasingBuffers(s: Board, d: Id)
    requires d in s.clients && s.clients[d].wait4 == AnyReply && AnyWaits(s) && Buffers(s, {}) && Phases(s, {})
    ensures Buffers(Eased(s, d), {}) && Phases(Eased(s, d), {})
  {
    var r := Eased(s, d);
    forall x | x in r.clients && r.clients[x].conn.Receiving? && r.clients[x].conn.input.DataOf? ensures DataFits(r, x) {
      assert DataFits(s, x);
    }
    forall u | Pending(r, u) ensures Executing(r, u) || Queued(r, u) || Arriving(r, u) {
      assert Pending(s, u);
    }
  }

  lemma EasingKeeps(s: Board, d: Id)
    requires Inv(s) && d in s.clients && s.clients[d].wait4 == AnyReply
    ensures Inv(Eased(s, d))
  {
    hide Tables, Lists, Queues, Workers, Buffers, Phases, Cds;
    EasingTables(s, d);
    EasingQueues(s, d);
    EasingWorkers(s, d);
    EasingBuffers(s, d);
  }

  lemma AbandonAlike(s: Board, c: Id, t: Id, to: Id)
    requires c in s.clients && t in s.calls && to in s.clients && s.calls[t].client == to && to != c && s.clients[to].wait4 == AnyReply
    ensures Eased(KeepReply(LetGo(Failed(s, c, t), c, t), t), to) == KeepReply(LetGo(Failed(Eased(s, to), c, t), c, t), t)
  {
    hide Without;
    var a, b := Eased(KeepReply(LetGo(Failed(s, c, t), c, t), t), to), KeepReply(LetGo(Failed(Eased(s, to), c, t), c, t), t);
    assert a.clients[to] == b.clients[to] && a.clients[c] == b.clients[c];
    assert a.clients == b.clients;
  }

  /** Abandoning the call of a client that waits for any reply is, but for its `wait4`, as if it did not wait. */
  lemma AbandonEased(fx: Fixes, s: Board, c: Id)
    requires Inv(s) && AbandonsAnyWaiter(s, c) && !fx.wakeAny
    ensures var to := s.calls[s.clients[c].wait4.call].client;
      && to in s.clients && to != c && s.clients[to].wait4 == AnyReply && AbandonWork(fx, s, c).Ok?
      && AbandonWork(fx, Eased(s, to), c) == Ok(Eased(AbandonWork(fx, s, c).board, to))
  {
    hide InvX, Without, Distinct, Finish, KeepReply, LetGo;
    var t := s.clients[c].wait4.call;
    var to := s.calls[t].client;
    InvTight(s);
    AbandonStrands(fx, s, c);
    LetGoKeepsWaits(s, c, t, to);
    FinishIs(Failed(s, c, t), c, t, false);
    FinishIs(Failed(Eased(s, to), c, t), c, t, false);
    AbandonAlike(s, c, t, to);
  }

  lemma LetGoKeepsWaits(s: Board, c: Id, t: Id, to: Id)
    requires c in s.clients && t in s.calls && to in s.clients && to != c && s.clients[to].wait4 == AnyReply
    ensures LetGo(Failed(s, c, t), c, t).clients[to].wait4 == AnyReply
    ensures LetGo(Failed(Eased(s, to), c, t), c, t).clients[to].wait4 == Nothing
  {
  }

  /** A departure that strands `to` is, but for its `wait4`, the departure from a board where `to` does not wait. */
  lemma DepartureEased(fx: Fixes, s: Board, c: Id, order: seq<Id>)
    requires Inv(s) && c in s.clients && Walks(order, s.clients[c].adverts.Keys) && !LeaveOk(fx, s, c)
    ensures var to := s.calls[s.clients[c].wait4.call].client;
      && to in s.clients && to != c && Inv(Eased(s, to)) && LeaveOk(fx, Eased(s, to), c)
      && c in Eased(s, to).clients && Walks(order, Eased(s, to).clients[c].adverts.Keys)
      && DelClient(fx, s, c, order).Ok? && DelClient(fx, Eased(s, to), c, order) == Ok(Eased(DelClient(fx, s, c, order).board, to))
  {
    hide Inv, DelClient, Walks, AbandonWork, DelRest;
    var to := s.calls[s.clients[c].wait4.call].client;
    AbandonEased(fx, s, c);
    var r := Eased(s, to);
    EasingKeeps(s, to);
    DepartureKeeps(fx, r, c, order);
    DelClientParts(fx, r, c, order);
    DelClientParts(fx, s, c, order);
    EasedDelRest(AbandonWork(fx, s, c).board, c, order, to);
  }

  /** From a good state no departure faults by itself, not even one that strands a client. */
  lemma DeparturesDoNotFault(fx: Fixes, s: Board, c: Id, order: seq<Id>)
    requires Inv(s) && c in s.clients && Walks(order, s.clients[c].adverts.Keys)
    ensures DelClient(fx, s, c, order).Ok?
  {
    hide Inv, DelClient, Walks, Eased;
    if LeaveOk(fx, s, c) { DepartureKeeps(fx, s, c, order); } else { DepartureEased(fx, s, c, order); }
  }

  // ---------- connections that cannot be served any more ----------

  /** Every event that can come from `c` faults. */
  ghost predicate Unservable(fx: Fixes, s: Board, c: Id) {
    forall e :: Possible(s, e) && !e.Arrive? && e.c == c ==> Step(fx, s, e).Fault?
  }

  /** Exactly the connections armed with a freed buffer cannot be served: not even their end of file is survived. */
  lemma DeadIsUnservable(fx: Fixes, s: Board, c: Id, order: seq<Id>)
    requires Inv(s) && c in s.clients && Walks(order, s.clients[c].adverts.Keys)
    ensures Unservable(fx, s, c) <==> DeadInput(s, c)
    ensures Step(fx, s, Leave(c, order)).Fault? <==> DeadInput(s, c)
  {
    hide Inv, DelClient, Walks, GoodBatches, ReadScratch;
    DeparturesDoNotFault(fx, s, c, order);
    assert Possible(s, Leave(c, order));
  }

  lemma DeadFaults(fx: Fixes, s: Board, c: Id)
    requires DeadInput(s, c)
    ensures Unservable(fx, s, c)
  {
    hide DelClient, ReadScratch;
  }

  /** A call in `r` was made by a client that is still there. */
  lemma CallsOfGone(r: Board, t: Id, c: Id)
    requires Inv(r) && c !in r.clients
    ensures t in r.calls ==> r.calls[t].client != c
  {
    hide InvX;
    InvHeld(r);
  }

  lemma InvHeld(s: Board)
    requires Inv(s)
    ensures Held(s)
  {
    hide Tables, Held, Queues, Workers, Waiters, Buffers, Phases, Cds, Distinct;
  }

  /** Only a client's own event disconnects it. */
  lemma {:induction false} ClientsStay(fx: Fixes, ss: seq<Board>, es: seq<Event>, m: nat, n: nat, c: Id)
    requires Trace(fx, ss, es) && m <= n <= |es| && DeadInput(ss[m], c)
    ensures c in ss[n].clients
    decreases n
  {
    hide Inv, LogInv, Step, Possible, Allowed, Own, Onward, GoodStep, Trace;
    TraceStarts(fx, ss, es);
    if m < n {
      ClientsStay(fx, ss, es, m, n - 1, c);
      LostForever(fx, ss, es, m, n - 1, c);
      TraceStep(fx, ss, es, n - 1);
    }
  }

  // ---------- how connections come to be armed with a freed buffer ----------

  /** Event `m` is the departure of the client whose reply `w` is sending. */
  ghost predicate Orphaned(ss: seq<Board>, es: seq<Event>, m: nat, w: Id, t: Id)
    requires m < |es| < |ss|
  {
    && w in ss[m].clients && ReadsInto(ss[m].clients[w], t) && ss[m].clients[w].conn.handler == ReturnBody
    && t in ss[m].calls && ss[m].calls[t].client == Actor(ss[m], es[m])
    && Actor(ss[m], es[m]) != w && Actor(ss[m], es[m]) !in ss[m + 1].clients
  }

  /** A connection is armed with a freed buffer only because the caller left while the worker was sending the reply. */
  lemma {:induction false} DeadAreOrphans(fx: Fixes, ss: seq<Board>, es: seq<Event>, n: nat, w: Id)
    requires Trace(fx, ss, es) && n <= |es| && DeadInput(ss[n], w)
    ensures exists m, t :: 0 <= m < n && Orphaned(ss, es, m, w, t)
    decreases n
  {
    hide Inv, LogInv, Step, Possible, Allowed, Own, GoodStep, Trace, NamesOnward;
    TraceStarts(fx, ss, es);
    assert n > 0;
    var s, r := ss[n - 1], ss[n];
    TraceStep(fx, ss, es, n - 1);
    if DeadInput(s, w) {
      DeadAreOrphans(fx, ss, es, n - 1, w);
    } else {
      var t := r.clients[w].conn.input.call;
      NewlyDead(fx, ss, es, n - 1, w);
      assert Orphaned(ss, es, n - 1, w, t);
    }
  }

  lemma NewlyDead(fx: Fixes, ss: seq<Board>, es: seq<Event>, m: nat, w: Id)
    requires Trace(fx, ss, es) && m < |es| && !DeadInput(ss[m], w) && DeadInput(ss[m + 1], w)
    ensures Orphaned(ss, es, m, w, ss[m + 1].clients[w].conn.input.call)
  {
    hide Inv, LogInv, Step, Possible, Allowed, Own, GoodStep, Trace, NamesOnward, CallsOnward;
    TraceStarts(fx, ss, es);
    TraceStep(fx, ss, es, m);
    var s, r, c := ss[m], ss[m + 1], Actor(ss[m], es[m]);
    var t := r.clients[w].conn.input.call;
    if c == w {
      OwnBufferLives(fx, s, es[m]);
      assert false;
    }
    assert w in s.clients && r.clients[w].conn == s.clients[w].conn;
    InvFits(r, w);
    ReadsAsExecutor(s, w, t);
    OthersExecuted(fx, s, es[m], r, w, t);
  }

  /** What a client's own event arms it with is live. */
  lemma OwnBufferLives(fx: Fixes, s: Board, e: Event)
    requires Inv(s) && Possible(s, e) && Allowed(fx, s, e) && Step(fx, s, e).Ok? && Inv(Step(fx, s, e).board)
    ensures !DeadInput(Step(fx, s, e).board, Actor(s, e))
  {
    hide Inv, Walks, GoodBatches, DelClient, ReadScratch, ReadData, HandlerOk, LeaveOk, Connect;
    match e
    case Arrive => ArriveEffect(s);
    case Leave(c, _) => LeaveEffect(fx, s, e);
    case Read(c, chunk, env) =>
      if s.clients[c].conn.Receiving? { ReadEffect(fx, s, c, chunk, env); } else { LeaveEffect(fx, s, e); }
  }

  /** A call that another worker executes goes only with its caller. */
  lemma OthersExecuted(fx: Fixes, s: Board, e: Event, r: Board, w: Id, t: Id)
    requires Inv(s) && Inv(r) && Step(fx, s, e) == Ok(r) && Actor(s, e) != w
    requires t in s.calls && t !in r.calls && s.calls[t].executor == Some(w)
    ensures s.calls[t].client == Actor(s, e) && Actor(s, e) !in r.clients
  {
    hide Inv, Step, Arriving, Queued, Done;
    StepEnds(fx, s, e, r, t);
    InOnePlaceAlways(s, t);
  }

  /**
   From then on, over any good run, the worker's connection stays armed with the freed buffer and nothing it
   does is survived, so that no good run goes on with it.
   */
  lemma OrphanedForever(fx: Fixes, ss: seq<Board>, es: seq<Event>, m: nat, n: nat, w: Id, t: Id)
    requires Trace(fx, ss, es) && m < n <= |es| && Orphaned(ss, es, m, w, t)
    ensures DeadInput(ss[n], w) && Unservable(fx, ss[n], w) && (n < |es| ==> Actor(ss[n], es[n]) != w)
  {
    hide Inv, LogInv, Step, Possible, Allowed, Own, GoodStep, Trace, NamesOnward, Unservable;
    TraceStarts(fx, ss, es);
    TraceStep(fx, ss, es, m);
    var s, r, c := ss[m], ss[m + 1], Actor(ss[m], es[m]);
    assert t !in r.calls by { CallsOfGone(r, t, c); InvSerials(s, t); }
    assert DeadInput(r, w);
    LostForever(fx, ss, es, m + 1, n, w);
    ClientsStay(fx, ss, es, m + 1, n, w);
    DeadFaults(fx, ss[n], w);
  }
}
