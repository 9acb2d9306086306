/** Calls and workers meet: queueing a call, parking a worker, handing a call to a worker. */
module Dispatch {
  import opened Sequences
  import opened Board
  import opened Invariant
  import opened Touch
  import opened Answer

  /** The call `t` is a request that is neither arriving nor executing. */
  predicate Ready(s: Board, t: Id) {
    Pending(s, t) && s.calls[t].executor.None? && !Arriving(s, t)
  }

  // ---------- a call joins its service's queue ----------

  lemma EnqueueTables(s: Board, t: Id, bare: set<Id>)
    requires t in s.calls && s.calls[t].svc in s.services && Tables(s, bare)
    ensures Tables(Enqueue(s, t), bare)
  {
    var r := Enqueue(s, t);
    forall v | v in r.services && v !in bare ensures exists c :: Advertises(r, c, v) {
      var c :| Advertises(s, c, v);
      assert Advertises(r, c, v);
    }
  }

  lemma EnqueueLists(s: Board, t: Id)
    requires t in s.calls && s.calls[t].svc in s.services && Lists(s)
    ensures Lists(Enqueue(s, t))
  {
    hide Distinct;
    var r := Enqueue(s, t);
    forall u | u in r.calls ensures Pending(r, u) || Done(r, u) {
      assert Pending(s, u) || Done(s, u);
    }
  }

  lemma EnqueueDistinct(s: Board, t: Id)
    requires t in s.calls && s.calls[t].svc in s.services && QueuesDistinct(s) && OnNoQueue(s, t)
    ensures QueuesDistinct(Enqueue(s, t))
  {
    assert CallNode(t) !in s.services[s.calls[t].svc].waitq;
  }

  lemma EnqueueQueues(s: Board, t: Id)
    requires Ready(s, t) && s.calls[t].svc in s.services
    requires QueuedCalls(s) && QueuedWorkers(s) && IdleQueued(s)
    requires var svc := s.services[s.calls[t].svc]; svc.waitq == [] || svc.holdsCalls
    ensures QueuedCalls(Enqueue(s, t)) && QueuedWorkers(Enqueue(s, t)) && IdleQueued(Enqueue(s, t))
  {
    hide Distinct;
    var r := Enqueue(s, t);
    forall v, u | v in r.services && CallNode(u) in r.services[v].waitq
      ensures r.services[v].holdsCalls && Pending(r, u) && r.calls[u].svc == v && r.calls[u].executor.None? && !Arriving(r, u)
    {
      assert u == t || CallNode(u) in s.services[v].waitq;
    }
  }

  lemma EnqueueBuffers(s: Board, t: Id, k: Slack)
    requires t in s.calls && s.calls[t].svc in s.services && Buffers(s, k.closing) && Phases(s, k.limbo)
    ensures Buffers(Enqueue(s, t), k.closing) && Phases(Enqueue(s, t), k.limbo - {t})
  {
    var r := Enqueue(s, t);
    forall d | d in r.clients && d !in k.closing && r.clients[d].conn.Receiving? && r.clients[d].conn.input.DataOf?
      ensures DataFits(r, d)
    {
      assert DataFits(s, d);
    }
    forall u | Pending(r, u) && u !in k.limbo - {t} ensures Executing(r, u) || Queued(r, u) || Arriving(r, u) {
      assert Pending(s, u);
      if Queued(s, u) { assert Queued(r, u); }
    }
  }

  lemma EnqueueKeeps(s: Board, t: Id, k: Slack)
    requires InvX(s, k) && Ready(s, t) && OnNoQueue(s, t) && s.calls[t].svc in s.services
    requires var svc := s.services[s.calls[t].svc]; svc.waitq == [] || svc.holdsCalls
    ensures InvX(Enqueue(s, t), k.(limbo := k.limbo - {t}))
  {
    hide Distinct, Tables, Lists, Workers, Waiters, Buffers, Phases, Cds;
    EnqueueTables(s, t, k.bare);
    EnqueueLists(s, t);
    EnqueueDistinct(s, t);
    EnqueueQueues(s, t);
    EnqueueBuffers(s, t, k);
    assert Workers(Enqueue(s, t)) && Waiters(Enqueue(s, t)) by { EnqueueWorkers(s, t); }
  }

  lemma EnqueueWorkers(s: Board, t: Id)
    requires t in s.calls && s.calls[t].svc in s.services && Workers(s) && Waiters(s)
    ensures Workers(Enqueue(s, t)) && Waiters(Enqueue(s, t))
  {
  }

  // ---------- a worker joins the queues of its services ----------

  lemma ParkTables(s: Board, c: Id, bare: set<Id>)
    requires c in s.clients && Tables(s, bare)
    ensures Tables(Park(s, c), bare)
  {
    var r := Park(s, c);
    forall v | v in r.services && v !in bare ensures exists c :: Advertises(r, c, v) {
      var c :| Advertises(s, c, v);
      assert Advertises(r, c, v);
    }
  }

  lemma ParkLists(s: Board, c: Id)
    requires c in s.clients && Lists(s)
    ensures Lists(Park(s, c))
  {
    hide Distinct;
    var r := Park(s, c);
    forall u | u in r.calls ensures Pending(r, u) || Done(r, u) {
      assert Pending(s, u) || Done(s, u);
    }
  }

  lemma ParkDistinct(s: Board, c: Id)
    requires c in s.clients && s.clients[c].conn.Running? && QueuesDistinct(s) && QueuedWorkers(s)
    ensures QueuesDistinct(Park(s, c))
  {
    var r := Park(s, c);
    forall v | v in r.services ensures Distinct(r.services[v].waitq) {
      assert WorkerNode(c) !in s.services[v].waitq;
    }
  }

  lemma ParkQueuedCalls(s: Board, c: Id)
    requires c in s.clients && s.clients[c].conn.Running? && QueuedCalls(s)
    requires forall v :: v in s.clients[c].adverts ==> !CallsWaiting(s, v)
    ensures QueuedCalls(Park(s, c))
  {
    hide Distinct;
    var r := Park(s, c);
    forall v, u | v in r.services && CallNode(u) in r.services[v].waitq
      ensures r.services[v].holdsCalls && Pending(r, u) && r.calls[u].svc == v && r.calls[u].executor.None? && !Arriving(r, u)
    {
      assert CallNode(u) in s.services[v].waitq;
      assert CallsWaiting(s, v);
    }
  }

  lemma ParkQueuedWorkers(s: Board, c: Id)
    requires c in s.clients && s.clients[c].conn.Running? && QueuedWorkers(s) && IdleQueued(s)
    requires forall v :: v in s.clients[c].adverts ==> !CallsWaiting(s, v)
    ensures QueuedWorkers(Park(s, c)) && IdleQueued(Park(s, c))
  {
    hide Distinct;
    var r := Park(s, c);
    forall v, d | v in r.services && WorkerNode(d) in r.services[v].waitq
      ensures !r.services[v].holdsCalls && Advertises(r, d, v) && r.clients[d].conn.IdleWorker?
    {
      if d != c { assert WorkerNode(d) in s.services[v].waitq; }
      else if v !in s.clients[c].adverts { assert WorkerNode(c) in s.services[v].waitq; }
    }
  }

  lemma ParkWorkers(s: Board, c: Id)
    requires c in s.clients && s.clients[c].conn.Running? && s.clients[c].wait4.Nothing? && Workers(s) && Waiters(s)
    ensures Workers(Park(s, c)) && Waiters(Park(s, c))
  {
  }

  lemma ParkBuffers(s: Board, c: Id, k: Slack)
    requires c in s.clients && s.clients[c].conn.Running? && Buffers(s, k.closing) && Phases(s, k.limbo)
    ensures Buffers(Park(s, c), k.closing) && Phases(Park(s, c), k.limbo)
  {
    var r := Park(s, c);
    forall d | d in r.clients && d !in k.closing && r.clients[d].conn.Receiving? && r.clients[d].conn.input.DataOf?
      ensures DataFits(r, d)
    {
      assert DataFits(s, d);
    }
    forall u | Pending(r, u) && u !in k.limbo ensures Executing(r, u) || Queued(r, u) || Arriving(r, u) {
      assert Pending(s, u);
    }
  }

  lemma ParkKeeps(s: Board, c: Id, k: Slack)
    requires InvX(s, k) && c in s.clients && s.clients[c].conn.Running? && s.clients[c].wait4.Nothing?
    requires forall v :: v in s.clients[c].adverts ==> !CallsWaiting(s, v)
    ensures InvX(Park(s, c), k)
  {
    hide Distinct, Tables, Lists, Workers, Waiters, Buffers, Phases, Cds;
    ParkTables(s, c, k.bare);
    ParkLists(s, c);
    ParkDistinct(s, c);
    ParkQueuedCalls(s, c);
    ParkQueuedWorkers(s, c);
    ParkWorkers(s, c);
    ParkBuffers(s, c, k);
  }

  // ---------- a call goes to a worker ----------

  /** `w`'s advertisements leave their queues, and so does the call. */
  function HandServices(s: Board, w: Id, t: Id): map<Id, Service>
    requires w in s.clients
  {
    map v | v in s.services ::
      var q := s.services[v].waitq;
      s.services[v].(waitq := Without(if v in s.clients[w].adverts then Without(q, WorkerNode(w)) else q, CallNode(t)))
  }

  function Hand(s: Board, w: Id, t: Id): Board
    requires w in s.clients && t in s.calls
  {
    s.(clients := s.clients[w := s.clients[w].(conn := NEXT, wait4 := For(t))],
       services := HandServices(s, w, t),
       calls := s.calls[t := s.calls[t].(executor := Some(w))])
  }

  /** Worker `w` waits for work and executes nothing. */
  predicate CanWork(s: Board, w: Id) {
    w in s.clients && (s.clients[w].conn.Running? || s.clients[w].conn.IdleWorker?) && s.clients[w].wait4.Nothing?
  }

  lemma HandTables(s: Board, w: Id, t: Id, bare: set<Id>)
    requires w in s.clients && t in s.calls && Tables(s, bare)
    ensures Tables(Hand(s, w, t), bare)
  {
    hide Without, Offered;
    HandOffered(s, w, t, bare);
  }

  lemma HandOffered(s: Board, w: Id, t: Id, bare: set<Id>)
    requires w in s.clients && t in s.calls && Offered(s, bare)
    ensures Offered(Hand(s, w, t), bare)
  {
    hide Without;
    var r := Hand(s, w, t);
    forall v | v in r.services && v !in bare ensures exists c :: Advertises(r, c, v) {
      var c :| Advertises(s, c, v);
      assert Advertises(r, c, v);
    }
  }

  lemma HandHeld(s: Board, w: Id, t: Id)
    requires w in s.clients && t in s.calls && Held(s) && RequestsOwned(s) && ListsDistinct(s)
    ensures Held(Hand(s, w, t)) && RequestsOwned(Hand(s, w, t)) && ListsDistinct(Hand(s, w, t))
  {
    hide HandServices, Distinct, Held, RequestsOwned;
    HandStillHeld(s, w, t);
    HandRequests(s, w, t);
  }

  lemma HandStillHeld(s: Board, w: Id, t: Id)
    requires w in s.clients && t in s.calls && Held(s)
    ensures Held(Hand(s, w, t))
  {
    hide HandServices;
    var r := Hand(s, w, t);
    forall u | u in r.calls ensures Pending(r, u) || Done(r, u) {
      assert Pending(s, u) || Done(s, u);
    }
  }

  lemma HandRequests(s: Board, w: Id, t: Id)
    requires w in s.clients && t in s.calls && RequestsOwned(s)
    ensures RequestsOwned(Hand(s, w, t))
  {
    hide HandServices;
    var r := Hand(s, w, t);
    forall c, u | c in r.clients && u in r.clients[c].requests ensures u in r.calls && r.calls[u].client == c {
      assert u in s.clients[c].requests;
    }
    forall c, u | c in r.clients && u in r.clients[c].requests ensures u !in r.clients[c].replies {
      assert u in s.clients[c].requests;
    }
  }

  lemma HandReplies(s: Board, w: Id, t: Id)
    requires w in s.clients && Pending(s, t) && RequestsOwned(s) && RepliesOwned(s)
    ensures RepliesOwned(Hand(s, w, t))
  {
    hide Without, Distinct;
    var r := Hand(s, w, t);
    forall c, u | c in r.clients && u in r.clients[c].replies
      ensures u in r.calls && r.calls[u].client == c && r.calls[u].executor.None?
    {
      assert u in s.clients[c].replies && u != t;
    }
  }

  lemma HandDistinct(s: Board, w: Id, t: Id)
    requires w in s.clients && t in s.calls && QueuesDistinct(s)
    ensures QueuesDistinct(Hand(s, w, t))
  {
    hide Without, Distinct;
  }

  lemma HandQueuedCalls(s: Board, w: Id, t: Id)
    requires CanWork(s, w) && t in s.calls && QueuedCalls(s)
    ensures QueuedCalls(Hand(s, w, t)) && OnNoQueue(Hand(s, w, t), t)
  {
    hide Without, Distinct, Arriving;
    var r := Hand(s, w, t);
    forall v, u | v in r.services && CallNode(u) in r.services[v].waitq
      ensures u != t && r.services[v].holdsCalls && Pending(r, u) && r.calls[u].svc == v && r.calls[u].executor.None? && !Arriving(r, u)
    {
      HandLeavesQueued(s, w, t, v, u);
      HandLeavesPending(s, w, t, u);
    }
  }

  /** A call that is on a queue afterwards was on it before, and is another one. */
  lemma HandLeavesQueued(s: Board, w: Id, t: Id, v: Id, u: Id)
    requires w in s.clients && v in s.services && v in HandServices(s, w, t) && CallNode(u) in HandServices(s, w, t)[v].waitq
    ensures CallNode(u) in s.services[v].waitq && u != t && HandServices(s, w, t)[v].holdsCalls == s.services[v].holdsCalls
  {
    hide Without, Distinct;
  }

  lemma HandLeavesPending(s: Board, w: Id, t: Id, u: Id)
    requires CanWork(s, w) && t in s.calls && Pending(s, u) && !Arriving(s, u)
    ensures Pending(Hand(s, w, t), u) && !Arriving(Hand(s, w, t), u)
  {
    hide HandServices;
  }

  lemma HandQueuedWorkers(s: Board, w: Id, t: Id)
    requires w in s.clients && t in s.calls && QueuedWorkers(s)
    ensures QueuedWorkers(Hand(s, w, t))
  {
    hide Without, Distinct;
    var r := Hand(s, w, t);
    forall v, d | v in r.services && WorkerNode(d) in r.services[v].waitq
      ensures !r.services[v].holdsCalls && Advertises(r, d, v) && r.clients[d].conn.IdleWorker?
    {
      assert WorkerNode(d) in s.services[v].waitq;
      assert Advertises(s, d, v);
    }
  }

  lemma HandIdleQueued(s: Board, w: Id, t: Id)
    requires w in s.clients && t in s.calls && IdleQueued(s)
    ensures IdleQueued(Hand(s, w, t))
  {
    hide Without, Distinct;
  }

  lemma HandWorkers(s: Board, w: Id, t: Id)
    requires CanWork(s, w) && t in s.calls && s.calls[t].executor.None? && s.calls[t].svc in s.clients[w].adverts
    requires Workers(s) && Waiters(s)
    ensures Workers(Hand(s, w, t)) && Waiters(Hand(s, w, t))
  {
    hide Without, Distinct;
  }

  lemma HandBuffers(s: Board, w: Id, t: Id, closing: set<Id>)
    requires CanWork(s, w) && Ready(s, t) && Buffers(s, closing) && Workers(s) && RequestsOwned(s)
    ensures Buffers(Hand(s, w, t), closing)
  {
    hide Without, Distinct;
    var r := Hand(s, w, t);
    forall d | d in r.clients && d !in closing && r.clients[d].conn.Receiving? && r.clients[d].conn.input.DataOf?
      ensures DataFits(r, d)
    {
      assert DataFits(s, d);
      if s.clients[d].conn.handler.CallBody? { assert Last(s.clients[d].requests) in s.clients[d].requests; }
    }
  }

  lemma HandPhases(s: Board, w: Id, t: Id, limbo: set<Id>)
    requires CanWork(s, w) && t in s.calls && Phases(s, limbo) && Cds(s.calls, s.pool)
    ensures Phases(Hand(s, w, t), limbo - {t}) && Cds(Hand(s, w, t).calls, s.pool)
  {
    hide Without, Distinct;
    var r := Hand(s, w, t);
    forall u | Pending(r, u) && u !in limbo - {t} ensures Executing(r, u) || Queued(r, u) || Arriving(r, u) {
      assert Pending(s, u);
      if u != t && Queued(s, u) { assert Queued(r, u); }
    }
    assert LiveCds(r.calls) <= LiveCds(s.calls);
  }

  lemma HandKeeps(s: Board, w: Id, t: Id, k: Slack)
    requires InvX(s, k) && CanWork(s, w) && Ready(s, t) && s.calls[t].svc in s.clients[w].adverts
    ensures InvX(Hand(s, w, t), k.(limbo := k.limbo - {t}))
  {
    hide Without, Distinct, Tables, Workers, Waiters, Buffers, Phases, Cds;
    HandTables(s, w, t, k.bare);
    HandHeld(s, w, t);
    HandReplies(s, w, t);
    HandDistinct(s, w, t);
    HandQueuedCalls(s, w, t);
    HandQueuedWorkers(s, w, t);
    HandIdleQueued(s, w, t);
    HandWorkers(s, w, t);
    HandBuffers(s, w, t, k.closing);
    HandPhases(s, w, t, k.limbo);
  }

  function HandEntry(s: Board, w: Id, t: Id): Entry
    requires w in s.clients && t in s.calls && s.calls[t].svc in s.services && s.calls[t].svc in s.clients[w].adverts
  {
    var k := s.calls[t];
    Handed(w, t, k.svc, s.clients[w].adverts[k.svc], s.services[k.svc].name, k.flags, k.cd, k.data)
  }

  lemma SendToServerIs(fx: Fixes, s: Board, w: Id, t: Id)
    requires w in s.clients && !s.clients[w].conn.Receiving? && t in s.calls
    requires s.calls[t].svc in s.services && s.calls[t].svc in s.clients[w].adverts
    requires fx.unlink || OnNoQueue(s, t)
    ensures SendToServer(fx, s, w, t) == Ok(Say(Hand(s, w, t), HandEntry(s, w, t)))
  {
    hide Without, Distinct;
    var cl := s.clients[w];
    var services := WorkerLeaves(s.services, cl.adverts, w);
    assert HandServices(s, w, t) == Unlinked(services, CallNode(t));
    if !fx.unlink { assert Unlinked(services, CallNode(t)) == services; }
    var clients := s.clients[w := cl.(wait4 := For(t))];
    assert clients[w := clients[w].(conn := NEXT)] == Hand(s, w, t).clients;
  }

  lemma SendToServerKeeps(fx: Fixes, s: Board, w: Id, t: Id, k: Slack)
    requires InvX(s, k) && CanWork(s, w) && Ready(s, t) && s.calls[t].svc in s.services
    requires s.calls[t].svc in s.clients[w].adverts && (fx.unlink || OnNoQueue(s, t))
    ensures SendToServer(fx, s, w, t).Ok?
    ensures InvX(SendToServer(fx, s, w, t).board, k.(limbo := k.limbo - {t}))
  {
    hide Without, Distinct, Tables, Lists, Queues, Workers, Waiters, Buffers, Phases, Cds;
    SendToServerIs(fx, s, w, t);
    HandKeeps(s, w, t, k);
    SayKeeps(Hand(s, w, t), HandEntry(s, w, t), k.(limbo := k.limbo - {t}));
  }
}
