/** Each message handler keeps the invariant, arms or parks its own client, and wakes only parked ones. */
module Handlers {
  import opened Sequences
  import opened Wire
  import opened Descriptors
  import opened Board
  import opened Invariant
  import opened Touch
  import opened Answer
  import opened Dispatch
  import opened Departure

  /** The handler of `c`, and no other, is on the stack. */
  ghost predicate InHandler(s: Board, c: Id, limbo: set<Id>) {
    InvX(s, Slack(limbo, {}, {})) && c in s.clients && s.clients[c].conn.Running? && Quiet(s, c)
  }

  lemma SayInHandler(s: Board, c: Id, limbo: set<Id>, e: Entry)
    requires InHandler(s, c, limbo)
    ensures InHandler(Say(s, e), c, limbo)
  {
    hide InvX;
    SayKeeps(s, e, Slack(limbo, {}, {}));
  }

  lemma NextCommandSettles(s: Board, c: Id)
    requires InHandler(s, c, {})
    ensures NextCommand(s, c).Ok? && Inv(NextCommand(s, c).board)
  {
    hide InvX;
    NextCommandKeeps(s, c, TIGHT);
  }

  // ---------- send_to_worker ----------

  lemma SendToServerSettles(fx: Fixes, s: Board, w: Id, t: Id, c: Id)
    requires w in s.clients && !s.clients[w].conn.Receiving? && t in s.calls
    requires s.calls[t].svc in s.services && s.calls[t].svc in s.clients[w].adverts
    requires fx.unlink || OnNoQueue(s, t)
    requires Quiet(s, c) && (c == w || (c in s.clients ==> !s.clients[c].conn.Running?))
    ensures SendToServer(fx, s, w, t).Ok? && Settled(SendToServer(fx, s, w, t).board)
    ensures SendToServer(fx, s, w, t).board.clients.Keys == s.clients.Keys
  {
    hide Without;
    SendToServerIs(fx, s, w, t);
  }

  lemma IdleHead(s: Board, v: Id)
    requires Queues(s) && Workers(s) && v in s.services && s.services[v].waitq != [] && !s.services[v].holdsCalls
    ensures var n := s.services[v].waitq[0];
      n.WorkerNode? && CanWork(s, n.client) && v in s.clients[n.client].adverts && s.clients[n.client].conn.IdleWorker?
  {
    hide Distinct;
    assert s.services[v].waitq[0] in s.services[v].waitq;
  }

  /** Whatever other clients did in the meantime, the call sent on is the one whose body was just read. */
  lemma SendToWorkerKeeps(fx: Fixes, s: Board, c: Id, t: Id)
    requires InHandler(s, c, {t}) && s.clients[c].requests != [] && Last(s.clients[c].requests) == t
    requires Ready(s, t) && OnNoQueue(s, t) && s.calls[t].svc in s.services
    ensures SendToWorker(fx, s, c).Ok? && Inv(SendToWorker(fx, s, c).board)
    ensures SendToWorker(fx, s, c).board.clients.Keys == s.clients.Keys
  {
    hide Without, Distinct, InvX, SendToServer;
    var k := Slack({t}, {}, {});
    NextCommandKeeps(s, c, k);
    var s1 := NextCommand(s, c).board;
    assert Ready(s1, t) && OnNoQueue(s1, t);
    var v := s1.calls[t].svc;
    assert k.(limbo := k.limbo - {t}) == TIGHT;
    if s1.services[v].waitq != [] && !s1.services[v].holdsCalls {
      InvQueues(s1, k);
      IdleHead(s1, v);
      var w := s1.services[v].waitq[0].client;
      SendToServerKeeps(fx, s1, w, t, k);
      SendToServerSettles(fx, s1, w, t, c);
    } else {
      EnqueueKeeps(s1, t, k);
    }
  }

  lemma InvQueues(s: Board, k: Slack)
    requires InvX(s, k)
    ensures Queues(s) && Workers(s)
  {
    hide Distinct, Tables, Lists, Queues, Workers, Waiters, Buffers, Phases, Cds;
  }

  lemma InvPool(s: Board, k: Slack)
    requires InvX(s, k)
    ensures PoolFresh(s.pool, LiveCds(s.calls))
  {
    hide Distinct, Tables, Lists, Queues, Workers, Waiters, Buffers, Phases, PoolFresh;
  }

  // ---------- svracall ----------

  lemma NewCallTables(s: Board, c: Id, svc: Id, len: nat, flags: int, env: Env, bare: set<Id>)
    requires c in s.clients && NewCall(s, c, svc, len, flags, env).Ok? && Tables(s, bare)
    ensures Tables(NewCall(s, c, svc, len, flags, env).board, bare)
  {
    var r := NewCall(s, c, svc, len, flags, env).board;
    forall x | x in r.services && x !in bare ensures exists c :: Advertises(r, c, x) {
      var d :| Advertises(s, d, x);
      assert Advertises(r, d, x);
    }
  }

  lemma FreshId(s: Board, c: Id)
    requires c in s.clients && Serials(s) && RequestsOwned(s) && RepliesOwned(s)
    ensures s.next !in s.calls && s.next !in s.clients[c].requests && s.next !in s.clients[c].replies
  {
  }

  lemma NewCallHeld(s: Board, c: Id, svc: Id, len: nat, flags: int, env: Env)
    requires c in s.clients && NewCall(s, c, svc, len, flags, env).Ok? && Serials(s) && Lists(s)
    ensures var r := NewCall(s, c, svc, len, flags, env).board;
      Held(r) && ListsDistinct(r) && Pending(r, s.next)
  {
    FreshId(s, c);
    hide RequestsOwned, RepliesOwned;
    var r := NewCall(s, c, svc, len, flags, env).board;
    assert s.next in r.clients[c].requests;
    forall u | u in r.calls ensures Pending(r, u) || Done(r, u) {
      if u != s.next { assert Pending(s, u) || Done(s, u); }
    }
  }

  lemma NewCallOwned(s: Board, c: Id, svc: Id, len: nat, flags: int, env: Env)
    requires c in s.clients && NewCall(s, c, svc, len, flags, env).Ok? && Serials(s) && RequestsOwned(s) && RepliesOwned(s)
    ensures RequestsOwned(NewCall(s, c, svc, len, flags, env).board) && RepliesOwned(NewCall(s, c, svc, len, flags, env).board)
  {
    FreshId(s, c);
    var r := NewCall(s, c, svc, len, flags, env).board;
    forall d, u | d in r.clients && u in r.clients[d].requests
      ensures u in r.calls && r.calls[u].client == d && u !in r.clients[d].replies
    {
      assert u in s.clients[d].requests || (u == s.next && d == c);
    }
  }

  lemma NewCallQueues(s: Board, c: Id, svc: Id, len: nat, flags: int, env: Env)
    requires c in s.clients && NewCall(s, c, svc, len, flags, env).Ok? && Serials(s) && Queues(s)
    ensures Queues(NewCall(s, c, svc, len, flags, env).board) && OnNoQueue(NewCall(s, c, svc, len, flags, env).board, s.next)
  {
    hide Distinct;
    var r := NewCall(s, c, svc, len, flags, env).board;
    forall v, u | v in r.services && CallNode(u) in r.services[v].waitq
      ensures Pending(r, u) && !Arriving(r, u) && u != s.next
    {
      assert Pending(s, u) && !Arriving(s, u);
    }
  }

  lemma NewCallWorkers(s: Board, c: Id, svc: Id, len: nat, flags: int, env: Env)
    requires c in s.clients && NewCall(s, c, svc, len, flags, env).Ok? && Serials(s) && Workers(s) && Waiters(s)
    ensures Workers(NewCall(s, c, svc, len, flags, env).board) && Waiters(NewCall(s, c, svc, len, flags, env).board)
  {
  }

  lemma NewCallBuffers(s: Board, c: Id, svc: Id, len: nat, flags: int, env: Env, k: Slack)
    requires c in s.clients && s.clients[c].conn.Running? && NewCall(s, c, svc, len, flags, env).Ok?
    requires Serials(s) && Buffers(s, k.closing) && Phases(s, k.limbo)
    ensures Buffers(NewCall(s, c, svc, len, flags, env).board, k.closing)
    ensures Phases(NewCall(s, c, svc, len, flags, env).board, k.limbo + {s.next})
  {
    var r := NewCall(s, c, svc, len, flags, env).board;
    forall d | d in r.clients && d !in k.closing && r.clients[d].conn.Receiving? && r.clients[d].conn.input.DataOf?
      ensures DataFits(r, d)
    {
      assert DataFits(s, d);
    }
    forall u | Pending(r, u) && u !in k.limbo + {s.next} ensures Executing(r, u) || Queued(r, u) || Arriving(r, u) {
      assert Pending(s, u);
    }
  }

  lemma NewCallCds(s: Board, c: Id, svc: Id, len: nat, flags: int, env: Env)
    requires c in s.clients && NewCall(s, c, svc, len, flags, env).Ok? && Serials(s) && CdsDistinct(s.calls)
    requires PoolFresh(s.pool, LiveCds(s.calls)) && DrawsWell(s.pool, LiveCds(s.calls), env.batches)
    requires forall i :: 0 <= i < |env.batches| ==> |env.batches[i]| == NUM_FREE_CD
    ensures var r := NewCall(s, c, svc, len, flags, env).board; Cds(r.calls, r.pool)
  {
    hide PoolFresh, DrawsWell, Take;
    var live := LiveCds(s.calls);
    assert PoolSize(s.pool, live) by { PoolFreshSize(s.pool, live); }
    TakeFresh(s.pool, live, env.batches);
    var r := NewCall(s, c, svc, len, flags, env).board;
    var cd := Take(s.pool, live, env.batches).value.cd;
    assert forall t :: t in s.calls ==> s.calls[t].cd in live;
    assert LiveCds(r.calls) == live + {cd} by {
      assert r.calls[s.next].cd == cd;
      assert forall t :: t in s.calls ==> t in r.calls && r.calls[t].cd == s.calls[t].cd;
    }
  }

  ghost predicate PoolSize(p: Pool, live: set<Short>) {
    |p.free| == NUM_FREE_CD && p.cursor <= NUM_FREE_CD
    && forall i :: p.cursor <= i < |p.free| && p.free[i] != 0 ==> p.free[i] !in live
  }

  lemma PoolFreshSize(p: Pool, live: set<Short>)
    requires PoolFresh(p, live)
    ensures PoolSize(p, live)
  {
  }

  lemma NewCallOk(s: Board, c: Id, svc: Id, len: nat, flags: int, env: Env)
    requires c in s.clients && PoolFresh(s.pool, LiveCds(s.calls)) && DrawsWell(s.pool, LiveCds(s.calls), env.batches)
    requires forall i :: 0 <= i < |env.batches| ==> |env.batches[i]| == NUM_FREE_CD
    ensures NewCall(s, c, svc, len, flags, env).Ok?
  {
    TakeFresh(s.pool, LiveCds(s.calls), env.batches);
  }

  lemma NewCallInv(s: Board, c: Id, svc: Id, len: nat, flags: int, env: Env)
    requires InvX(s, TIGHT) && c in s.clients && s.clients[c].conn.Running? && NewCall(s, c, svc, len, flags, env).Ok?
    requires DrawsWell(s.pool, LiveCds(s.calls), env.batches)
    requires forall i :: 0 <= i < |env.batches| ==> |env.batches[i]| == NUM_FREE_CD
    ensures InvX(NewCall(s, c, svc, len, flags, env).board, Slack({s.next}, {}, {}))
    ensures Pending(NewCall(s, c, svc, len, flags, env).board, s.next)
    ensures OnNoQueue(NewCall(s, c, svc, len, flags, env).board, s.next)
  {
    hide Distinct, Queues, Workers, Waiters, Buffers, Phases, PoolFresh, DrawsWell, CdsDistinct, RequestsOwned, RepliesOwned, Held;
    hide NewCall, Indexed, AdvertsLive, Offered, Serials, OnNoQueue, Pending, ListsDistinct;
    NewCallTables(s, c, svc, len, flags, env, {});
    NewCallHeld(s, c, svc, len, flags, env);
    NewCallOwned(s, c, svc, len, flags, env);
    NewCallQueues(s, c, svc, len, flags, env);
    NewCallWorkers(s, c, svc, len, flags, env);
    NewCallBuffers(s, c, svc, len, flags, env, TIGHT);
    NewCallCds(s, c, svc, len, flags, env);
    assert {} + {s.next} == {s.next};
  }

  lemma NewCallKeeps(s: Board, c: Id, svc: Id, len: nat, flags: int, env: Env)
    requires InHandler(s, c, {}) && svc in s.services && DrawsWell(s.pool, LiveCds(s.calls), env.batches)
    requires forall i :: 0 <= i < |env.batches| ==> |env.batches[i]| == NUM_FREE_CD
    ensures NewCall(s, c, svc, len, flags, env).Ok?
    ensures var r := NewCall(s, c, svc, len, flags, env).board;
      InHandler(r, c, {s.next}) && Ready(r, s.next) && OnNoQueue(r, s.next)
  {
    hide InvX, PoolFresh, DrawsWell, OnNoQueue, Take, LiveCds;
    InvPool(s, TIGHT);
    NewCallOk(s, c, svc, len, flags, env);
    NewCallInv(s, c, svc, len, flags, env);
  }

  lemma ArmBodyKeeps(s: Board, c: Id, t: Id)
    requires InHandler(s, c, {t}) && Ready(s, t) && OnNoQueue(s, t) && s.calls[t].client == c
    requires s.clients[c].requests != [] && Last(s.clients[c].requests) == t && 0 < |s.calls[t].data| && t < s.next
    ensures Arm(s, c, CallBody, DataOf(t)).Ok? && Inv(Arm(s, c, CallBody, DataOf(t)).board)
  {
    hide InvX;
    var conn := Receiving(CallBody, DataOf(t), 0);
    assert Arm(s, c, CallBody, DataOf(t)).board == Reconn(s, c, conn);
    ReconnKeeps(s, c, conn, Slack({t}, {}, {}), {});
  }

  ghost predicate GoodBatches(batches: seq<seq<Short>>) {
    forall i :: 0 <= i < |batches| ==> |batches[i]| == NUM_FREE_CD
  }

  /** A call to a known service needs a descriptor. */
  ghost predicate CallOk(s: Board, name: Name, len: int, env: Env) {
    name in s.index && 0 <= len ==> DrawsWell(s.pool, LiveCds(s.calls), env.batches)
  }

  lemma SvrAcallKeeps(fx: Fixes, s: Board, c: Id, name: Name, len: int, flags: int, env: Env)
    requires InHandler(s, c, {}) && GoodBatches(env.batches) && CallOk(s, name, len, env)
    ensures SvrAcall(fx, s, c, name, len, flags, env).Ok? && Inv(SvrAcall(fx, s, c, name, len, flags, env).board)
    ensures SvrAcall(fx, s, c, name, len, flags, env).board.clients.Keys == s.clients.Keys
  {
    hide InvX, DrawsWell, LiveCds, Take, OnNoQueue;
    if name !in s.index || len < 0 {
      SayInHandler(s, c, {}, Refused(c, TPENOENT));
      NextCommandSettles(Say(s, Refused(c, TPENOENT)), c);
    } else {
      assert s.index[name] in s.services by { InvIndexed(s, TIGHT); }
      var t, svc := s.next, s.index[name];
      NewCallKeeps(s, c, svc, len, flags, env);
      var s1 := NewCall(s, c, svc, len, flags, env).board;
      NewCallLast(s, c, svc, len, flags, env);
      hide NewCall;
      var e := AcceptEntry(s1.calls[t], t);
      var s2 := Say(s1, e);
      SayInHandler(s1, c, {t}, e);
      SayOnNoQueue(s1, e, t);
      if len > 0 {
        ArmBodyKeeps(s2, c, t);
      } else {
        SayInHandler(s2, c, {t}, Submitted(c, t, []));
        SayOnNoQueue(s2, Submitted(c, t, []), t);
        SendToWorkerKeeps(fx, Say(s2, Submitted(c, t, [])), c, t);
      }
    }
  }

  lemma NewCallLast(s: Board, c: Id, svc: Id, len: nat, flags: int, env: Env)
    requires c in s.clients && NewCall(s, c, svc, len, flags, env).Ok?
    ensures var r, t := NewCall(s, c, svc, len, flags, env).board, s.next;
      && t in r.calls && r.calls[t].client == c && r.calls[t].svc == svc && |r.calls[t].data| == len && t < r.next
      && r.clients.Keys == s.clients.Keys && r.services == s.services
      && r.clients[c].requests != [] && Last(r.clients[c].requests) == t
  {
  }

  lemma InvIndexed(s: Board, k: Slack)
    requires InvX(s, k)
    ensures Serials(s) && Indexed(s) && AdvertsLive(s)
  {
    hide Distinct, Lists, Queues, Workers, Waiters, Buffers, Phases, Cds;
  }

  lemma SayOnNoQueue(s: Board, e: Entry, t: Id)
    requires OnNoQueue(s, t)
    ensures OnNoQueue(Say(s, e), t)
  {
  }

  // ---------- svrservice ----------

  lemma CallHeads(s: Board, order: seq<Id>)
    requires Queues(s)
    ensures CastsHold(s, order)
  {
    hide Queues, HeadIsCall;
    forall i | 0 <= i < |order| && CallsWaiting(s, order[i]) ensures HeadIsCall(s, order[i]) {
      CallHead(s, order[i]);
    }
  }

  lemma CallHead(s: Board, v: Id)
    requires Queues(s) && CallsWaiting(s, v)
    ensures HeadIsCall(s, v)
  {
    hide Distinct, IdleQueued;
    assert s.services[v].waitq[0] in s.services[v].waitq;
    match s.services[v].waitq[0]
    case WorkerNode(d) => assert false;
    case CallNode(t) =>
  }

  lemma HeadReady(s: Board, v: Id)
    requires Queues(s) && HeadIsCall(s, v)
    ensures Ready(s, FirstCall(s, v)) && s.calls[FirstCall(s, v)].svc == v
  {
    hide Distinct;
    assert s.services[v].waitq[0] in s.services[v].waitq;
  }

  /** A worker asks for work while it has none; as written, only when no call waits for it. */
  ghost predicate WorkOk(fx: Fixes, s: Board, c: Id) {
    c in s.clients && s.clients[c].wait4 == Nothing
    && (fx.unlink || forall v :: v in s.clients[c].adverts ==> !CallsWaiting(s, v))
  }

  lemma SvrServiceKeeps(fx: Fixes, s: Board, c: Id, env: Env)
    requires InHandler(s, c, {}) && Walks(env.order, s.clients[c].adverts.Keys) && WorkOk(fx, s, c)
    ensures SvrService(fx, s, c, env).Ok? && Inv(SvrService(fx, s, c, env).board)
    ensures SvrService(fx, s, c, env).board.clients.Keys == s.clients.Keys
  {
    hide InvX, Distinct, Without, CastsHold, SendToServer;
    InvQueues(s, TIGHT);
    CallHeads(s, env.order);
    hide Queues, Workers;
    match FindEarliest(fx, s, env.order, None)
    case Some(v) =>
      var t := FirstCall(s, v);
      HeadReady(s, v);
      assert TIGHT.(limbo := TIGHT.limbo - {t}) == TIGHT;
      SendToServerKeeps(fx, s, c, t, TIGHT);
      SendToServerSettles(fx, s, c, t, c);
    case None =>
      ParkKeeps(s, c, TIGHT);
  }

  // ---------- svrreturn ----------

  lemma ExecutedIsPending(s: Board, t: Id, k: Slack)
    requires InvX(s, k) && t in s.calls && s.calls[t].executor.Some?
    ensures Pending(s, t) && s.calls[t].client in s.clients
  {
    hide Distinct, Tables, Queues, Workers, Waiters, Buffers, Phases, Cds;
    assert Pending(s, t) || Done(s, t);
  }

  lemma InvWaiter(s: Board, c: Id, k: Slack)
    requires InvX(s, k) && c in s.clients && Awake(s.clients[c]) && s.clients[c].wait4.For?
    ensures s.clients[c].wait4.call in s.calls && s.calls[s.clients[c].wait4.call].executor == Some(c)
  {
    hide Distinct, Tables, Lists, Queues, Waiters, Buffers, Phases, Cds;
  }

  lemma InvAnyAwaits(s: Board, c: Id, k: Slack)
    requires InvX(s, k) && c in s.clients && s.clients[c].wait4.AnyReply?
    ensures s.clients[c].conn.AwaitReply?
  {
    hide Distinct, Tables, Lists, Queues, Workers, Buffers, Phases, Cds;
  }

  lemma Part2Keeps(s: Board, c: Id)
    requires InHandler(s, c, {}) && s.clients[c].wait4.For?
    ensures Part2(s, c).Ok? && Inv(Part2(s, c).board) && Part2(s, c).board.clients.Keys == s.clients.Keys
  {
    hide InvX, Distinct, Without, Finish;
    NextCommandKeeps(s, c, TIGHT);
    var s1 := NextCommand(s, c).board;
    var t := s.clients[c].wait4.call;
    InvWaiter(s1, c, TIGHT);
    ExecutedIsPending(s1, t, TIGHT);
    NotArriving(s1, t);
    FinishKeeps(s1, c, t, true, TIGHT);
    FinishFrames(s1, c, t, true);
    assert TIGHT.(limbo := TIGHT.limbo - {t}) == TIGHT;
  }

  /** A return from a worker that has a call, with a length that is not negative. */
  predicate ReturnOk(s: Board, c: Id, len: int) {
    c in s.clients && s.clients[c].wait4.For? && 0 <= len
  }

  lemma NobodyElseReads(s: Board, c: Id, t: Id)
    requires InHandler(s, c, {}) && s.clients[c].wait4 == For(t)
    ensures NobodyReads(s, t)
  {
    InvWaiter(s, c, TIGHT);
    InvWorkers(s, TIGHT);
    hide InvX;
    forall d | d in s.clients && s.clients[d].conn.Receiving? && s.clients[d].conn.input == DataOf(t) ensures false {
      assert false;
    }
  }

  lemma InvWorkers(s: Board, k: Slack)
    requires InvX(s, k)
    ensures WaiterExecutes(s) && DataOk(s, k.closing)
  {
    hide Distinct, Tables, Lists, Queues, Waiters, Phases, Cds;
  }

  lemma ArmReturnKeeps(s: Board, c: Id, t: Id)
    requires InHandler(s, c, {}) && s.clients[c].wait4 == For(t) && t in s.calls && 0 < |s.calls[t].data| && t < s.next
    ensures Arm(s, c, ReturnBody, DataOf(t)).Ok? && Inv(Arm(s, c, ReturnBody, DataOf(t)).board)
  {
    hide InvX;
    var conn := Receiving(ReturnBody, DataOf(t), 0);
    assert Arm(s, c, ReturnBody, DataOf(t)).board == Reconn(s, c, conn);
    ReconnKeeps(s, c, conn, TIGHT, {});
  }

  lemma SvrReturnKeeps(s: Board, c: Id, rval: byte, rcode: int, len: int)
    requires InHandler(s, c, {}) && ReturnOk(s, c, len)
    ensures SvrReturn(s, c, rval, rcode, len).Ok? && Inv(SvrReturn(s, c, rval, rcode, len).board)
    ensures SvrReturn(s, c, rval, rcode, len).board.clients.Keys == s.clients.Keys
  {
    hide InvX, NobodyReads, Part2;
    var t := s.clients[c].wait4.call;
    InvWaiter(s, c, TIGHT);
    NobodyElseReads(s, c, t);
    var k' := s.calls[t].(rval := rval, rcode := rcode, data := Resize(s.calls[t].data, len));
    var s1 := PutCall(s, t, k');
    RewriteKeeps(s, t, k', TIGHT);
    InvIndexed(s, TIGHT);
    if len > 0 {
      ArmReturnKeeps(s1, c, t);
    } else {
      var e := Returned(c, t, rval, rcode, []);
      SayInHandler(s1, c, {}, e);
      Part2Keeps(Say(s1, e), c);
    }
  }
}
