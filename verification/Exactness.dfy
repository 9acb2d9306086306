/** The conditions on an event are exact: an event that is possible but not allowed faults or breaks the invariant. */
module Exactness {
  import opened Sequences
  import opened Wire
  import opened Descriptors
  import opened Board
  import opened Invariant
  import opened Touch
  import opened Answer
  import opened Registry
  import opened Departure
  import opened Handlers
  import opened Steps

  /** What has gone wrong: a fault, or a state outside the invariant. */
  ghost predicate Broken(o: Outcome) {
    o.Ok? ==> !Inv(o.board)
  }

  lemma BrokenExecutor(s: Board, t: Id, c: Id)
    requires t in s.calls && s.calls[t].executor == Some(c)
    requires c in s.clients ==> s.clients[c].wait4 != For(t) || !Awake(s.clients[c]) || s.calls[t].svc !in s.clients[c].adverts
    ensures !Inv(s)
  {
    hide Distinct, Tables, Lists, Queues, Waiters, Buffers, Phases, Cds;
  }

  // ---------- what a clean-up does not touch ----------

  /** From `s` to `r` the call `t` stays as it is, and so do the lists it is on and every wait for any reply. */
  ghost predicate Spares(s: Board, r: Board, t: Id) {
    && (t in s.calls ==> t in r.calls && r.calls[t] == s.calls[t])
    && OnNoQueue(r, t)
    && r.clients.Keys == s.clients.Keys
    && (forall c :: c in s.clients ==> ClientSpares(s.clients[c], r.clients[c], t))
  }

  predicate ClientSpares(cl: Client, cl': Client, t: Id) {
    && (cl.wait4 == AnyReply ==> cl'.wait4 == AnyReply)
    && (t in cl'.replies <==> t in cl.replies)
    && (t in cl'.requests <==> t in cl.requests)
    && cl'.adverts.Keys <= cl.adverts.Keys
  }

  lemma SparesTransitive(a: Board, b: Board, r: Board, t: Id)
    requires Spares(a, b, t) && Spares(b, r, t)
    ensures Spares(a, r, t)
  {
    hide OnNoQueue;
    assert forall c :: c in a.clients ==> ClientSpares(a.clients[c], b.clients[c], t) && ClientSpares(b.clients[c], r.clients[c], t);
  }

  lemma DelCallSpares(s: Board, u: Id, t: Id)
    requires u in s.calls && u != t && OnNoQueue(s, t)
    ensures Spares(s, DelCall(s, u), t)
  {
    hide Without, Distinct;
  }

  lemma {:induction false} DrainSpares(s: Board, v: Id, t: Id)
    requires Drain(s, v).Ok? && OnNoQueue(s, t)
    ensures Spares(s, Drain(s, v).board, t)
    decreases if v in s.services then |s.services[v].waitq| else 0
  {
    hide Without, Distinct, Spares, DelCall;
    if s.services[v].waitq == [] {
      SparesReflexive(s, t);
    } else {
      var u := s.services[v].waitq[0].call;
      assert CallNode(u) in s.services[v].waitq;
      DelCallSpares(s, u, t);
      DelCallQueueShrinks(s, u, v);
      SparesOnNoQueue(s, DelCall(s, u), t);
      DrainSpares(DelCall(s, u), v, t);
      SparesTransitive(s, DelCall(s, u), Drain(s, v).board, t);
    }
  }

  lemma SparesReflexive(s: Board, t: Id)
    requires OnNoQueue(s, t)
    ensures Spares(s, s, t)
  {
  }

  lemma SparesOnNoQueue(s: Board, r: Board, t: Id)
    requires Spares(s, r, t)
    ensures OnNoQueue(r, t) && r.clients.Keys == s.clients.Keys
  {
  }

  lemma DelCallQueueShrinks(s: Board, u: Id, v: Id)
    requires u in s.calls && v in s.services && CallNode(u) in s.services[v].waitq
    ensures v in DelCall(s, u).services && |DelCall(s, u).services[v].waitq| < |s.services[v].waitq|
  {
    hide Without, Distinct;
  }

  lemma DropAdvertSpares(s: Board, c: Id, v: Id, t: Id)
    requires c in s.clients && OnNoQueue(s, t)
    ensures Spares(s, DropAdvert(s, c, v), t) && v !in DropAdvert(s, c, v).clients[c].adverts
  {
    hide Without, Distinct;
  }

  lemma RemoveServiceSpares(s: Board, v: Id, t: Id)
    requires v in s.services && OnNoQueue(s, t)
    ensures Spares(s, RemoveService(s, v), t)
  {
  }

  lemma DelAdvertSpares(s: Board, c: Id, v: Id, t: Id)
    requires DelAdvert(s, c, v).Ok? && OnNoQueue(s, t)
    ensures Spares(s, DelAdvert(s, c, v).board, t) && v !in DelAdvert(s, c, v).board.clients[c].adverts
  {
    hide Without, Distinct, OnNoQueue, Drain;
    DropAdvertSpares(s, c, v, t);
    var s1 := DropAdvert(s, c, v);
    if !SomeoneAdvertises(s1, v) {
      hide DropAdvert;
      DrainSpares(s1, v, t);
      RemoveServiceSpares(Drain(s1, v).board, v, t);
      SparesTransitive(s1, Drain(s1, v).board, DelAdvert(s, c, v).board, t);
      SparesTransitive(s, s1, DelAdvert(s, c, v).board, t);
      assert ClientSpares(s1.clients[c], DelAdvert(s, c, v).board.clients[c], t);
    }
  }

  lemma {:induction false} DelAdvertsSpares(s: Board, c: Id, order: seq<Id>, t: Id)
    requires DelAdverts(s, c, order).Ok? && OnNoQueue(s, t)
    ensures Spares(s, DelAdverts(s, c, order).board, t)
    decreases |order|
  {
    hide Spares, DelAdvert, OnNoQueue;
    if order == [] {
      SparesReflexive(s, t);
    } else {
      DelAdvertSpares(s, c, order[0], t);
      var s1 := DelAdvert(s, c, order[0]).board;
      SparesOnNoQueue(s, s1, t);
      DelAdvertsSpares(s1, c, order[1..], t);
      SparesTransitive(s, s1, DelAdverts(s, c, order).board, t);
    }
  }

  lemma {:induction false} DelRequestsSpares(s: Board, c: Id, t: Id)
    requires DelRequests(s, c).Ok? && OnNoQueue(s, t) && c in s.clients && t !in s.clients[c].requests
    ensures Spares(s, DelRequests(s, c).board, t)
    decreases |s.clients[c].requests|
  {
    hide Spares, DelCall, OnNoQueue, Without;
    if s.clients[c].requests == [] {
      SparesReflexive(s, t);
    } else {
      var u := s.clients[c].requests[0];
      DelCallSpares(s, u, t);
      DelCallLists(s, c, u);
      var s1 := DelCall(s, u);
      SparesOnNoQueue(s, s1, t);
      DelRequestsSpares(s1, c, t);
      SparesTransitive(s, s1, DelRequests(s, c).board, t);
    }
  }

  lemma {:induction false} DelRepliesSpares(s: Board, c: Id, t: Id)
    requires DelReplies(s, c).Ok? && OnNoQueue(s, t) && c in s.clients && t !in s.clients[c].replies
    ensures Spares(s, DelReplies(s, c).board, t)
    decreases |s.clients[c].replies|
  {
    hide Spares, DelCall, OnNoQueue, Without;
    if s.clients[c].replies == [] {
      SparesReflexive(s, t);
    } else {
      var u := s.clients[c].replies[0];
      DelCallSpares(s, u, t);
      DelCallLists(s, c, u);
      var s1 := DelCall(s, u);
      SparesOnNoQueue(s, s1, t);
      DelRepliesSpares(s1, c, t);
      SparesTransitive(s, s1, DelReplies(s, c).board, t);
    }
  }

  // ---------- a departure that strands a waiting client ----------

  /** `c` waits for any reply although `t` is one of its replies. */
  predicate Stranded(s: Board, c: Id, t: Id) {
    c in s.clients && s.clients[c].wait4 == AnyReply && t in s.clients[c].replies
  }

  lemma StrandedBreaks(s: Board, c: Id, t: Id)
    requires Stranded(s, c, t)
    ensures !Inv(s)
  {
    hide Distinct, Tables, Lists, Queues, Workers, Buffers, Phases, Cds;
  }

  lemma AbandonStrands(fx: Fixes, s: Board, c: Id)
    requires InvX(s, TIGHT) && AbandonsAnyWaiter(s, c) && !fx.wakeAny
    ensures var t := s.clients[c].wait4.call; var to := s.calls[t].client;
      && to != c && AbandonWork(fx, s, c).Ok?
      && var r := AbandonWork(fx, s, c).board;
         Stranded(r, to, t) && OnNoQueue(r, t) && c in r.clients && t !in r.clients[c].requests && t !in r.clients[c].replies
  {
    hide InvX, Without, Distinct;
    InvQueues(s, TIGHT);
    InvOwned(s, TIGHT);
    var t := s.clients[c].wait4.call;
    var to := s.calls[t].client;
    assert OnNoQueue(s, t);
    FinishIs(Failed(s, c, t), c, t, false);
    assert AbandonWork(fx, s, c) == Ok(KeepReply(LetGo(Failed(s, c, t), c, t), t));
  }

  lemma LeaveBreaks(fx: Fixes, s: Board, c: Id, order: seq<Id>)
    requires InvX(s, TIGHT) && c in s.clients && !LeaveOk(fx, s, c)
    ensures Broken(DelClient(fx, s, c, order))
  {
    hide Inv, InvX, OnNoQueue, Without, AbandonWork, DelAdverts, DelRequests, DelReplies;
    AbandonStrands(fx, s, c);
    var t := s.clients[c].wait4.call;
    var to := s.calls[t].client;
    var s1 := AbandonWork(fx, s, c).board;
    if DelClient(fx, s, c, order).Ok? {
      DelAdvertsSpares(s1, c, order, t);
      var s2 := DelAdverts(s1, c, order).board;
      assert ClientSpares(s1.clients[c], s2.clients[c], t) && ClientSpares(s1.clients[to], s2.clients[to], t);
      DelRequestsSpares(s2, c, t);
      var s3 := DelRequests(s2, c).board;
      assert ClientSpares(s2.clients[c], s3.clients[c], t) && ClientSpares(s2.clients[to], s3.clients[to], t);
      DelRepliesSpares(s3, c, t);
      var s4 := DelReplies(s3, c).board;
      assert ClientSpares(s3.clients[to], s4.clients[to], t);
      StrandedBreaks(DelClient(fx, s, c, order).board, to, t);
    }
  }

  // ---------- a worker that has a call ----------

  lemma InvExecutes(s: Board, c: Id)
    requires InHandler(s, c, {}) && s.clients[c].wait4 != Nothing
    ensures s.clients[c].wait4.For? && s.clients[c].wait4.call in s.calls && s.calls[s.clients[c].wait4.call].executor == Some(c)
    ensures OnNoQueue(s, s.clients[c].wait4.call) && s.clients[c].wait4.call !in s.clients[c].replies
  {
    hide InvX, Distinct;
    if s.clients[c].wait4 == AnyReply { InvAnyAwaits(s, c, TIGHT); assert false; }
    InvWaiter(s, c, TIGHT);
    InvQueues(s, TIGHT);
    InvOwned(s, TIGHT);
  }

  /** A worker asks for work while it executes a call. */
  lemma WorkTwiceBreaks(fx: Fixes, s: Board, c: Id, env: Env)
    requires InHandler(s, c, {}) && s.clients[c].wait4 != Nothing
    ensures Broken(SvrService(fx, s, c, env))
  {
    hide InvX, Inv, Without, Distinct, OnNoQueue;
    InvExecutes(s, c);
    var t0 := s.clients[c].wait4.call;
    if SvrService(fx, s, c, env).Ok? {
      match FindEarliest(fx, s, env.order, None)
      case Some(v) =>
        var t := FirstCall(s, v);
        assert s.services[v].waitq[0] in s.services[v].waitq;
        QueuedIsFree(s, v, t);
        BrokenExecutor(SvrService(fx, s, c, env).board, t0, c);
      case None =>
        BrokenExecutor(SvrService(fx, s, c, env).board, t0, c);
    }
  }

  lemma QueuedIsFree(s: Board, v: Id, t: Id)
    requires InvX(s, TIGHT) && v in s.services && CallNode(t) in s.services[v].waitq
    ensures Pending(s, t) && s.calls[t].executor.None? && !Arriving(s, t) && s.calls[t].svc == v
  {
    hide InvX, Distinct;
    InvQueues(s, TIGHT);
  }

  /** As written, a call that waits is handed over and stays on the queue. */
  lemma WorkKeepsQueuedBreaks(fx: Fixes, s: Board, c: Id, env: Env, v: Id)
    requires InHandler(s, c, {}) && Walks(env.order, s.clients[c].adverts.Keys) && !fx.unlink
    requires v in s.clients[c].adverts && CallsWaiting(s, v)
    ensures Broken(SvrService(fx, s, c, env))
  {
    hide InvX, Inv, Without, Distinct, OnNoQueue;
    if SvrService(fx, s, c, env).Ok? {
      var pick := FindEarliest(fx, s, env.order, None);
      assert pick.Some? by { assert v in env.order; }
      var t := FirstCall(s, pick.value);
      assert CallNode(t) == s.services[pick.value].waitq[0];
      var r := SvrService(fx, s, c, env).board;
      assert CallNode(t) in r.services[pick.value].waitq;
      QueuedExecutingBreaks(r, pick.value, t);
    }
  }

  lemma QueuedExecutingBreaks(s: Board, v: Id, t: Id)
    requires v in s.services && CallNode(t) in s.services[v].waitq && t in s.calls && s.calls[t].executor.Some?
    ensures !Inv(s)
  {
    hide Distinct, Tables, Lists, Workers, Waiters, Buffers, Phases, Cds;
  }

  lemma WorkBreaks(fx: Fixes, s: Board, c: Id, env: Env)
    requires InHandler(s, c, {}) && Walks(env.order, s.clients[c].adverts.Keys) && !WorkOk(fx, s, c)
    ensures Broken(SvrService(fx, s, c, env))
  {
    hide InHandler, SvrService, Broken, Walks;
    HandlerClient(s, c);
    if s.clients[c].wait4 != Nothing {
      WorkTwiceBreaks(fx, s, c, env);
    } else {
      var v :| v in s.clients[c].adverts && CallsWaiting(s, v);
      WorkKeepsQueuedBreaks(fx, s, c, env, v);
    }
  }

  /** A worker with a call gets, or waits for, a reply to a call of its own. */
  lemma GetReplyBreaks(s: Board, c: Id, cd: Short, flags: int)
    requires InHandler(s, c, {}) && !GetReplyOk(s, c, cd, flags)
    ensures Broken(SvrGetReply(s, c, cd, flags))
  {
    hide InvX, Inv, Without, Distinct, OnNoQueue, SndReply, FlagSet;
    InvExecutes(s, c);
    InvOwned(s, TIGHT);
    var t0, cl := s.clients[c].wait4.call, s.clients[c];
    if SvrGetReply(s, c, cd, flags).Ok? {
      var r := SvrGetReply(s, c, cd, flags).board;
      match ReplyReady(s.calls, cl.replies, cd, flags)
      case Some(t) =>
        assert t in cl.replies;
        SndReplyFrames(s, t);
        BrokenExecutor(r, t0, c);
      case None =>
        BrokenExecutor(r, t0, c);
    }
  }

  /** A worker withdraws the service it is executing. */
  lemma UnadvertiseBreaks(s: Board, c: Id, name: Name)
    requires InHandler(s, c, {}) && !UnadvertiseOk(s, c, name)
    ensures Broken(SvrUnadvertise(s, c, name))
  {
    hide InvX, Inv, Without, Distinct, OnNoQueue, DelAdvert;
    InvExecutes(s, c);
    var t0, v := s.clients[c].wait4.call, s.index[name];
    if SvrUnadvertise(s, c, name).Ok? {
      DelAdvertSpares(s, c, v, t0);
      BrokenExecutor(SvrUnadvertise(s, c, name).board, t0, c);
    }
  }

  // ---------- descriptors ----------

  /** Sending a call on changes no descriptor. */
  ghost predicate SameCds(s: Board, r: Board) {
    r.pool == s.pool && r.calls.Keys == s.calls.Keys && forall t :: t in s.calls ==> r.calls[t].cd == s.calls[t].cd
  }

  lemma SendToWorkerCds(fx: Fixes, s: Board, c: Id)
    requires SendToWorker(fx, s, c).Ok?
    ensures SameCds(s, SendToWorker(fx, s, c).board)
  {
    hide Without;
  }

  lemma SameCdsLive(s: Board, r: Board)
    requires SameCds(s, r)
    ensures LiveCds(r.calls) == LiveCds(s.calls)
  {
  }

  lemma NotFreshBreaks(s: Board)
    requires !PoolFresh(s.pool, LiveCds(s.calls))
    ensures !Inv(s)
  {
    hide Distinct, Tables, Lists, Queues, Workers, Waiters, Buffers, Phases, PoolFresh;
  }

  lemma NewCallLive(s: Board, c: Id, svc: Id, len: nat, flags: int, env: Env)
    requires c in s.clients && s.next !in s.calls && NewCall(s, c, svc, len, flags, env).Ok?
    requires PoolFresh(s.pool, LiveCds(s.calls)) && !DrawsWell(s.pool, LiveCds(s.calls), env.batches) && GoodBatches(env.batches)
    ensures var r := NewCall(s, c, svc, len, flags, env).board; !PoolFresh(r.pool, LiveCds(r.calls))
  {
    hide DrawsWell, Take;
    var live := LiveCds(s.calls);
    TakeFresh(s.pool, live, env.batches);
    hide PoolFresh;
    var r := NewCall(s, c, svc, len, flags, env).board;
    var cd := Take(s.pool, live, env.batches).value.cd;
    assert LiveCds(r.calls) == live + {cd} by {
      assert r.calls[s.next].cd == cd;
      assert forall t :: t in s.calls ==> t in r.calls && r.calls[t].cd == s.calls[t].cd;
    }
  }

  /** The batch a descriptor is taken from repeats a descriptor. */
  lemma CallBreaks(fx: Fixes, s: Board, c: Id, name: Name, len: int, flags: int, env: Env)
    requires InHandler(s, c, {}) && GoodBatches(env.batches) && !CallOk(s, name, len, env)
    ensures Broken(SvrAcall(fx, s, c, name, len, flags, env))
  {
    hide InvX, Inv, LiveCds, DrawsWell, PoolFresh, GoodBatches, SendToWorker, Take;
    InvPool(s, TIGHT);
    InvIndexed(s, TIGHT);
    if SvrAcall(fx, s, c, name, len, flags, env).Ok? {
      NewCallLive(s, c, s.index[name], len, flags, env);
      var s1 := NewCall(s, c, s.index[name], len, flags, env).board;
      hide NewCall;
      var s2 := Say(s1, AcceptEntry(s1.calls[s.next], s.next));
      var r := SvrAcall(fx, s, c, name, len, flags, env).board;
      if len > 0 {
        assert SameCds(s2, r);
      } else {
        var s3 := Say(s2, Submitted(c, s.next, []));
        SendToWorkerCds(fx, s3, c);
        assert SameCds(s2, r);
      }
      SameCdsLive(s2, r);
      NotFreshBreaks(r);
    }
  }

  // ---------- every event ----------

  lemma HandlerBreaks(fx: Fixes, s: Board, c: Id, h: Handler, b: seq<byte>, env: Env)
    requires InHandler(s, c, {}) && Walks(env.order, s.clients[c].adverts.Keys) && GoodBatches(env.batches)
    requires !h.CallBody? && !h.ReturnBody? && |b| == CommandLength(h) && !HandlerOk(fx, s, c, h, b, env)
    ensures Broken(RunHandler(fx, s, c, h, b, env))
  {
    hide InvX, Inv, Walks, GoodBatches, SvrService, DelClient, SvrAcall, SvrGetReply, SvrUnadvertise;
    hide WorkOk, CallOk, GetReplyOk, UnadvertiseOk, LeaveOk, CutName, ToLong, ToShort;
    match h
    case Command =>
      if b[0] == TPTWORK { WorkBreaks(fx, s, c, env); } else { LeaveBreaks(fx, s, c, env.order); }
    case Acall => CallBreaks(fx, s, c, CutName(b), ToLong(b, NAME_LENGTH), ToLong(b, NAME_LENGTH + IOLONG), env);
    case GetReply => GetReplyBreaks(s, c, AsShort(ToShort(b, 0)), ToLong(b, IOSHORT));
    case Unadvertise => UnadvertiseBreaks(s, c, CutName(b));
    case Return =>
  }

  lemma ReadScratchBreaks(fx: Fixes, s: Board, c: Id, chunk: seq<byte>, env: Env)
    requires Inv(s) && Possible(s, Read(c, chunk, env)) && !Allowed(fx, s, Read(c, chunk, env))
    requires s.clients[c].conn.Receiving? && s.clients[c].conn.input.Scratch?
    ensures Broken(ReadScratch(fx, s, c, chunk, env))
  {
    hide InvX, Walks, GoodBatches, HandlerOk, RunHandler, Broken;
    InvFits(s, c);
    var Receiving(h, input, used) := s.clients[c].conn;
    var b := Splice(input.bytes, used, chunk);
    UnarmScratch(s, c);
    UnarmJudges(fx, s, c, h, b, env);
    HandlerBreaks(fx, Unarm(s, c), c, h, b, env);
  }

  lemma ReadDataBreaks(fx: Fixes, s: Board, c: Id, chunk: seq<byte>, env: Env)
    requires Inv(s) && Possible(s, Read(c, chunk, env)) && !Allowed(fx, s, Read(c, chunk, env))
    requires s.clients[c].conn.Receiving? && s.clients[c].conn.input.DataOf?
    ensures ReadData(fx, s, c, chunk).Fault?
  {
    hide InvX, Walks, GoodBatches;
    InvFits(s, c);
  }

  /**
   From a good state, an event leads to a good state exactly when it is allowed.
   */
  lemma StepExact(fx: Fixes, s: Board, e: Event)
    requires Inv(s) && Possible(s, e)
    ensures Step(fx, s, e).Ok? && Inv(Step(fx, s, e).board) <==> Allowed(fx, s, e)
  {
    hide Inv, DelClient, Walks, GoodBatches, ReadScratch, ReadData, Connect, DataReadOk, LeaveOk, HandlerOk;
    if Allowed(fx, s, e) {
      StepKeeps(fx, s, e);
    } else {
      match e
      case Leave(c, order) => if !DeadInput(s, c) { InvTight(s); LeaveBreaks(fx, s, c, order); }
      case Read(c, chunk, env) =>
        if !s.clients[c].conn.Receiving? {
          InvTight(s);
          LeaveBreaks(fx, s, c, env.order);
        } else if s.clients[c].conn.input.Scratch? {
          ReadScratchBreaks(fx, s, c, chunk, env);
        } else {
          ReadDataBreaks(fx, s, c, chunk, env);
        }
    }
  }

  lemma InvTight(s: Board)
    requires Inv(s)
    ensures InvX(s, TIGHT)
  {
    hide InvX;
  }
}
