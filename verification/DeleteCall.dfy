/** Deleting a call keeps the invariant. */
module DeleteCall {
  import opened Sequences
  import opened Board
  import opened Invariant

  lemma DelCallTables(s: Board, t: Id, bare: set<Id>)
    requires t in s.calls && Tables(s, bare)
    ensures Tables(DelCall(s, t), bare)
  {
    hide Without, Distinct;
    var r := DelCall(s, t);
    forall v | v in r.services && v !in bare ensures exists c :: Advertises(r, c, v) {
      var c :| Advertises(s, c, v);
      assert Advertises(r, c, v);
    }
  }

  lemma DelCallHeld(s: Board, t: Id)
    requires t in s.calls && Held(s)
    ensures Held(DelCall(s, t))
  {
    hide Without, Distinct;
    var r := DelCall(s, t);
    forall u | u in r.calls ensures Pending(r, u) || Done(r, u) {
      assert Pending(s, u) || Done(s, u);
    }
  }

  lemma DelCallRequests(s: Board, t: Id)
    requires t in s.calls && RequestsOwned(s)
    ensures RequestsOwned(DelCall(s, t))
  {
    hide Without, Distinct, DelCall;
    var r := DelCall(s, t);
    forall c, u | c in r.clients && u in r.clients[c].requests ensures u in r.calls && r.calls[u].client == c {
      DelCallRequest(s, t, c, u);
    }
    forall c, u | c in r.clients && u in r.clients[c].requests ensures u !in r.clients[c].replies {
      DelCallRequest(s, t, c, u);
    }
  }

  lemma DelCallRequest(s: Board, t: Id, c: Id, u: Id)
    requires t in s.calls && RequestsOwned(s) && c in DelCall(s, t).clients && u in DelCall(s, t).clients[c].requests
    ensures var r := DelCall(s, t); u in r.calls && r.calls[u].client == c && u !in r.clients[c].replies
  {
    hide Without, Distinct;
    assert u in s.clients[c].requests && u != t;
  }

  lemma DelCallReplies(s: Board, t: Id)
    requires t in s.calls && RepliesOwned(s)
    ensures RepliesOwned(DelCall(s, t))
  {
    hide Without, Distinct;
    var r := DelCall(s, t);
    forall c, u | c in r.clients && u in r.clients[c].replies
      ensures u in r.calls && r.calls[u].client == c && r.calls[u].executor.None?
    {
      assert u in s.clients[c].replies && u != t;
    }
  }

  lemma DelCallOwned(s: Board, t: Id)
    requires t in s.calls && RequestsOwned(s) && RepliesOwned(s)
    ensures RequestsOwned(DelCall(s, t)) && RepliesOwned(DelCall(s, t))
  {
    hide RequestsOwned, RepliesOwned, DelCall;
    DelCallRequests(s, t);
    DelCallReplies(s, t);
  }

  lemma DelCallDistinct(s: Board, t: Id)
    requires t in s.calls
    ensures ListsDistinct(s) ==> ListsDistinct(DelCall(s, t))
    ensures QueuesDistinct(s) ==> QueuesDistinct(DelCall(s, t))
  {
    hide Without, Distinct;
  }

  lemma DelCallQueuedCalls(s: Board, t: Id)
    requires t in s.calls && QueuedCalls(s)
    ensures QueuedCalls(DelCall(s, t))
  {
    hide Without, Distinct, DelCall, Arriving;
    var r := DelCall(s, t);
    forall v, u | v in r.services && CallNode(u) in r.services[v].waitq
      ensures r.services[v].holdsCalls && Pending(r, u) && u in r.calls && r.calls[u].svc == v
              && r.calls[u].executor.None? && !Arriving(r, u)
    {
      DelCallQueuedCall(s, t, v, u);
    }
  }

  lemma DelCallQueuedCall(s: Board, t: Id, v: Id, u: Id)
    requires t in s.calls && QueuedCalls(s) && v in DelCall(s, t).services && CallNode(u) in DelCall(s, t).services[v].waitq
    ensures DelCall(s, t).services[v].holdsCalls && Pending(DelCall(s, t), u) && !Arriving(DelCall(s, t), u)
    ensures DelCall(s, t).calls[u].svc == v && DelCall(s, t).calls[u].executor.None?
  {
    hide Without, Distinct;
    assert CallNode(u) in s.services[v].waitq && u != t;
  }

  lemma DelCallIdle(s: Board, t: Id)
    requires t in s.calls && QueuedWorkers(s) && IdleQueued(s)
    ensures QueuedWorkers(DelCall(s, t)) && IdleQueued(DelCall(s, t))
  {
    hide Without, Distinct;
  }

  lemma DelCallExecutors(s: Board, t: Id)
    requires t in s.calls && ExecutorWaits(s)
    ensures ExecutorWaits(DelCall(s, t))
  {
    hide Without, Distinct;
  }

  lemma DelCallWaiters(s: Board, t: Id)
    requires t in s.calls && WaiterExecutes(s) && IdleFree(s) && AnyWaits(s)
    ensures WaiterExecutes(DelCall(s, t)) && IdleFree(DelCall(s, t)) && AnyWaits(DelCall(s, t))
  {
    hide Without, Distinct, WaiterExecutes, AnyWaits;
    DelCallExecutes(s, t);
    DelCallAnyWaits(s, t);
  }

  lemma DelCallExecutes(s: Board, t: Id)
    requires t in s.calls && WaiterExecutes(s)
    ensures WaiterExecutes(DelCall(s, t))
  {
    hide Without, Distinct;
  }

  lemma DelCallAnyWaits(s: Board, t: Id)
    requires t in s.calls && AnyWaits(s)
    ensures AnyWaits(DelCall(s, t))
  {
    hide Without, Distinct;
    var r := DelCall(s, t);
    forall c | c in r.clients && r.clients[c].wait4.AnyReply? ensures r.clients[c].conn.AwaitReply? && r.clients[c].replies == [] {
      assert s.clients[c].wait4.AnyReply? && t !in s.clients[c].replies;
    }
  }

  lemma DelCallCallWaits(s: Board, t: Id)
    requires t in s.calls && RequestsOwned(s) && CallWaits(s)
    ensures CallWaits(DelCall(s, t))
  {
    hide Without, Distinct;
  }

  lemma DelCallBuffers(s: Board, t: Id, closing: set<Id>)
    requires t in s.calls && RequestsOwned(s) && WaiterExecutes(s) && Buffers(s, closing)
    requires Arriving(s, t) ==> s.calls[t].client in closing
    ensures Buffers(DelCall(s, t), closing)
  {
    hide Without, Distinct, DataOk, RequestsOwned, WaiterExecutes, Arriving;
    DelCallDataOk(s, t, closing);
  }

  lemma DelCallDataOk(s: Board, t: Id, closing: set<Id>)
    requires t in s.calls && RequestsOwned(s) && WaiterExecutes(s) && DataOk(s, closing)
    requires Arriving(s, t) ==> s.calls[t].client in closing
    ensures DataOk(DelCall(s, t), closing)
  {
    hide Without, Distinct;
    var r := DelCall(s, t);
    forall c | c in r.clients && c !in closing && r.clients[c].conn.Receiving? && r.clients[c].conn.input.DataOf?
      ensures DataFits(r, c)
    {
      assert DataFits(s, c);
    }
  }

  lemma DelCallPhases(s: Board, t: Id, limbo: set<Id>)
    requires t in s.calls && Phases(s, limbo)
    ensures Phases(DelCall(s, t), limbo - {t})
  {
    hide Without, Distinct;
    var r := DelCall(s, t);
    forall u | Pending(r, u) && u !in limbo - {t} ensures Executing(r, u) || Queued(r, u) || Arriving(r, u) {
      assert Pending(s, u) && u != t;
    }
  }

  lemma DelCallCds(s: Board, t: Id)
    requires t in s.calls && Cds(s.calls, s.pool)
    ensures Cds(DelCall(s, t).calls, s.pool)
  {
    hide Without, Distinct;
    assert LiveCds(DelCall(s, t).calls) <= LiveCds(s.calls);
  }

  lemma DelCallKeeps(s: Board, t: Id, k: Slack)
    requires t in s.calls && InvX(s, k)
    requires Arriving(s, t) ==> s.calls[t].client in k.closing
    ensures InvX(DelCall(s, t), k.(limbo := k.limbo - {t}))
  {

    hide Without, Distinct;
    DelCallTables(s, t, k.bare);
    DelCallHeld(s, t);
    DelCallOwned(s, t);
    DelCallDistinct(s, t);
    DelCallQueuedCalls(s, t);
    DelCallIdle(s, t);
    DelCallExecutors(s, t);
    DelCallWaiters(s, t);
    DelCallCallWaits(s, t);
    DelCallBuffers(s, t, k.closing);
    DelCallPhases(s, t, k.limbo);
    DelCallCds(s, t);
  }
}
