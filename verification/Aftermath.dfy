/** What is left of a client that has gone. */
module Aftermath {
  import opened Sequences
  import opened Board
  import opened Invariant
  import opened Answer
  import opened Departure
  import opened Handlers
  import opened Steps
  import opened Exactness
  import opened Stream
  import opened Orphans
  import opened Fairness

  /** No table, queue or `executor` refers to the client `c`. */
  ghost predicate NoClient(r: Board, c: Id) {
    && c !in r.clients
    && (forall v :: v in r.services ==> WorkerNode(c) !in r.services[v].waitq)
    && (forall u :: u in r.calls ==> r.calls[u].client != c && r.calls[u].executor != Some(c))
  }

  /** No table, list, queue or `wait4` refers to the call `t`. */
  ghost predicate NoCall(r: Board, t: Id) {
    && t !in r.calls
    && (forall v :: v in r.services ==> CallNode(t) !in r.services[v].waitq)
    && (forall d :: d in r.clients ==>
          r.clients[d].wait4 != For(t) && t !in r.clients[d].requests && t !in r.clients[d].replies)
  }

  lemma InvLive(s: Board, k: Slack)
    requires InvX(s, k)
    ensures Held(s)
  {
    hide Tables, Held, Queues, Workers, Waiters, Buffers, Phases, Cds, Distinct;
  }

  lemma GoneClient(r: Board, c: Id)
    requires Inv(r) && c !in r.clients
    ensures NoClient(r, c)
  {
    hide InvX, Distinct;
    InvLive(r, TIGHT);
    InvQueues(r, TIGHT);
    InvWorking(r, TIGHT);
  }

  lemma GoneCall(r: Board, t: Id)
    requires Inv(r) && t !in r.calls
    ensures NoCall(r, t)
  {
    hide InvX, Distinct;
    InvQueues(r, TIGHT);
    InvWorking(r, TIGHT);
    forall d | d in r.clients && r.clients[d].wait4 == For(t) ensures false {
      WaitedIsLive(r, d);
    }
  }

  /** The buffer of `t` is being received by `d`, if at all, before and after; and then by the worker that executed it. */
  predicate StillReceives(s: Board, r: Board, d: Id, t: Id)
    requires d in r.clients && t in s.calls
  {
    && d in s.clients && (ReadsInto(r.clients[d], t) <==> ReadsInto(s.clients[d], t))
    && (ReadsInto(r.clients[d], t) ==> r.clients[d].conn.handler == ReturnBody && s.calls[t].executor == Some(d))
  }

  /** What a departure of `c` from `s` leaves: nothing of `c`, nothing of its calls, and no new receiver of their buffers. */
  ghost predicate LeavesNothing(s: Board, r: Board, c: Id) {
    && NoClient(r, c)
    && (forall t :: t in s.calls && s.calls[t].client == c ==> NoCall(r, t))
    && (forall d, t :: d in r.clients && t in s.calls && s.calls[t].client == c ==> StillReceives(s, r, d, t))
  }

  /**
   `del_client` leaves no trace of the client, nor of any call it made, except that a worker which was
   receiving the reply to one of them goes on pointing at the freed buffer: exactly those workers, and no one
   else. The rest of the state stays good unless a client that waits for any reply is stranded.
   */
  lemma NothingIsLeft(fx: Fixes, s: Board, c: Id, order: seq<Id>)
    requires Inv(s) && c in s.clients && Walks(order, s.clients[c].adverts.Keys)
    ensures DelClient(fx, s, c, order).Ok? && LeavesNothing(s, DelClient(fx, s, c, order).board, c)
    ensures Inv(DelClient(fx, s, c, order).board) <==> LeaveOk(fx, s, c)
  {
    hide Inv, DelClient, Walks, LeavesNothing, Eased, LeaveOk;
    if LeaveOk(fx, s, c) {
      NothingIsLeftGood(fx, s, c, order);
    } else {
      var to := s.calls[s.clients[c].wait4.call].client by { StrandsSomeone(fx, s, c); }
      DepartureEased(fx, s, c, order);
      NothingIsLeftGood(fx, Eased(s, to), c, order);
      EasedLeaves(s, DelClient(fx, s, c, order).board, c, to);
      InvTight(s);
      LeaveBreaks(fx, s, c, order);
    }
  }

  lemma StrandsSomeone(fx: Fixes, s: Board, c: Id)
    requires c in s.clients && !LeaveOk(fx, s, c)
    ensures s.clients[c].wait4.For? && s.clients[c].wait4.call in s.calls
  {
  }

  /** That one client waits for any reply makes no difference to what is left. */
  lemma EasedLeaves(s: Board, r: Board, c: Id, to: Id)
    requires LeavesNothing(Eased(s, to), Eased(r, to), c)
    ensures LeavesNothing(s, r, c)
  {
    hide NoClient, NoCall, StillReceives, Eased;
    var s', r' := Eased(s, to), Eased(r, to);
    SameButWaits(s, to);
    SameButWaits(r, to);
    EasedNoClient(r, c, to);
    forall t | t in s.calls && s.calls[t].client == c ensures NoCall(r, t) {
      assert NoCall(r', t);
      EasedNoCall(r, t, to);
    }
    forall d, t | d in r.clients && t in s.calls && s.calls[t].client == c ensures StillReceives(s, r, d, t) {
      assert StillReceives(s', r', d, t);
      EasedReceives(s, r, d, t, to);
    }
  }

  lemma SameButWaits(s: Board, to: Id)
    ensures Eased(s, to).clients.Keys == s.clients.Keys && Eased(s, to).calls == s.calls
  {
  }

  lemma EasedNoClient(r: Board, c: Id, to: Id)
    requires NoClient(Eased(r, to), c)
    ensures NoClient(r, c)
  {
  }

  lemma EasedNoCall(r: Board, t: Id, to: Id)
    requires NoCall(Eased(r, to), t)
    ensures NoCall(r, t)
  {
    forall d | d in r.clients ensures r.clients[d].wait4 != For(t) && t !in r.clients[d].requests && t !in r.clients[d].replies {
      assert d in Eased(r, to).clients;
    }
  }

  lemma EasedReceives(s: Board, r: Board, d: Id, t: Id, to: Id)
    requires d in r.clients && d in Eased(r, to).clients && t in s.calls && t in Eased(s, to).calls
    requires StillReceives(Eased(s, to), Eased(r, to), d, t)
    ensures StillReceives(s, r, d, t)
  {
  }

  lemma NothingIsLeftGood(fx: Fixes, s: Board, c: Id, order: seq<Id>)
    requires Inv(s) && c in s.clients && Walks(order, s.clients[c].adverts.Keys) && LeaveOk(fx, s, c)
    ensures DelClient(fx, s, c, order).Ok? && Inv(DelClient(fx, s, c, order).board)
    ensures LeavesNothing(s, DelClient(fx, s, c, order).board, c)
  {
    hide InvX, DelClient, Walks, NoClient, NoCall, StillReceives;
    DepartureKeeps(fx, s, c, order);
    var r := DelClient(fx, s, c, order).board;
    GoneClient(r, c);
    forall t | t in s.calls && s.calls[t].client == c ensures t !in r.calls && NoCall(r, t) {
      CallsGo(fx, s, c, order, t);
      GoneCall(r, t);
    }
    forall d, t | d in r.clients && t in s.calls && s.calls[t].client == c ensures StillReceives(s, r, d, t) {
      ReceiversStay(fx, s, c, order, d, t);
    }
  }

  lemma CallsGo(fx: Fixes, s: Board, c: Id, order: seq<Id>, t: Id)
    requires Inv(s) && c in s.clients && Walks(order, s.clients[c].adverts.Keys) && LeaveOk(fx, s, c)
    requires t in s.calls && s.calls[t].client == c
    ensures DelClient(fx, s, c, order).Ok? && t !in DelClient(fx, s, c, order).board.calls
  {
    hide InvX, DelClient, Walks;
    SettledQuiet(s, c);
    DelClientKeeps(fx, s, c, order);
    InvLive(DelClient(fx, s, c, order).board, TIGHT);
  }

  lemma ReceiversStay(fx: Fixes, s: Board, c: Id, order: seq<Id>, d: Id, t: Id)
    requires Inv(s) && c in s.clients && Walks(order, s.clients[c].adverts.Keys) && LeaveOk(fx, s, c)
    requires t in s.calls && s.calls[t].client == c && DelClient(fx, s, c, order).Ok? && d in DelClient(fx, s, c, order).board.clients
    ensures StillReceives(s, DelClient(fx, s, c, order).board, d, t)
  {
    hide InvX, DelClient, Walks;
    DepartureKeeps(fx, s, c, order);
    SettledQuiet(s, c);
    DelClientOrderly(fx, s, c, order);
    var r := DelClient(fx, s, c, order).board;
    assert r.clients[d].conn == s.clients[d].conn || (Parked(s.clients[d]) && r.clients[d].conn == NEXT);
    if ReadsInto(s.clients[d], t) { ReadsAsExecutor(s, d, t); }
  }
}
