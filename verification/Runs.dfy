/** Whole runs of the switchboard: what is true of every state it can reach. */
module Runs {
  import opened Sequences
  import opened Wire
  import opened Board
  import opened Invariant
  import opened Touch
  import opened Steps
  import opened Exactness
  import opened History
  import opened HistorySteps
  import opened Handlers

  function Run(fx: Fixes, s: Board, es: seq<Event>): Outcome
    decreases |es|
  {
    if es == [] then Ok(s)
    else
      var s1 :- Step(fx, s, es[0]);
      Run(fx, s1, es[1..])
  }

  /** Every event of the run is possible when it happens. */
  ghost predicate PossibleRun(fx: Fixes, s: Board, es: seq<Event>)
    decreases |es|
  {
    es == [] || (Possible(s, es[0]) && (Step(fx, s, es[0]).Ok? ==> PossibleRun(fx, Step(fx, s, es[0]).board, es[1..])))
  }

  /** Every event of the run is possible and allowed when it happens. */
  ghost predicate GoodRun(fx: Fixes, s: Board, es: seq<Event>)
    decreases |es|
  {
    es == [] || (Possible(s, es[0]) && Allowed(fx, s, es[0])
                 && (Step(fx, s, es[0]).Ok? ==> GoodRun(fx, Step(fx, s, es[0]).board, es[1..])))
  }

  /** The run does not fault, and every state it passes through is good. */
  ghost predicate StaysGood(fx: Fixes, s: Board, es: seq<Event>)
    decreases |es|
  {
    Inv(s) && (es == [] || (Step(fx, s, es[0]).Ok? && StaysGood(fx, Step(fx, s, es[0]).board, es[1..])))
  }

  lemma EmptyIsGood()
    ensures Inv(EMPTY) && LogInv(EMPTY)
  {
  }

  lemma {:induction false} GoodRunFrom(fx: Fixes, s: Board, es: seq<Event>)
    requires Inv(s) && LogInv(s) && GoodRun(fx, s, es)
    ensures Run(fx, s, es).Ok? && Inv(Run(fx, s, es).board) && LogInv(Run(fx, s, es).board)
    decreases |es|
  {
    hide Inv, LogInv, Step, Possible, Allowed;
    if es != [] {
      StepKeeps(fx, s, es[0]);
      StepLog(fx, s, es[0]);
      GoodRunFrom(fx, Step(fx, s, es[0]).board, es[1..]);
    }
  }

  /** A run from the start in which every event is allowed never faults, and ends in a good state with a right log. */
  lemma RunsAreSafe(fx: Fixes, es: seq<Event>)
    requires GoodRun(fx, EMPTY, es)
    ensures Run(fx, EMPTY, es).Ok? && Inv(Run(fx, EMPTY, es).board) && LogInv(Run(fx, EMPTY, es).board)
  {
    hide Inv, LogInv, GoodRun;
    EmptyIsGood();
    GoodRunFrom(fx, EMPTY, es);
  }

  /** A possible run stays good exactly when each of its events is allowed. */
  lemma {:induction false} RunExact(fx: Fixes, s: Board, es: seq<Event>)
    requires Inv(s) && PossibleRun(fx, s, es)
    ensures StaysGood(fx, s, es) <==> GoodRun(fx, s, es)
    decreases |es|
  {
    hide Inv, Step, Possible, Allowed;
    if es != [] {
      StepExact(fx, s, es[0]);
      if Allowed(fx, s, es[0]) {
        RunExact(fx, Step(fx, s, es[0]).board, es[1..]);
      } else if Step(fx, s, es[0]).Ok? {
        var s1 := Step(fx, s, es[0]).board;
        assert !StaysGood(fx, s1, es[1..]) by { assert !Inv(s1); }
      }
    }
  }

  // ---------- what holds in every reachable state ----------

  ghost predicate Reachable(fx: Fixes, s: Board) {
    exists es :: GoodRun(fx, EMPTY, es) && Run(fx, EMPTY, es) == Ok(s)
  }

  lemma ReachableIsGood(fx: Fixes, s: Board)
    requires Reachable(fx, s)
    ensures Inv(s) && LogInv(s)
  {
    hide Inv, LogInv, GoodRun, Run;
    var es :| GoodRun(fx, EMPTY, es) && Run(fx, EMPTY, es) == Ok(s);
    RunsAreSafe(fx, es);
  }

  /** Position of `t` in the two lists of every client. */
  ghost predicate OnExactlyOneList(s: Board, t: Id)
    requires t in s.calls
  {
    && s.calls[t].client in s.clients
    && ((t in s.clients[s.calls[t].client].requests) != (t in s.clients[s.calls[t].client].replies))
    && (forall c :: c in s.clients && (t in s.clients[c].requests || t in s.clients[c].replies) ==> c == s.calls[t].client)
  }

  /** Each accepted call is on exactly one list of its submitter, and in exactly one place. */
  lemma EveryCallHasOnePlace(fx: Fixes, s: Board, t: Id)
    requires Reachable(fx, s) && t in s.calls
    ensures OnExactlyOneList(s, t) && InOnePlace(s, t)
    ensures t in s.clients[s.calls[t].client].requests <==> Arriving(s, t) || Queued(s, t) || Executing(s, t)
  {
    hide Reachable, InvX, Queues;
    ReachableIsGood(fx, s);
    InOnePlaceAlways(s, t);
    InvLists(s, TIGHT);
    InvOwned(s, TIGHT);
    OnePlaceLists(s, t);
    if Arriving(s, t) { ArrivingIsPending(s, t); }
  }

  /** Of the things that happen to one call, each happens at most once; and each has its cause earlier in the log. */
  lemma AtMostOnce(fx: Fixes, s: Board, i: nat, j: nat)
    requires Reachable(fx, s) && i < j < |s.log|
    ensures s.log[i].Handed? && s.log[j].Handed? ==> s.log[i].call != s.log[j].call
    ensures s.log[i].Replied? && s.log[j].Replied? ==> s.log[i].call != s.log[j].call
    ensures s.log[i].Accepted? && s.log[j].Accepted? ==> s.log[i].call != s.log[j].call
  {
    hide Reachable, Inv;
    ReachableIsGood(fx, s);
    assert Fair(s.log[..j], s.log[j]);
    assert s.log[..j][i] == s.log[i];
  }

  /** `c` was given the descriptor in `e` for a call with its service and flags, and then sent its body. */
  predicate SentBy(c: Id, log: seq<Entry>, e: Entry)
    requires e.Handed?
  {
    Submitted(c, e.call, e.data) in log && Accepted(c, e.call, e.cd, e.svc, e.flags) in log
  }

  /** What a worker is handed is the body its caller sent, under the descriptor that caller was given. */
  lemma WorkIsWhatWasSent(fx: Fixes, s: Board, j: nat)
    requires Reachable(fx, s) && j < |s.log| && s.log[j].Handed?
    ensures exists c :: SentBy(c, s.log[..j], s.log[j])
  {
    hide Reachable, Inv;
    ReachableIsGood(fx, s);
    var e := s.log[j];
    assert Fair(s.log[..j], e);
    var c :| Submitted(c, e.call, e.data) in s.log[..j] && Accepted(c, e.call, e.cd, e.svc, e.flags) in s.log[..j];
    assert SentBy(c, s.log[..j], e);
  }

  /** A worker was handed the call of `e`, and then returned what `e` says, or left, and `e` says that it failed. */
  ghost predicate Accounted(log: seq<Entry>, e: Entry)
    requires e.Replied?
  {
    exists i, k :: 0 <= i < k < |log| && log[i].Handed? && log[i].call == e.call
      && (log[k] == Returned(log[i].to, e.call, e.rval, e.rcode, e.data)
          || (log[k] == Abandoned(log[i].to, e.call) && e.rval == TPERRNO && e.rcode == TPESVCERR))
  }

  /**
   A reply goes to the client that made the call, with the descriptor it was given; and it is what the worker
   that was handed the call returned, or says that this worker failed, which then had left.
   */
  lemma ReplyIsWhatWasReturned(fx: Fixes, s: Board, j: nat)
    requires Reachable(fx, s) && j < |s.log| && s.log[j].Replied?
    ensures exists v, flags :: Accepted(s.log[j].to, s.log[j].call, s.log[j].cd, v, flags) in s.log[..j]
    ensures Accounted(s.log[..j], s.log[j])
  {
    hide Reachable, Inv;
    ReachableIsGood(fx, s);
    var before, e := s.log[..j], s.log[j];
    assert Fair(before, e);
    if w :| Returned(w, e.call, e.rval, e.rcode, e.data) in before {
      var i, k := EndedByItsWorker(s.log, j, Returned(w, e.call, e.rval, e.rcode, e.data));
    } else {
      var w :| Abandoned(w, e.call) in before;
      var i, k := EndedByItsWorker(s.log, j, Abandoned(w, e.call));
    }
  }

  /** What says that no worker failed was returned by the worker. */
  lemma RegularWasReturned(log: seq<Entry>, e: Entry) returns (i: nat, k: nat)
    requires e.Replied? && Accounted(log, e) && e.rval != TPERRNO
    ensures i < k < |log| && log[i].Handed? && log[i].call == e.call && log[k] == Returned(log[i].to, e.call, e.rval, e.rcode, e.data)
  {
    i, k :| 0 <= i < k < |log| && log[i].Handed? && log[i].call == e.call
      && log[k] == Returned(log[i].to, e.call, e.rval, e.rcode, e.data);
  }

  /** A call is ended by the worker that was handed it. */
  lemma EndedByItsWorker(log: seq<Entry>, j: nat, e: Entry) returns (i: nat, k: nat)
    requires Sound(log) && j <= |log| && Ends(e) && e in log[..j]
    ensures i < k < j && log[..j][k] == e && log[..j][i].Handed? && log[..j][i].call == e.call && log[..j][i].to == e.worker
  {
    k :| 0 <= k < j && log[..j][k] == e;
    assert log[k] == e;
    assert Fair(log[..k], log[k]);
    var before := log[..k];
    i :| 0 <= i < |before| && before[i].Handed? && before[i].call == e.call && before[i].to == e.worker;
    assert log[..j][i] == before[i];
  }

  /** No lost work: no call waits on a service that a parked worker advertises. */
  lemma NoLostWork(fx: Fixes, s: Board, c: Id, v: Id, t: Id)
    requires Reachable(fx, s) && c in s.clients && s.clients[c].conn.IdleWorker? && v in s.clients[c].adverts
    ensures v in s.services && CallNode(t) !in s.services[v].waitq && WorkerNode(c) in s.services[v].waitq
  {
    hide Reachable, InvX, LogInv;
    ReachableIsGood(fx, s);
    InvQueues(s, TIGHT);
    InvIndexed(s, TIGHT);
    assert v in s.services;
    assert WorkerNode(c) in s.services[v].waitq;
  }

  /** No missed reply: nobody is parked for a reply that is there. */
  lemma NoMissedReply(fx: Fixes, s: Board, c: Id)
    requires Reachable(fx, s) && c in s.clients && s.clients[c].conn.AwaitReply?
    ensures s.clients[c].wait4 == AnyReply ==> s.clients[c].replies == []
    ensures s.clients[c].wait4.For? ==>
      s.clients[c].wait4.call in s.clients[c].requests && s.clients[c].wait4.call !in s.clients[c].replies
  {
    hide Reachable, InvX, LogInv;
    ReachableIsGood(fx, s);
    InvWaiters(s, TIGHT);
    InvOwned(s, TIGHT);
    if s.clients[c].wait4.For? {
      var t := s.clients[c].wait4.call;
      assert t in s.clients[c].requests;
      assert s.calls[t].client == c;
    }
  }

  lemma InvWaiters(s: Board, k: Slack)
    requires InvX(s, k)
    ensures Waiters(s)
  {
    hide Tables, Lists, Queues, Workers, Waiters, Buffers, Phases, Cds;
  }

  /** `executor` and `wait4` of the workers are inverse, and every `wait4` is live. */
  lemma ExecutorsAndWorkers(fx: Fixes, s: Board, c: Id, t: Id)
    requires Reachable(fx, s) && c in s.clients
    ensures t in s.calls && s.calls[t].executor == Some(c) <==> s.clients[c].conn.Receiving? && s.clients[c].wait4 == For(t)
    ensures s.clients[c].wait4 == For(t) ==> t in s.calls
  {
    hide Reachable, Tables, Queues, Buffers, Phases, Cds, LogInv, Distinct;
    ReachableIsGood(fx, s);
  }

  /** A waiting queue holds calls only or workers only, and the flag tells which. */
  lemma QueuesAreHomogeneous(fx: Fixes, s: Board, v: Id, n: Node)
    requires Reachable(fx, s) && v in s.services && n in s.services[v].waitq
    ensures n.CallNode? <==> s.services[v].holdsCalls
    ensures if n.CallNode? then n.call in s.calls && s.calls[n.call].svc == v
            else n.client in s.clients && v in s.clients[n.client].adverts && s.clients[n.client].conn.IdleWorker?
  {
    hide Reachable, InvX, LogInv;
    ReachableIsGood(fx, s);
    InvQueues(s, TIGHT);
  }

  /** A name is in the index exactly when some client advertises its service. */
  lemma IndexIsWhatIsAdvertised(fx: Fixes, s: Board, name: Name)
    requires Reachable(fx, s)
    ensures name in s.index <==> exists c, v :: Advertises(s, c, v) && v in s.services && s.services[v].name == name
    ensures forall v, w :: v in s.services && w in s.services && s.services[v].name == s.services[w].name ==> v == w
  {
    hide Reachable, Lists, Queues, Workers, Waiters, Buffers, Phases, Cds, LogInv;
    ReachableIsGood(fx, s);
    if name in s.index {
      var v := s.index[name];
      assert v in s.services && v !in TIGHT.bare;
      var c :| Advertises(s, c, v);
      assert Advertises(s, c, v) && s.services[v].name == name;
    }
  }

  /** The descriptors of live calls are distinct and not zero. */
  lemma DescriptorsAreDistinct(fx: Fixes, s: Board, t: Id, u: Id)
    requires Reachable(fx, s) && t in s.calls && u in s.calls
    ensures s.calls[t].cd != 0 && (s.calls[t].cd == s.calls[u].cd <==> t == u)
  {
    hide Reachable, Tables, Lists, Queues, Workers, Waiters, Buffers, Phases, LogInv;
    ReachableIsGood(fx, s);
  }

  /** While a body is being read it belongs to the last of its client's requests. */
  lemma BodyIsOfLastRequest(fx: Fixes, s: Board, c: Id, t: Id)
    requires Reachable(fx, s) && c in s.clients && ReadsBody(s.clients[c].conn, t)
    ensures s.clients[c].requests != [] && Last(s.clients[c].requests) == t && t in s.calls && s.calls[t].client == c
    ensures s.clients[c].conn.used < |s.calls[t].data|
  {
    hide Reachable, InvX, LogInv;
    ReachableIsGood(fx, s);
    ArrivingOnNoQueue(s, c, t);
    InvFits(s, c);
  }
}
