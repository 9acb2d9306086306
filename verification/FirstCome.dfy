/** First come, first served, over whole runs: for the calls that wait for a service and for the workers that wait for calls. */
module FirstCome {
  import opened Sequences
  import opened Board
  import opened Invariant
  import opened Handlers
  import opened Steps
  import opened History
  import opened HistorySteps
  import opened Order
  import opened Fairness
  import opened Steadiness
  import opened Turning
  import opened Traces
  import opened Messages

  /** `n` is in the queue, and `m` does not stand before it. */
  ghost predicate Ahead(q: seq<Node>, n: Node, m: Node) {
    exists i :: 0 <= i < |q| && q[i] == n && forall j :: 0 <= j < |q| && q[j] == m ==> i < j
  }

  lemma AheadInSub(p: seq<Node>, q: seq<Node>, n: Node, m: Node)
    requires Sub(p, q) && Distinct(q) && Ahead(q, n, m) && n in p && n != m
    ensures Ahead(p, n, m)
  {
    hide Sub;
    var i :| 0 <= i < |q| && q[i] == n && forall j :: 0 <= j < |q| && q[j] == m ==> i < j;
    var k :| 0 <= k < |p| && p[k] == n;
    forall j | 0 <= j < |p| && p[j] == m ensures k < j {
      if j < k { SubKeepsOrder(p, q, j, k); }
    }
  }

  /** Whoever is ahead of another in a queue and stays in it stays ahead. */
  lemma AheadMoves(q: seq<Node>, q': seq<Node>, n: Node, m: Node)
    requires Moved(q, q') && Distinct(q) && Ahead(q, n, m) && n in q' && n != m
    ensures Ahead(q', n, m)
  {
    hide Sub, Distinct;
    assert n in q;
    if Sub(q', q) {
      AheadInSub(q', q, n, m);
    } else {
      var p := q'[..|q'| - 1];
      assert q' == p + [Last(q')];
      assert n in p;
      AheadInSub(p, q, n, m);
      var i :| 0 <= i < |p| && p[i] == n && forall j :: 0 <= j < |p| && p[j] == m ==> i < j;
      assert q'[i] == n;
      forall j | 0 <= j < |q'| && q'[j] == m ensures i < j { if j < |p| { assert p[j] == m; } }
    }
  }

  predicate Waits(s: Board, v: Id, n: Node) {
    v in s.services && n in s.services[v].waitq
  }

  lemma StepOrder(fx: Fixes, ss: seq<Board>, es: seq<Event>, k: nat, v: Id, n: Node, m: Node)
    requires Trace(fx, ss, es) && k < |es| && n != m
    requires Waits(ss[k], v, n) && Ahead(ss[k].services[v].waitq, n, m) && Waits(ss[k + 1], v, n)
    ensures Ahead(ss[k + 1].services[v].waitq, n, m)
  {
    hide Inv, LogInv, Step, Possible, Allowed, Own, Onward, GoodStep, Trace, Ahead, Distinct, Sub, Moved, HandsFromHead, WakesParked;
    TraceStarts(fx, ss, es);
    TraceStep(fx, ss, es, k);
    var s, r, e := ss[k], ss[k + 1], es[k];
    if e.Arrive? {
      assert r.services == s.services by { ArriveServices(fx, s); }
    } else {
      TurnIsOrderly(fx, s, e);
      QueueIsDistinct(s, v);
      AheadMoves(s.services[v].waitq, r.services[v].waitq, n, m);
    }
  }

  lemma ArriveServices(fx: Fixes, s: Board)
    ensures Step(fx, s, Arrive).Ok? && Step(fx, s, Arrive).board.services == s.services
  {
  }

  lemma QueueIsDistinct(s: Board, v: Id)
    requires Inv(s) && v in s.services
    ensures Distinct(s.services[v].waitq)
  {
    hide InvX, Distinct;
    InvQueues(s, TIGHT);
  }

  /** As long as `n` waits at `v` without interruption, it stays ahead of whoever was not before it. */
  lemma {:induction false} StaysAhead(fx: Fixes, ss: seq<Board>, es: seq<Event>, m: nat, n: nat, v: Id, x: Node, y: Node)
    requires Trace(fx, ss, es) && m <= n <= |es| && x != y
    requires forall k :: m <= k <= n ==> Waits(ss[k], v, x)
    requires Waits(ss[m], v, x) && Ahead(ss[m].services[v].waitq, x, y)
    ensures Waits(ss[n], v, x) && Ahead(ss[n].services[v].waitq, x, y)
    decreases n
  {
    hide Trace, Ahead;
    if m < n {
      StaysAhead(fx, ss, es, m, n - 1, v, x, y);
      StepOrder(fx, ss, es, n - 1, v, x, y);
    }
  }

  // ---------- who is handed over ----------

  /** What an event hands over is the head of the queue of its service, or goes to it. */
  lemma HandsHead(fx: Fixes, ss: seq<Board>, es: seq<Event>, n: nat, j: nat)
    requires Trace(fx, ss, es) && n < |es| && |ss[n].log| <= j < |ss[n + 1].log| && ss[n + 1].log[j].Handed?
    ensures var e, s := ss[n + 1].log[j], ss[n];
      && e.svc in s.services && s.services[e.svc].waitq != []
      && (s.services[e.svc].waitq[0] == CallNode(e.call) || s.services[e.svc].waitq[0] == WorkerNode(e.to))
  {
    hide Inv, LogInv, Step, Possible, Allowed, Own, Onward, GoodStep, Trace, QueuesMoved, WakesParked;
    TraceStarts(fx, ss, es);
    TraceStep(fx, ss, es, n);
    var s, r, e := ss[n], ss[n + 1], ss[n + 1].log[j];
    WrittenFromFrame(fx, s, es[n], r, j);
    if es[n].Arrive? {
      ArriveLog(fx, s);
      assert false;
    }
    TurnIsOrderly(fx, s, es[n]);
    assert FromHead(s, e);
    var v :| v in s.services && s.services[v].waitq != [] && s.services[v].name == e.name
      && (s.services[v].waitq[0] == CallNode(e.call) || s.services[v].waitq[0] == WorkerNode(e.to));
    InvNames(s);
  }

  lemma ArriveLog(fx: Fixes, s: Board)
    ensures Step(fx, s, Arrive).Ok? && Step(fx, s, Arrive).board.log == s.log
  {
  }

  lemma OneKind(s: Board, v: Id, t: Id, c: Id)
    requires Inv(s) && v in s.services
    ensures !(CallNode(t) in s.services[v].waitq && WorkerNode(c) in s.services[v].waitq)
  {
    hide InvX, Distinct;
    InvQueues(s, TIGHT);
  }

  lemma NotFirst(q: seq<Node>, n: Node, m: Node)
    requires Ahead(q, n, m)
    ensures q != [] && q[0] != m
  {
  }

  // ---------- calls ----------

  /** A call that is not handed over and not deleted stays in its queue. */
  lemma StaysQueued(fx: Fixes, ss: seq<Board>, es: seq<Event>, m: nat, k: nat, n: nat, v: Id, t: Id)
    requires Trace(fx, ss, es) && m <= k <= n <= |es| && Waits(ss[m], v, CallNode(t))
    requires t in ss[n].calls && !WasHanded(ss[n].log, t)
    ensures Waits(ss[k], v, CallNode(t))
  {
    hide Inv, LogInv, Step, Possible, Allowed, Own, Onward, GoodStep, Trace, WasHanded, WasSubmitted;
    TraceStarts(fx, ss, es);
    TraceGood(fx, ss, es, m);
    TraceGood(fx, ss, es, k);
    QueuedFacts(ss[m], v, t);
    TraceGrows(fx, ss, es, m, k);
    TraceGrows(fx, ss, es, k, n);
    CallWasThere(fx, ss, es, k, n, t);
    CallWasThere(fx, ss, es, m, k, t);
    FactsGrow(ss[m].log, ss[k].log, t);
    FactsGrow(ss[k].log, ss[n].log, t);
    NotHandedIsQueued(ss[k], t);
  }

  lemma FactsGrow(log: seq<Entry>, log': seq<Entry>, t: Id)
    requires |log| <= |log'| && forall i :: 0 <= i < |log| ==> log'[i] == log[i]
    ensures WasHanded(log, t) ==> WasHanded(log', t)
    ensures WasSubmitted(log, t) ==> WasSubmitted(log', t)
  {
    if WasHanded(log, t) { var i :| 0 <= i < |log| && log[i].Handed? && log[i].call == t; assert log'[i] == log[i]; }
    if WasSubmitted(log, t) { var i :| 0 <= i < |log| && log[i].Submitted? && log[i].call == t; assert log'[i] == log[i]; }
  }

  lemma QueuedFacts(s: Board, v: Id, t: Id)
    requires Inv(s) && LogInv(s) && Waits(s, v, CallNode(t))
    ensures t in s.calls && t < s.next && s.calls[t].svc == v && WasSubmitted(s.log, t)
  {
    hide InvX, Distinct, Sound;
    InvQueues(s, TIGHT);
    InvNames(s);
    assert Queued(s, t);
    assert CallLogged(s, t);
    var i :| 0 <= i < |s.log| && s.log[i] == Submitted(s.calls[t].client, t, s.calls[t].data);
  }

  /** A call that is there was there, for the same service, ever since it was accepted. */
  lemma {:induction false} CallWasThere(fx: Fixes, ss: seq<Board>, es: seq<Event>, m: nat, n: nat, t: Id)
    requires Trace(fx, ss, es) && m <= n <= |es| && t < ss[m].next && t in ss[n].calls
    ensures t in ss[m].calls && SameHead(ss[m].calls[t], ss[n].calls[t])
    decreases n
  {
    hide Inv, LogInv, Step, Possible, Allowed, Own, GoodStep, OthersOnward, NamesOnward;
    if m < n {
      TraceStep(fx, ss, es, n - 1);
      TraceGrows(fx, ss, es, m, n - 1);
      CallWasThere(fx, ss, es, m, n - 1, t);
    }
  }

  lemma NotHandedIsQueued(s: Board, t: Id)
    requires Inv(s) && LogInv(s) && t in s.calls && !WasHanded(s.log, t) && WasSubmitted(s.log, t)
    ensures Waits(s, s.calls[t].svc, CallNode(t))
  {
    hide Inv, Sound, WasSubmitted;
    InOnePlaceAlways(s, t);
    assert CallLogged(s, t);
    if s.calls[t].executor.Some? { HandedToSomeone(s.log, t, s.calls[t].executor.value); }
  }

  lemma HandedForService(fx: Fixes, ss: seq<Board>, es: seq<Event>, m: nat, n: nat, j: nat, v: Id, u: Id)
    requires Trace(fx, ss, es) && m <= n < |es| && Waits(ss[m], v, CallNode(u))
    requires |ss[n].log| <= j < |ss[n + 1].log| && ss[n + 1].log[j].Handed? && ss[n + 1].log[j].call == u
    ensures ss[n + 1].log[j].svc == v
  {
    hide Inv, Step, Possible, Allowed, Own, Onward, GoodStep, Trace, CallLogged;
    TraceStarts(fx, ss, es);
    TraceGood(fx, ss, es, m);
    TraceGood(fx, ss, es, n + 1);
    QueuedFacts(ss[m], v, u);
    AcceptedIsLogged(ss[m], u);
    TraceGrows(fx, ss, es, m, n + 1);
    var log := ss[n + 1].log;
    StillIn(ss[m].log, log, AcceptEntry(ss[m].calls[u], u));
    assert Fair(log[..j], log[j]);
    var c :| Submitted(c, u, log[j].data) in log[..j] && Accepted(c, u, log[j].cd, log[j].svc, log[j].flags) in log[..j];
    OnlyOneAccepted(log, Accepted(c, u, log[j].cd, log[j].svc, log[j].flags), AcceptEntry(ss[m].calls[u], u));
  }

  /** Of two calls in a queue, the later one is handed over only after the earlier one was, or has been deleted. */
  lemma FirstCallFirst(fx: Fixes, ss: seq<Board>, es: seq<Event>, m: nat, n: nat, v: Id, t: Id, u: Id, j: nat)
    requires Trace(fx, ss, es) && m <= n < |es| && t != u && Waits(ss[m], v, CallNode(t)) && Waits(ss[m], v, CallNode(u))
    requires Ahead(ss[m].services[v].waitq, CallNode(t), CallNode(u))
    requires |ss[n].log| <= j < |ss[n + 1].log| && ss[n + 1].log[j].Handed? && ss[n + 1].log[j].call == u
    ensures t !in ss[n].calls || WasHanded(ss[n].log, t)
  {
    hide Inv, LogInv, Step, Possible, Allowed, Own, Onward, GoodStep, Trace, WasHanded, Ahead;
    TraceStarts(fx, ss, es);
    if t in ss[n].calls && !WasHanded(ss[n].log, t) {
      forall k | m <= k <= n ensures Waits(ss[k], v, CallNode(t)) { StaysQueued(fx, ss, es, m, k, n, v, t); }
      StaysAhead(fx, ss, es, m, n, v, CallNode(t), CallNode(u));
      HandedForService(fx, ss, es, m, n, j, v, u);
      HandsHead(fx, ss, es, n, j);
      NotFirst(ss[n].services[v].waitq, CallNode(t), CallNode(u));
      TraceGood(fx, ss, es, n);
      OneKind(ss[n], v, t, ss[n + 1].log[j].to);
      assert false;
    }
  }

  // ---------- workers ----------

  /** `c` waits for work and advertises `v`. */
  predicate IdleAt(s: Board, c: Id, v: Id) {
    c in s.clients && s.clients[c].conn.IdleWorker? && v in s.clients[c].adverts
  }

  lemma IdleWaits(s: Board, c: Id, v: Id)
    requires Inv(s) && IdleAt(s, c, v)
    ensures Waits(s, v, WorkerNode(c))
  {
    hide InvX, Distinct;
    InvQueues(s, TIGHT);
    InvAdverts(s);
  }

  lemma InvAdverts(s: Board)
    requires Inv(s)
    ensures AdvertsLive(s)
  {
    hide InvX;
    InvIndexed(s, TIGHT);
  }

  /** While a worker waits for `v` without interruption, no call of `v` goes to one that was not before it in the queue. */
  lemma FirstWorkerFirst(fx: Fixes, ss: seq<Board>, es: seq<Event>, m: nat, n: nat, v: Id, a: Id, b: Id, j: nat)
    requires Trace(fx, ss, es) && m <= n < |es| && a != b && (forall k :: m <= k <= n ==> IdleAt(ss[k], a, v))
    requires Waits(ss[m], v, WorkerNode(a)) && Ahead(ss[m].services[v].waitq, WorkerNode(a), WorkerNode(b))
    requires |ss[n].log| <= j < |ss[n + 1].log| && ss[n + 1].log[j].Handed? && ss[n + 1].log[j].svc == v
    ensures ss[n + 1].log[j].to != b
  {
    hide Inv, LogInv, Step, Possible, Allowed, Own, Onward, GoodStep, Trace, Ahead;
    TraceStarts(fx, ss, es);
    forall k | m <= k <= n ensures Waits(ss[k], v, WorkerNode(a)) {
      TraceGood(fx, ss, es, k);
      IdleWaits(ss[k], a, v);
    }
    StaysAhead(fx, ss, es, m, n, v, WorkerNode(a), WorkerNode(b));
    HandsHead(fx, ss, es, n, j);
    NotFirst(ss[n].services[v].waitq, WorkerNode(a), WorkerNode(b));
    TraceGood(fx, ss, es, n);
    OneKind(ss[n], v, ss[n + 1].log[j].call, a);
  }
}
