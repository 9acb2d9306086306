/** No event reorders a queue, serves anyone but the head of a queue, or wakes anyone but a parked client. */
module Fairness {
  import opened Sequences
  import opened Wire
  import opened Descriptors
  import opened Board
  import opened Invariant
  import opened Touch
  import opened Answer
  import opened Dispatch
  import opened Registry
  import opened Departure
  import opened Handlers
  import opened Steps
  import opened HistorySteps
  import opened Order

  /** Elements may have left `q`, and at most one new element stands at the end of `q'`. */
  ghost predicate Moved(q: seq<Node>, q': seq<Node>) {
    Sub(q', q) || (q' != [] && Last(q') !in q && Sub(q'[..|q'| - 1], q))
  }

  ghost predicate QueuesMoved(before: map<Id, Service>, after: map<Id, Service>) {
    forall v :: v in before && v in after ==> Moved(before[v].waitq, after[v].waitq)
  }

  ghost predicate QueuesShrunk(before: map<Id, Service>, after: map<Id, Service>) {
    after.Keys <= before.Keys && forall v :: v in after ==> Sub(after[v].waitq, before[v].waitq)
  }

  /** The log only grows, and hands nothing over. */
  ghost predicate HandsNothing(s: Board, r: Board) {
    && |s.log| <= |r.log| && (forall i :: 0 <= i < |s.log| ==> r.log[i] == s.log[i])
    && (forall i :: |s.log| <= i < |r.log| ==> !r.log[i].Handed?)
  }

  /** Only `c`'s connection may have changed. */
  ghost predicate ConnsKept(s: Board, r: Board, c: Id) {
    r.clients.Keys <= s.clients.Keys
    && forall d :: d in r.clients && d != c ==> r.clients[d].conn == s.clients[d].conn
  }

  ghost predicate Plain(s: Board, r: Board, c: Id) {
    QueuesShrunk(s.services, r.services) && HandsNothing(s, r) && ConnsKept(s, r, c)
  }

  predicate Parked(cl: Client) {
    cl.conn.IdleWorker? || cl.conn.AwaitReply?
  }

  /** A connection other than `c`'s that changed was parked and now awaits its next command. */
  ghost predicate WakesParked(s: Board, r: Board, c: Id) {
    forall d :: d in s.clients && d in r.clients && d != c ==>
      r.clients[d].conn == s.clients[d].conn || (Parked(s.clients[d]) && r.clients[d].conn == NEXT)
  }

  /** A call handed over was the head of its service's queue, or went to the worker that was. */
  ghost predicate FromHead(s: Board, e: Entry)
    requires e.Handed?
  {
    exists v :: v in s.services && s.services[v].waitq != [] && s.services[v].name == e.name
      && (s.services[v].waitq[0] == CallNode(e.call) || s.services[v].waitq[0] == WorkerNode(e.to))
  }

  ghost predicate HandsFromHead(s: Board, r: Board) {
    forall i :: |s.log| <= i < |r.log| && r.log[i].Handed? ==> FromHead(s, r.log[i])
  }

  ghost predicate LogGrows(s: Board, r: Board) {
    |s.log| <= |r.log| && forall i :: 0 <= i < |s.log| ==> r.log[i] == s.log[i]
  }

  ghost predicate Orderly(s: Board, r: Board, c: Id) {
    LogGrows(s, r) && QueuesMoved(s.services, r.services) && HandsFromHead(s, r) && WakesParked(s, r, c)
  }

  // ---------- small operations ----------

  lemma SameQueuesShrunk(services: map<Id, Service>)
    ensures QueuesShrunk(services, services)
  {
    forall v | v in services ensures Sub(services[v].waitq, services[v].waitq) { SubReflexive(services[v].waitq); }
  }

  lemma ShrunkTransitive(a: map<Id, Service>, b: map<Id, Service>, r: map<Id, Service>)
    requires QueuesShrunk(a, b) && QueuesShrunk(b, r)
    ensures QueuesShrunk(a, r)
  {
    hide Sub;
    forall v | v in r ensures Sub(r[v].waitq, a[v].waitq) { SubTransitive(r[v].waitq, b[v].waitq, a[v].waitq); }
  }

  lemma PlainTransitive(a: Board, b: Board, r: Board, c: Id)
    requires Plain(a, b, c) && Plain(b, r, c)
    ensures Plain(a, r, c)
  {
    hide QueuesShrunk;
    ShrunkTransitive(a.services, b.services, r.services);
  }

  /** Nothing but the lists and the log changes. */
  lemma PlainUpdate(s: Board, r: Board, c: Id)
    requires r.services == s.services && HandsNothing(s, r) && ConnsKept(s, r, c)
    ensures Plain(s, r, c)
  {
    hide Sub;
    SameQueuesShrunk(s.services);
  }

  lemma PlainDelCall(s: Board, t: Id, c: Id)
    requires t in s.calls
    ensures Plain(s, DelCall(s, t), c)
  {
    hide Without, Distinct, Sub;
    var r := DelCall(s, t);
    forall v | v in r.services ensures Sub(r.services[v].waitq, s.services[v].waitq) {
      WithoutSub(s.services[v].waitq, CallNode(t));
    }
  }

  lemma {:induction false} PlainDrain(s: Board, v: Id, c: Id)
    requires Drain(s, v).Ok?
    ensures Plain(s, Drain(s, v).board, c)
    decreases if v in s.services then |s.services[v].waitq| else 0
  {
    hide Plain, Without, Distinct;
    if s.services[v].waitq == [] {
      PlainReflexive(s, c);
    } else {
      var t := s.services[v].waitq[0].call;
      PlainDelCall(s, t, c);
      assert CallNode(t) in s.services[v].waitq;
      PlainDrain(DelCall(s, t), v, c);
      PlainTransitive(s, DelCall(s, t), Drain(s, v).board, c);
    }
  }

  lemma PlainReflexive(s: Board, c: Id)
    ensures Plain(s, s, c)
  {
    PlainUpdate(s, s, c);
  }

  lemma PlainDelAdvert(s: Board, d: Id, v: Id, c: Id)
    requires DelAdvert(s, d, v).Ok?
    ensures Plain(s, DelAdvert(s, d, v).board, c)
  {
    hide Without, Distinct, Sub, Drain;
    var s1 := DropAdvert(s, d, v);
    forall x | x in s1.services ensures Sub(s1.services[x].waitq, s.services[x].waitq) {
      WithoutSub(s.services[x].waitq, WorkerNode(d));
      SubReflexive(s.services[x].waitq);
    }
    assert Plain(s, s1, c);
    if !SomeoneAdvertises(s1, v) {
      hide DropAdvert;
      PlainDrain(s1, v, c);
      var s2 := Drain(s1, v).board;
      PlainTransitive(s, s1, s2, c);
      SameQueuesShrunk(s2.services);
      assert Plain(s2, RemoveService(s2, v), c);
      PlainTransitive(s, s2, RemoveService(s2, v), c);
    }
  }

  lemma {:induction false} PlainDelAdverts(s: Board, d: Id, order: seq<Id>, c: Id)
    requires DelAdverts(s, d, order).Ok?
    ensures Plain(s, DelAdverts(s, d, order).board, c)
    decreases |order|
  {
    hide Plain, DelAdvert;
    if order == [] {
      PlainReflexive(s, c);
    } else {
      PlainDelAdvert(s, d, order[0], c);
      PlainDelAdverts(DelAdvert(s, d, order[0]).board, d, order[1..], c);
      PlainTransitive(s, DelAdvert(s, d, order[0]).board, DelAdverts(s, d, order).board, c);
    }
  }

  lemma {:induction false} PlainDelRequests(s: Board, d: Id, c: Id)
    requires DelRequests(s, d).Ok?
    ensures Plain(s, DelRequests(s, d).board, c)
    decreases if d in s.clients then |s.clients[d].requests| else 0
  {
    hide Plain, Without;
    if s.clients[d].requests == [] {
      PlainReflexive(s, c);
    } else {
      var t := s.clients[d].requests[0];
      PlainDelCall(s, t, c);
      PlainDelRequests(DelCall(s, t), d, c);
      PlainTransitive(s, DelCall(s, t), DelRequests(s, d).board, c);
    }
  }

  lemma {:induction false} PlainDelReplies(s: Board, d: Id, c: Id)
    requires DelReplies(s, d).Ok?
    ensures Plain(s, DelReplies(s, d).board, c)
    decreases if d in s.clients then |s.clients[d].replies| else 0
  {
    hide Plain, Without;
    if s.clients[d].replies == [] {
      PlainReflexive(s, c);
    } else {
      var t := s.clients[d].replies[0];
      PlainDelCall(s, t, c);
      PlainDelReplies(DelCall(s, t), d, c);
      PlainTransitive(s, DelCall(s, t), DelReplies(s, d).board, c);
    }
  }

  lemma PlainOrderly(s: Board, r: Board, c: Id)
    requires Plain(s, r, c)
    ensures Orderly(s, r, c)
  {
    hide Sub;
  }

  /** Plain changes before and after an orderly one that leaves the queues alone. */
  lemma OrderlyThenPlain(a: Board, b: Board, r: Board, c: Id)
    requires HandsNothing(a, b) && QueuesShrunk(a.services, b.services) && WakesParked(a, b, c)
    requires b.clients.Keys <= a.clients.Keys && Plain(b, r, c)
    ensures Orderly(a, r, c)
  {
    hide Sub, QueuesShrunk;
    ShrunkTransitive(a.services, b.services, r.services);
    ShrunkMoved(a.services, r.services);
  }

  lemma ShrunkMoved(a: map<Id, Service>, b: map<Id, Service>)
    requires QueuesShrunk(a, b)
    ensures QueuesMoved(a, b)
  {
    hide Sub;
  }

  // ---------- handing over, queueing, parking ----------

  lemma HandShrinks(s: Board, w: Id, t: Id)
    requires w in s.clients && t in s.calls
    ensures QueuesShrunk(s.services, Hand(s, w, t).services)
  {
    hide Without, Distinct, Sub;
    var r := Hand(s, w, t);
    forall v | v in r.services ensures Sub(r.services[v].waitq, s.services[v].waitq) {
      var q := s.services[v].waitq;
      var q1 := if v in s.clients[w].adverts then Without(q, WorkerNode(w)) else q;
      WithoutSub(q, WorkerNode(w));
      SubReflexive(q);
      WithoutSub(q1, CallNode(t));
      SubTransitive(Without(q1, CallNode(t)), q1, q);
    }
  }

  lemma AppendMoved(q: seq<Node>, n: Node)
    requires n !in q
    ensures Moved(q, q + [n])
  {
    assert (q + [n])[..|q|] == q;
    SubReflexive(q);
  }

  lemma EnqueueMoves(s: Board, t: Id)
    requires t in s.calls && s.calls[t].svc in s.services && OnNoQueue(s, t)
    ensures QueuesMoved(s.services, Enqueue(s, t).services)
  {
    hide Sub;
    var r := Enqueue(s, t);
    forall v | v in s.services && v in r.services ensures Moved(s.services[v].waitq, r.services[v].waitq) {
      if v == s.calls[t].svc { AppendMoved(s.services[v].waitq, CallNode(t)); } else { SubReflexive(s.services[v].waitq); }
    }
  }

  lemma ParkMoves(s: Board, c: Id)
    requires c in s.clients && s.clients[c].conn.Running? && QueuedWorkers(s)
    ensures QueuesMoved(s.services, Park(s, c).services)
  {
    hide Sub;
    var r := Park(s, c);
    forall v | v in s.services && v in r.services ensures Moved(s.services[v].waitq, r.services[v].waitq) {
      assert WorkerNode(c) !in s.services[v].waitq;
      if v in s.clients[c].adverts { AppendMoved(s.services[v].waitq, WorkerNode(c)); } else { SubReflexive(s.services[v].waitq); }
    }
  }

  // ---------- handlers ----------

  /** Before anything is queued or served, the handler changed only lists, the log and its own connection. */
  lemma SameThenOrderly(a: Board, b: Board, r: Board, c: Id)
    requires b.services == a.services && HandsNothing(a, b) && ConnsKept(a, b, c) && b.clients.Keys == a.clients.Keys
    requires Orderly(b, r, c)
    ensures Orderly(a, r, c)
  {
    hide QueuesMoved;
    forall i | |a.log| <= i < |r.log| && r.log[i].Handed? ensures FromHead(a, r.log[i]) {
      assert |b.log| <= i;
      assert FromHead(b, r.log[i]);
    }
  }

  lemma HandOrderly(s: Board, w: Id, t: Id, c: Id)
    requires w in s.clients && t in s.calls && s.calls[t].svc in s.services && s.calls[t].svc in s.clients[w].adverts
    requires w == c || Parked(s.clients[w])
    requires var q := s.services[s.calls[t].svc].waitq; q != [] && (q[0] == CallNode(t) || q[0] == WorkerNode(w))
    ensures Orderly(s, Say(Hand(s, w, t), HandEntry(s, w, t)), c)
  {
    hide Sub, QueuesShrunk, QueuesMoved, HandServices;
    HandShrinks(s, w, t);
    ShrunkMoved(s.services, Hand(s, w, t).services);
    assert FromHead(s, HandEntry(s, w, t)) by { assert s.calls[t].svc in s.services; }
  }

  lemma SvrServiceOrderly(fx: Fixes, s: Board, c: Id, env: Env)
    requires InHandler(s, c, {}) && Walks(env.order, s.clients[c].adverts.Keys) && WorkOk(fx, s, c)
    ensures SvrService(fx, s, c, env).Ok? && Orderly(s, SvrService(fx, s, c, env).board, c)
  {
    hide Inv, InvX, Without, Distinct, CastsHold, SendToServer, Orderly;
    SvrServiceKeeps(fx, s, c, env);
    InvQueues(s, TIGHT);
    CallHeads(s, env.order);
    match FindEarliest(fx, s, env.order, None)
    case Some(v) =>
      var t := FirstCall(s, v);
      HeadReady(s, v);
      SendToServerIs(fx, s, c, t);
      HandOrderly(s, c, t, c);
    case None =>
      ParkMoves(s, c);
      ParkOrderly(s, c);
  }

  lemma ParkOrderly(s: Board, c: Id)
    requires c in s.clients && QueuesMoved(s.services, Park(s, c).services)
    ensures Orderly(s, Park(s, c), c)
  {
    hide QueuesMoved;
  }

  lemma SendToWorkerOrderly(fx: Fixes, s: Board, c: Id, t: Id)
    requires SendsOn(s, c, t)
    ensures SendToWorker(fx, s, c).Ok? && Orderly(s, SendToWorker(fx, s, c).board, c)
  {
    hide InvX, Inv, SendToWorker, OnNoQueue, Orderly, Without;
    SentOn(fx, s, c, t);
    var s2 := NextCommand(s, c).board;
    var r := SendToWorker(fx, s, c).board;
    if WorkerWaits(s2, t) {
      var w := s2.services[s2.calls[t].svc].waitq[0].client;
      NextCommandKeeps(s, c, Slack({t}, {}, {}));
      InvQueues(s2, Slack({t}, {}, {}));
      IdleHead(s2, s2.calls[t].svc);
      HandOrderly(s2, w, t, c);
    } else {
      assert OnNoQueue(s2, t) by { SameQueues(s, s2, t); }
      EnqueueOrderly(s2, t, c);
    }
    SameThenOrderly(s, s2, r, c);
  }

  lemma EnqueueOrderly(s: Board, t: Id, c: Id)
    requires t in s.calls && s.calls[t].svc in s.services && OnNoQueue(s, t)
    ensures Orderly(s, Enqueue(s, t), c)
  {
    hide OnNoQueue, QueuesMoved;
    EnqueueMoves(s, t);
  }

  lemma AnswerOrderly(s: Board, e: Entry, c: Id)
    requires !e.Handed? && NextCommand(Say(s, e), c).Ok?
    ensures Plain(s, NextCommand(Say(s, e), c).board, c)
  {
    PlainUpdate(s, NextCommand(Say(s, e), c).board, c);
  }

  lemma SvrAcallOrderly(fx: Fixes, s: Board, c: Id, name: Name, len: int, flags: int, env: Env)
    requires InHandler(s, c, {}) && GoodBatches(env.batches) && CallOk(s, name, len, env)
    ensures SvrAcall(fx, s, c, name, len, flags, env).Ok? && Orderly(s, SvrAcall(fx, s, c, name, len, flags, env).board, c)
  {
    hide InvX, Inv, DrawsWell, LiveCds, Take, OnNoQueue, SendToWorker, Orderly, Plain;
    SvrAcallKeeps(fx, s, c, name, len, flags, env);
    if name !in s.index || len < 0 {
      AnswerOrderly(s, Refused(c, TPENOENT), c);
      PlainOrderly(s, SvrAcall(fx, s, c, name, len, flags, env).board, c);
    } else {
      assert s.index[name] in s.services by { InvIndexed(s, TIGHT); }
      var t, svc := s.next, s.index[name];
      NewCallKeeps(s, c, svc, len, flags, env);
      NewCallLast(s, c, svc, len, flags, env);
      NewCallPlain(s, c, svc, len, flags, env);
      var s1 := NewCall(s, c, svc, len, flags, env).board;
      hide NewCall;
      var e := AcceptEntry(s1.calls[t], t);
      var s2 := Say(s1, e);
      var r := SvrAcall(fx, s, c, name, len, flags, env).board;
      if len > 0 {
        PlainUpdate(s, r, c);
        PlainOrderly(s, r, c);
      } else {
        var f := Submitted(c, t, []);
        var s3 := Say(s2, f);
        SayInHandler(s1, c, {t}, e);
        SayInHandler(s2, c, {t}, f);
        SayOnNoQueue(s1, e, t);
        SayOnNoQueue(s2, f, t);
        assert SendsOn(s3, c, t);
        SendToWorkerOrderly(fx, s3, c, t);
        SameThenOrderly(s, s3, r, c);
      }
    }
  }

  lemma NewCallPlain(s: Board, c: Id, svc: Id, len: nat, flags: int, env: Env)
    requires c in s.clients && NewCall(s, c, svc, len, flags, env).Ok?
    ensures var r := NewCall(s, c, svc, len, flags, env).board;
      r.services == s.services && r.log == s.log && r.clients.Keys == s.clients.Keys && ConnsKept(s, r, c)
  {
    hide Take, LiveCds;
  }

  /** Queues only shrink, nothing is handed over, and only parked clients wake. */
  ghost predicate Answers(s: Board, r: Board, c: Id) {
    QueuesShrunk(s.services, r.services) && HandsNothing(s, r) && WakesParked(s, r, c) && r.clients.Keys == s.clients.Keys
  }

  lemma SndReplyAnswers(s: Board, t: Id, c: Id)
    requires SndReply(s, t).Ok? && (s.calls[t].client == c || Parked(s.clients[s.calls[t].client]))
    ensures Answers(s, SndReply(s, t).board, c)
  {
    SndReplyFinds(s, t);
    hide Without, Distinct, Sub, SndReply, QueuesShrunk, DelCall;
    SndReplyIs(s, t);
    var s1 := Resume(Say(s, ReplyEntry(s, t)), s.calls[t].client);
    PlainDelCall(s1, t, s1.next);
    DelCallLess(s1, t);
  }

  lemma FinishAnswers(s: Board, c: Id, t: Id, seesAny: bool)
    requires Workers(s) && Waiters(s) && Lists(s) && c in s.clients && t in s.calls && s.calls[t].executor == Some(c)
    requires s.calls[t].client in s.clients && Finish(s, c, t, seesAny).Ok?
    ensures Answers(s, Finish(s, c, t, seesAny).board, c)
  {
    hide Without, Distinct, SndReply, Finish, KeepReply, Sub, QueuesShrunk, Lists;
    FinishIs(s, c, t, seesAny);
    var s1 := LetGo(s, c, t);
    var to := s.calls[t].client;
    if s1.clients[to].wait4 == For(t) || (seesAny && s1.clients[to].wait4 == AnyReply) {
      assert to == c || Parked(s1.clients[to]);
      SndReplyAnswers(s1, t, c);
    } else {
      KeepReplyAnswers(s1, t, c);
    }
  }

  lemma KeepReplyAnswers(s: Board, t: Id, c: Id)
    requires t in s.calls && s.calls[t].client in s.clients
    ensures Answers(s, KeepReply(s, t), c)
  {
    hide Without, Sub, QueuesShrunk;
    SameQueuesShrunk(s.services);
  }

  lemma AnswersOrderly(s: Board, r: Board, c: Id)
    requires Answers(s, r, c)
    ensures Orderly(s, r, c)
  {
    hide Sub;
  }

  lemma Part2Orderly(s: Board, c: Id)
    requires InHandler(s, c, {}) && s.clients[c].wait4.For?
    ensures Part2(s, c).Ok? && Orderly(s, Part2(s, c).board, c)
  {
    hide InvX, Inv, Distinct, Without, Finish, Answers, Orderly;
    Part2Keeps(s, c);
    var t := s.clients[c].wait4.call;
    NextCommandKeeps(s, c, TIGHT);
    var s1 := NextCommand(s, c).board;
    InvWaiter(s1, c, TIGHT);
    ExecutedIsPending(s1, t, TIGHT);
    InvWorking(s1, TIGHT);
    FinishAnswers(s1, c, t, true);
    AnswersOrderly(s1, Part2(s, c).board, c);
    SameThenOrderly(s, s1, Part2(s, c).board, c);
  }

  lemma InvWorking(s: Board, k: Slack)
    requires InvX(s, k)
    ensures Workers(s) && Waiters(s) && Lists(s)
  {
    hide Tables, Lists, Queues, Workers, Waiters, Buffers, Phases, Cds;
  }

  lemma SvrReturnOrderly(s: Board, c: Id, rval: byte, rcode: int, len: int)
    requires InHandler(s, c, {}) && ReturnOk(s, c, len)
    ensures SvrReturn(s, c, rval, rcode, len).Ok? && Orderly(s, SvrReturn(s, c, rval, rcode, len).board, c)
  {
    hide InvX, Inv, NobodyReads, Part2, Orderly;
    SvrReturnKeeps(s, c, rval, rcode, len);
    var t := s.clients[c].wait4.call;
    InvWaiter(s, c, TIGHT);
    NobodyElseReads(s, c, t);
    var k' := s.calls[t].(rval := rval, rcode := rcode, data := Resize(s.calls[t].data, len));
    var s1 := PutCall(s, t, k');
    RewriteKeeps(s, t, k', TIGHT);
    var r := SvrReturn(s, c, rval, rcode, len).board;
    if len > 0 {
      PlainUpdate(s, r, c);
      PlainOrderly(s, r, c);
    } else {
      var e := Returned(c, t, rval, rcode, []);
      SayInHandler(s1, c, {}, e);
      Part2Orderly(Say(s1, e), c);
      SameThenOrderly(s, Say(s1, e), r, c);
    }
  }

  lemma SvrGetReplyOrderly(s: Board, c: Id, cd: Short, flags: int)
    requires InHandler(s, c, {}) && GetReplyOk(s, c, cd, flags)
    ensures SvrGetReply(s, c, cd, flags).Ok? && Orderly(s, SvrGetReply(s, c, cd, flags).board, c)
  {
    hide InvX, Inv, SndReply, FlagSet, Without, Orderly, Plain, Answers;
    SvrGetReplyKeeps(s, c, cd, flags);
    InvOwned(s, TIGHT);
    var cl, r := s.clients[c], SvrGetReply(s, c, cd, flags).board;
    match ReplyReady(s.calls, cl.replies, cd, flags)
    case Some(t) =>
      assert t in cl.replies;
      SndReplyAnswers(s, t, c);
      AnswersOrderly(s, r, c);
    case None =>
      var target := WaitTarget(s.calls, cl.requests, cd, flags);
      if target == Nothing {
        AnswerOrderly(s, NoReply(c, TPEBADDESC), c);
      } else if FlagSet(flags, TPNOBLOCK) {
        AnswerOrderly(s, NoReply(c, TPEBLOCK), c);
      } else {
        PlainUpdate(s, r, c);
      }
      PlainOrderly(s, r, c);
  }

  lemma SvrAdvertiseOrderly(s: Board, c: Id, name: Name, o: int)
    requires InHandler(s, c, {})
    ensures SvrAdvertise(s, c, name, o).Ok? && Orderly(s, SvrAdvertise(s, c, name, o).board, c)
  {
    hide InvX, Inv, Sub;
    SvrAdvertiseKeeps(s, c, name, o);
    InvIndexed(s, TIGHT);
    var r := SvrAdvertise(s, c, name, o).board;
    forall v | v in s.services && v in r.services ensures Moved(s.services[v].waitq, r.services[v].waitq) {
      assert r.services[v] == s.services[v];
      SubReflexive(s.services[v].waitq);
    }
  }

  lemma SvrUnadvertiseOrderly(s: Board, c: Id, name: Name)
    requires InHandler(s, c, {}) && UnadvertiseOk(s, c, name)
    ensures SvrUnadvertise(s, c, name).Ok? && Orderly(s, SvrUnadvertise(s, c, name).board, c)
  {
    hide InvX, Inv, DelAdvert, Orderly, Plain;
    SvrUnadvertiseKeeps(s, c, name);
    var r := SvrUnadvertise(s, c, name).board;
    if name !in s.index || !Advertises(s, c, s.index[name]) {
      AnswerOrderly(s, Status(c, TPENOENT), c);
    } else {
      PlainDelAdvert(s, c, s.index[name], c);
      var s1 := DelAdvert(s, c, s.index[name]).board;
      AnswerOrderly(s1, Status(c, 0), c);
      PlainTransitive(s, s1, r, c);
    }
    PlainOrderly(s, r, c);
  }

  lemma AbandonAnswers(fx: Fixes, s: Board, c: Id)
    requires InvX(s, TIGHT) && c in s.clients && AbandonWork(fx, s, c).Ok?
    ensures Answers(s, AbandonWork(fx, s, c).board, c)
  {
    hide InvX, Finish, Sub, QueuesShrunk;
    SameQueuesShrunk(s.services);
    match s.clients[c].wait4
    case For(t) =>
      if s.calls[t].executor == Some(c) {
        ExecutedIsPending(s, t, TIGHT);
        var s1 := Failed(s, c, t);
        assert InvX(s1, TIGHT) by { RewriteKeeps(s, t, s1.calls[t], TIGHT); SayKeeps(PutCall(s, t, s1.calls[t]), Abandoned(c, t), TIGHT); }
        InvWorking(s1, TIGHT);
        hide Workers, Waiters, Lists;
        FinishAnswers(s1, c, t, fx.wakeAny);
      }
    case _ =>
  }

  lemma DelClientOrderly(fx: Fixes, s: Board, c: Id, order: seq<Id>)
    requires InvX(s, TIGHT) && DelClient(fx, s, c, order).Ok?
    ensures Orderly(s, DelClient(fx, s, c, order).board, c)
  {
    hide InvX, AbandonWork, DelAdverts, DelRequests, DelReplies, Plain, Orderly, QueuesShrunk;
    AbandonAnswers(fx, s, c);
    var s1 := AbandonWork(fx, s, c).board;
    var s2 := DelAdverts(s1, c, order).board;
    var s3 := DelRequests(s2, c).board;
    var s4 := DelReplies(s3, c).board;
    PlainDelAdverts(s1, c, order, c);
    PlainDelRequests(s2, c, c);
    PlainDelReplies(s3, c, c);
    PlainTransitive(s1, s2, s3, c);
    PlainTransitive(s1, s3, s4, c);
    PlainUpdate(s4, RemoveClient(s4, c), c);
    PlainTransitive(s1, s4, RemoveClient(s4, c), c);
    OrderlyThenPlain(s, s1, RemoveClient(s4, c), c);
  }

  // ---------- every event ----------

  lemma RunHandlerOrderly(fx: Fixes, s: Board, c: Id, h: Handler, b: seq<byte>, env: Env)
    requires InHandler(s, c, {}) && Walks(env.order, s.clients[c].adverts.Keys) && GoodBatches(env.batches)
    requires !h.CallBody? && !h.ReturnBody? && |b| == CommandLength(h) && HandlerOk(fx, s, c, h, b, env)
    ensures RunHandler(fx, s, c, h, b, env).Ok? && Orderly(s, RunHandler(fx, s, c, h, b, env).board, c)
  {
    hide InvX, Orderly, Walks, GoodBatches, SvrService, DelClient, SvrAcall, SvrGetReply, SvrAdvertise, SvrUnadvertise, SvrReturn;
    hide WorkOk, CallOk, GetReplyOk, UnadvertiseOk, ReturnOk, CutName, ToLong, ToShort;
    match h
    case Command =>
      if b[0] == TPTWORK {
        SvrServiceOrderly(fx, s, c, env);
      } else {
        match CommandHandler(b[0])
        case Some(g) =>
          var conn := Receiving(g, Scratch([b[0]] + ZeroBytes(CommandLength(g) - 1)), 0);
          assert RunHandler(fx, s, c, h, b, env) == Ok(PutClient(s, c, s.clients[c].(conn := conn)));
          PlainUpdate(s, RunHandler(fx, s, c, h, b, env).board, c);
          PlainOrderly(s, RunHandler(fx, s, c, h, b, env).board, c);
        case None =>
          DelClientKeeps(fx, s, c, env.order);
          DelClientOrderly(fx, s, c, env.order);
      }
    case Acall => SvrAcallOrderly(fx, s, c, CutName(b), ToLong(b, NAME_LENGTH), ToLong(b, NAME_LENGTH + IOLONG), env);
    case GetReply => SvrGetReplyOrderly(s, c, AsShort(ToShort(b, 0)), ToLong(b, IOSHORT));
    case Advertise => SvrAdvertiseOrderly(s, c, CutName(b), ToLong(b, NAME_LENGTH));
    case Unadvertise => SvrUnadvertiseOrderly(s, c, CutName(b));
    case Return => SvrReturnOrderly(s, c, b[0], ToLong(b, 1), ToLong(b, 1 + IOLONG));
  }

  lemma ReadScratchOrderly(fx: Fixes, s: Board, c: Id, chunk: seq<byte>, env: Env)
    requires Inv(s) && Possible(s, Read(c, chunk, env)) && Allowed(fx, s, Read(c, chunk, env))
    requires s.clients[c].conn.Receiving? && s.clients[c].conn.input.Scratch?
    ensures ReadScratch(fx, s, c, chunk, env).Ok? && Orderly(s, ReadScratch(fx, s, c, chunk, env).board, c)
  {
    hide InvX, Walks, GoodBatches, HandlerOk, RunHandler, Orderly;
    ReadScratchKeeps(fx, s, c, chunk, env);
    var Receiving(h, input, used) := s.clients[c].conn;
    var b := Splice(input.bytes, used, chunk);
    var r := ReadScratch(fx, s, c, chunk, env).board;
    if used + |chunk| < |b| {
      PlainUpdate(s, r, c);
      PlainOrderly(s, r, c);
    } else {
      UnarmScratch(s, c);
      UnarmJudges(fx, s, c, h, b, env);
      RunHandlerOrderly(fx, Unarm(s, c), c, h, b, env);
      SameThenOrderly(s, Unarm(s, c), r, c);
    }
  }

  lemma ReadDataOrderly(fx: Fixes, s: Board, c: Id, chunk: seq<byte>, env: Env)
    requires Inv(s) && Possible(s, Read(c, chunk, env)) && Allowed(fx, s, Read(c, chunk, env))
    requires s.clients[c].conn.Receiving? && s.clients[c].conn.input.DataOf?
    ensures ReadData(fx, s, c, chunk).Ok? && Orderly(s, ReadData(fx, s, c, chunk).board, c)
  {
    hide InvX, Walks, GoodBatches, SendToWorker, Part2, OnNoQueue, Orderly;
    ReadDataKeeps(fx, s, c, chunk, env);
    var Receiving(h, input, used) := s.clients[c].conn;
    var t := input.call;
    InvFits(s, c);
    var b := Splice(s.calls[t].data, used, chunk);
    RewriteDataKeeps(s, t, b);
    var s1, r := PutCall(s, t, s.calls[t].(data := b)), ReadData(fx, s, c, chunk).board;
    if used + |chunk| < |b| {
      PlainUpdate(s, r, c);
      PlainOrderly(s, r, c);
    } else if h.CallBody? {
      BodyOrderly(fx, s1, c, t, b);
      SameThenOrderly(s, Say(Unarm(s1, c), Submitted(c, t, b)), r, c);
    } else {
      UnarmReturn(s1, c);
      var e := Returned(c, t, s.calls[t].rval, s.calls[t].rcode, b);
      SayInHandler(Unarm(s1, c), c, {}, e);
      Part2Orderly(Say(Unarm(s1, c), e), c);
      SameThenOrderly(s, Say(Unarm(s1, c), e), r, c);
    }
  }

  lemma BodyOrderly(fx: Fixes, s1: Board, c: Id, t: Id, b: seq<byte>)
    requires Inv(s1) && c in s1.clients && ReadsBody(s1.clients[c].conn, t) && t in s1.calls && s1.calls[t].svc in s1.services
    ensures var s2 := Say(Unarm(s1, c), Submitted(c, t, b));
      SendToWorker(fx, s2, c).Ok? && Orderly(s2, SendToWorker(fx, s2, c).board, c)
  {
    hide InvX, SendToWorker, OnNoQueue, Orderly;
    UnarmBody(s1, c, t);
    ArrivingOnNoQueue(s1, c, t);
    var s2 := Say(Unarm(s1, c), Submitted(c, t, b));
    SayInHandler(Unarm(s1, c), c, {t}, Submitted(c, t, b));
    SayOnNoQueue(Unarm(s1, c), Submitted(c, t, b), t);
    assert SendsOn(s2, c, t);
    SendToWorkerOrderly(fx, s2, c, t);
  }

  /**
   In one turn for client `c`: calls and workers leave a queue in the order in which they joined it, a call
   handed over involves the head of its queue, every other connection that is armed was parked, and `c`
   itself ends up armed, parked or gone.
   */
  lemma TurnIsOrderly(fx: Fixes, s: Board, e: Event)
    requires Inv(s) && Possible(s, e) && Allowed(fx, s, e) && !e.Arrive?
    ensures Step(fx, s, e).Ok? && Orderly(s, Step(fx, s, e).board, e.c)
    ensures e.c in Step(fx, s, e).board.clients ==>
      var cl := Step(fx, s, e).board.clients[e.c]; cl.conn.Receiving? || Parked(cl)
  {
    hide InvX, DelClient, Walks, GoodBatches, ReadScratch, ReadData, DataReadOk, HandlerOk, Orderly;
    StepKeeps(fx, s, e);
    match e
    case Leave(c, order) => DelClientOrderly(fx, s, c, order);
    case Read(c, chunk, env) =>
      if !s.clients[c].conn.Receiving? {
        DelClientOrderly(fx, s, c, env.order);
      } else if s.clients[c].conn.input.Scratch? {
        ReadScratchOrderly(fx, s, c, chunk, env);
      } else {
        ReadDataOrderly(fx, s, c, chunk, env);
      }
  }
}
