/** What each connection has asked for and what has been written to it: every answer is of the kind asked for, in order. */
module Ledger {
  import opened Sequences
  import opened Wire
  import opened Descriptors
  import opened Board
  import opened Invariant
  import opened Answer
  import opened Departure
  import opened Handlers
  import opened Steps
  import opened Calmness
  import opened History
  import opened Framing
  import opened Turning
  import opened Stream
  import opened Traces
  import opened Messages
  import opened Conservation

  /** What the client library reads after a request. */
  datatype Kind = AnAck | AReply | SomeWork | AStatus

  // ---------- what was written ----------

  /** The entry is written to the connection of `d`. */
  predicate To(e: Entry, d: Id) {
    match e
    case Accepted(to, _, _, _, _) => to == d
    case Refused(to, _) => to == d
    case Handed(to, _, _, _, _, _, _, _) => to == d
    case Replied(to, _, _, _, _, _) => to == d
    case NoReply(to, _) => to == d
    case Status(to, _) => to == d
    case _ => false
  }

  function KindOf(e: Entry): Kind {
    match e
    case Accepted(_, _, _, _, _) => AnAck
    case Refused(_, _) => AnAck
    case Handed(_, _, _, _, _, _, _, _) => SomeWork
    case Replied(_, _, _, _, _, _) => AReply
    case NoReply(_, _) => AReply
    case _ => AStatus
  }

  /** The entries of the log that were written to `d`. */
  function Outbox(log: seq<Entry>, d: Id): seq<Entry> {
    if log == [] then [] else Outbox(log[..|log| - 1], d) + if To(Last(log), d) then [Last(log)] else []
  }

  function Kinds(q: seq<Entry>): (ks: seq<Kind>)
    ensures |ks| == |q|
  {
    if q == [] then [] else Kinds(q[..|q| - 1]) + [KindOf(Last(q))]
  }

  /** The kinds of what was written to `d`. */
  function Paid(s: Board, d: Id): seq<Kind> {
    Kinds(Outbox(s.log, d))
  }

  lemma OutboxSnoc(log: seq<Entry>, e: Entry, d: Id)
    ensures Outbox(log + [e], d) == Outbox(log, d) + if To(e, d) then [e] else []
  {
    assert (log + [e])[..|log|] == log;
  }

  lemma KindsSnoc(q: seq<Entry>, e: Entry)
    ensures Kinds(q + [e]) == Kinds(q) + [KindOf(e)]
  {
    assert (q + [e])[..|q|] == q;
  }

  lemma SayPaid(s: Board, e: Entry, d: Id)
    ensures Paid(Say(s, e), d) == Paid(s, d) + if To(e, d) then [KindOf(e)] else []
  {
    hide Outbox, Kinds;
    OutboxSnoc(s.log, e, d);
    var q := Outbox(s.log, d);
    if To(e, d) { KindsSnoc(q, e); } else { assert q + [] == q; }
  }

  // ---------- what is owed ----------

  /** What `d` is still to be sent; a handler on the stack owes `k` to its client `c`. */
  function Owed(s: Board, d: Id, c: Id, k: seq<Kind>): seq<Kind>
    requires d in s.clients
  {
    match s.clients[d].conn
    case Receiving(_, _, _) => []
    case Running => if d == c then k else []
    case IdleWorker => [SomeWork]
    case AwaitReply => [AReply]
  }

  function Account(s: Board, d: Id, c: Id, k: seq<Kind>): seq<Kind> {
    Paid(s, d) + if d in s.clients then Owed(s, d, c, k) else []
  }

  /** What was paid and what is owed stay the same together, for every client that stays; nothing is paid to others. */
  ghost predicate Balanced(s: Board, k: seq<Kind>, r: Board, k': seq<Kind>, c: Id) {
    && r.clients.Keys <= s.clients.Keys
    && forall d :: if d in s.clients && d !in r.clients then Paid(r, d) <= Account(s, d, c, k)
                   else Account(r, d, c, k') == Account(s, d, c, k)
  }

  ghost predicate Settles(s: Board, k: seq<Kind>, o: Outcome, c: Id) {
    o.Ok? ==> Balanced(s, k, o.board, [], c)
  }

  lemma BalancedTransitive(a: Board, k: seq<Kind>, b: Board, k1: seq<Kind>, r: Board, k2: seq<Kind>, c: Id)
    requires Balanced(a, k, b, k1, c) && Balanced(b, k1, r, k2, c)
    ensures Balanced(a, k, r, k2, c)
  {
    hide Paid, Owed;
    forall d ensures if d in a.clients && d !in r.clients then Paid(r, d) <= Account(a, d, c, k)
                     else Account(r, d, c, k2) == Account(a, d, c, k)
    {
      if d in a.clients && d !in b.clients {
        assert Account(b, d, c, k1) == Paid(b, d) && Account(r, d, c, k2) == Paid(r, d);
      }
    }
  }

  lemma BalancedThen(a: Board, k: seq<Kind>, b: Board, k1: seq<Kind>, o: Outcome, c: Id)
    requires Balanced(a, k, b, k1, c) && Settles(b, k1, o, c)
    ensures Settles(a, k, o, c)
  {
    hide Balanced;
    if o.Ok? { BalancedTransitive(a, k, b, k1, o.board, [], c); }
  }

  // ---------- small updates ----------

  /** Nothing is written and no connection changes, though clients may go. */
  ghost predicate Silent(s: Board, r: Board) {
    r.log == s.log && r.clients.Keys <= s.clients.Keys && forall d :: d in r.clients ==> r.clients[d].conn == s.clients[d].conn
  }

  lemma SilentBalanced(s: Board, r: Board, c: Id, k: seq<Kind>)
    requires Silent(s, r)
    ensures Balanced(s, k, r, k, c)
  {
    hide Outbox, Kinds;
  }

  /** An entry that is written to nobody. */
  lemma NoteBalanced(s: Board, e: Entry, c: Id, k: seq<Kind>)
    requires forall d :: !To(e, d)
    ensures Balanced(s, k, Say(s, e), k, c)
  {
    hide Paid;
    forall d ensures Account(Say(s, e), d, c, k) == Account(s, d, c, k) { SayPaid(s, e, d); }
  }

  /** The handler of `c` writes what it owes. */
  lemma AnswerBalanced(s: Board, e: Entry, c: Id)
    requires c in s.clients && s.clients[c].conn.Running? && To(e, c)
    ensures Balanced(s, [KindOf(e)], Say(s, e), [], c)
  {
    hide Paid;
    forall d ensures Account(Say(s, e), d, c, []) == Account(s, d, c, [KindOf(e)]) {
      SayPaid(s, e, d);
      if d != c { NotToOthers(e, c, d); }
    }
  }

  lemma NotToOthers(e: Entry, c: Id, d: Id)
    requires To(e, c) && c != d
    ensures !To(e, d)
  {
  }

  /** The handler of `c` leaves the connection in a state in which what it owes is still owed. */
  lemma ConnBalanced(s: Board, c: Id, cl: Client, k: seq<Kind>)
    requires c in s.clients && s.clients[c].conn.Running?
    requires match cl.conn case Receiving(_, _, _) => k == [] case Running => false case IdleWorker => k == [SomeWork] case AwaitReply => k == [AReply]
    ensures Balanced(s, k, PutClient(s, c, cl), [], c)
  {
    hide Outbox, Kinds;
  }

  lemma ArmBalanced(s: Board, c: Id, h: Handler, input: Buffer)
    requires c in s.clients && s.clients[c].conn.Running?
    ensures Settles(s, [], Arm(s, c, h, input), c)
  {
    hide Balanced;
    ConnBalanced(s, c, s.clients[c].(conn := Receiving(h, input, 0)), []);
  }

  /** A handler answers its client and arms it. */
  lemma SayArmed(s: Board, e: Entry, c: Id)
    requires c in s.clients && s.clients[c].conn.Running? && To(e, c)
    ensures Settles(s, [KindOf(e)], NextCommand(Say(s, e), c), c)
  {
    hide Balanced;
    AnswerBalanced(s, e, c);
    ArmBalanced(Say(s, e), c, Command, Scratch(ZeroBytes(1)));
    BalancedThen(s, [KindOf(e)], Say(s, e), [], NextCommand(Say(s, e), c), c);
  }

  /** A parked client gets what it waits for. */
  predicate Parked(s: Board, w: Id, kind: Kind) {
    w in s.clients && match s.clients[w].conn case IdleWorker => kind == SomeWork case AwaitReply => kind == AReply case _ => false
  }

  lemma WakeBalanced(s: Board, e: Entry, w: Id, cl: Client, c: Id, k: seq<Kind>)
    requires Parked(s, w, KindOf(e)) && To(e, w) && cl.conn.Receiving?
    ensures Balanced(s, k, PutClient(Say(s, e), w, cl), k, c)
  {
    hide Paid;
    var r := PutClient(Say(s, e), w, cl);
    forall d ensures Account(r, d, c, k) == Account(s, d, c, k) {
      SayPaid(s, e, d);
      SamePaid(Say(s, e), r, d);
      if d != w { NotToOthers(e, w, d); }
    }
  }

  lemma SamePaid(s: Board, r: Board, d: Id)
    requires r.log == s.log
    ensures Paid(r, d) == Paid(s, d)
  {
  }

  /** The answer to a parked client, or to the client whose handler owes it. */
  predicate Due(s: Board, w: Id, kind: Kind, c: Id, k: seq<Kind>) {
    Parked(s, w, kind) || (w == c && c in s.clients && s.clients[c].conn.Running? && k == [kind])
  }

  function Left(s: Board, w: Id, kind: Kind, k: seq<Kind>): seq<Kind> {
    if Parked(s, w, kind) then k else []
  }

  lemma DueBalanced(s: Board, e: Entry, w: Id, cl: Client, c: Id, k: seq<Kind>)
    requires Due(s, w, KindOf(e), c, k) && To(e, w) && cl.conn.Receiving?
    ensures Balanced(s, k, PutClient(Say(s, e), w, cl), Left(s, w, KindOf(e), k), c)
  {
    hide Balanced, KindOf, To;
    if Parked(s, w, KindOf(e)) {
      WakeBalanced(s, e, w, cl, c, k);
    } else {
      AnswerBalanced(s, e, c);
      ConnBalanced(Say(s, e), c, cl, []);
      BalancedTransitive(s, k, Say(s, e), [], PutClient(Say(s, e), c, cl), [], c);
    }
  }

  // ---------- deletions ----------

  lemma DelCallSilent(s: Board, t: Id)
    requires t in s.calls
    ensures Silent(s, DelCall(s, t)) && DelCall(s, t).clients.Keys == s.clients.Keys
  {
    hide Without;
  }

  lemma {:induction false} DrainSilent(s: Board, v: Id)
    requires Drain(s, v).Ok?
    ensures Silent(s, Drain(s, v).board)
    decreases if v in s.services then |s.services[v].waitq| else 0
  {
    hide DelCall, Without;
    if s.services[v].waitq != [] {
      var t := s.services[v].waitq[0].call;
      DelCallSilent(s, t);
      QueueShrinks(s, t, v);
      DrainSilent(DelCall(s, t), v);
    }
  }

  lemma DelAdvertSilent(s: Board, c: Id, v: Id)
    requires DelAdvert(s, c, v).Ok?
    ensures Silent(s, DelAdvert(s, c, v).board)
  {
    hide Drain, Without;
    var s1 := DropAdvert(s, c, v);
    if !SomeoneAdvertises(s1, v) { DrainSilent(s1, v); }
  }

  lemma {:induction false} DelAdvertsSilent(s: Board, c: Id, order: seq<Id>)
    requires DelAdverts(s, c, order).Ok?
    ensures Silent(s, DelAdverts(s, c, order).board)
    decreases |order|
  {
    hide DelAdvert;
    if order != [] {
      DelAdvertSilent(s, c, order[0]);
      DelAdvertsSilent(DelAdvert(s, c, order[0]).board, c, order[1..]);
    }
  }

  lemma {:induction false} DelRequestsSilent(s: Board, c: Id)
    requires DelRequests(s, c).Ok?
    ensures Silent(s, DelRequests(s, c).board)
    decreases if c in s.clients then |s.clients[c].requests| else 0
  {
    hide DelCall;
    if s.clients[c].requests != [] {
      var t := s.clients[c].requests[0];
      DelCallSilent(s, t);
      DelCallLists(s, c, t);
      DelRequestsSilent(DelCall(s, t), c);
    }
  }

  lemma {:induction false} DelRepliesSilent(s: Board, c: Id)
    requires DelReplies(s, c).Ok?
    ensures Silent(s, DelReplies(s, c).board)
    decreases if c in s.clients then |s.clients[c].replies| else 0
  {
    hide DelCall;
    if s.clients[c].replies != [] {
      var t := s.clients[c].replies[0];
      DelCallSilent(s, t);
      DelCallLists(s, c, t);
      DelRepliesSilent(DelCall(s, t), c);
    }
  }

  // ---------- replies ----------

  lemma SndReplyBalanced(s: Board, t: Id, c: Id, k: seq<Kind>)
    requires t in s.calls && Due(s, s.calls[t].client, AReply, c, k)
    ensures SndReply(s, t).Ok? ==> Balanced(s, k, SndReply(s, t).board, Left(s, s.calls[t].client, AReply, k), c)
  {
    hide Balanced, DelCall;
    if SndReply(s, t).Ok? {
      var w, e := s.calls[t].client, ReplyEntry(s, t);
      var k' := Left(s, w, AReply, k);
      var s1 := NextCommand(Say(s, e), w).board;
      var cl := s1.clients[w].(wait4 := Nothing);
      var s2 := PutClient(s1, w, cl);
      DueBalanced(s, e, w, cl, c, k);
      assert s2 == PutClient(Say(s, e), w, cl);
      DelCallSilent(s2, t);
      SilentBalanced(s2, DelCall(s2, t), c, k');
      BalancedTransitive(s, k, s2, k', DelCall(s2, t), k', c);
    }
  }

  /** Whoever is not the worker `c` itself and waits for `t`, or for any reply, is parked. */
  predicate WaitsParked(s: Board, c: Id, t: Id) {
    t in s.calls && s.calls[t].client in s.clients && s.calls[t].client != c
    && (s.clients[s.calls[t].client].wait4 == For(t) || s.clients[s.calls[t].client].wait4 == AnyReply) ==>
      s.clients[s.calls[t].client].conn.AwaitReply?
  }

  lemma FinishBalanced(s: Board, c: Id, t: Id, seesAny: bool, k: seq<Kind>)
    requires WaitsParked(s, c, t)
    ensures Finish(s, c, t, seesAny).Ok? ==> Balanced(s, k, Finish(s, c, t, seesAny).board, k, c)
  {
    hide Balanced, SndReply, KeepReply;
    if Finish(s, c, t, seesAny).Ok? {
      var s1 := PutCall(PutClient(s, c, s.clients[c].(wait4 := Nothing)), t, s.calls[t].(executor := None));
      var to := s.calls[t].client;
      assert Silent(s, s1);
      SilentBalanced(s, s1, c, k);
      var r := Finish(s, c, t, seesAny).board;
      if s1.clients[to].wait4 == For(t) || (seesAny && s1.clients[to].wait4 == AnyReply) {
        SndReplyBalanced(s1, t, c, k);
      } else {
        KeepReplySilent(s1, t);
        SilentBalanced(s1, r, c, k);
      }
      BalancedTransitive(s, k, s1, k, r, k, c);
    }
  }

  lemma KeepReplySilent(s: Board, t: Id)
    requires t in s.calls && s.calls[t].client in s.clients
    ensures Silent(s, KeepReply(s, t))
  {
    hide Without;
  }

  lemma Part2Balanced(s: Board, c: Id)
    requires c in s.clients && s.clients[c].conn.Running? && (s.clients[c].wait4.For? ==> WaitsParked(s, c, s.clients[c].wait4.call))
    ensures Settles(s, [], Part2(s, c), c)
  {
    hide Balanced, Finish;
    if Part2(s, c).Ok? {
      var s1 := NextCommand(s, c).board;
      ArmBalanced(s, c, Command, Scratch(ZeroBytes(1)));
      FinishBalanced(s1, c, s1.clients[c].wait4.call, true, []);
      BalancedThen(s, [], s1, [], Part2(s, c), c);
    }
  }

  lemma SvrReturnBalanced(s: Board, c: Id, rval: byte, rcode: int, len: int)
    requires c in s.clients && s.clients[c].conn.Running? && (s.clients[c].wait4.For? ==> WaitsParked(s, c, s.clients[c].wait4.call))
    ensures Settles(s, [], SvrReturn(s, c, rval, rcode, len), c)
  {
    hide Balanced, Part2;
    if SvrReturn(s, c, rval, rcode, len).Ok? {
      var t := s.clients[c].wait4.call;
      var s1 := PutCall(s, t, s.calls[t].(rval := rval, rcode := rcode, data := Resize(s.calls[t].data, len)));
      assert Silent(s, s1);
      SilentBalanced(s, s1, c, []);
      if len > 0 {
        ArmBalanced(s1, c, ReturnBody, DataOf(t));
        BalancedThen(s, [], s1, [], Arm(s1, c, ReturnBody, DataOf(t)), c);
      } else {
        NotedPart2(s1, Returned(c, t, rval, rcode, []), c);
        BalancedThen(s, [], s1, [], Part2(Say(s1, Returned(c, t, rval, rcode, [])), c), c);
      }
    }
  }

  lemma NotedPart2(s: Board, e: Entry, c: Id)
    requires c in s.clients && s.clients[c].conn.Running? && (s.clients[c].wait4.For? ==> WaitsParked(s, c, s.clients[c].wait4.call))
    requires e.Returned?
    ensures Settles(s, [], Part2(Say(s, e), c), c)
  {
    hide Balanced, Part2;
    NoteBalanced(s, e, c, []);
    Part2Balanced(Say(s, e), c);
    BalancedThen(s, [], Say(s, e), [], Part2(Say(s, e), c), c);
  }

  lemma SvrGetReplyBalanced(s: Board, c: Id, cd: Short, flags: int)
    requires c in s.clients && s.clients[c].conn.Running?
    requires forall t :: t in s.clients[c].replies && t in s.calls ==> s.calls[t].client == c
    ensures Settles(s, [AReply], SvrGetReply(s, c, cd, flags), c)
  {
    hide Balanced, SndReply, FlagSet, NextCommand;
    var cl := s.clients[c];
    if SvrGetReply(s, c, cd, flags).Ok? {
      match ReplyReady(s.calls, cl.replies, cd, flags)
      case Some(t) =>
        assert t in cl.replies && t in s.calls by { ReplyIsThere(s, c, cd, flags); }
        SndReplyBalanced(s, t, c, [AReply]);
      case None =>
        SayArmed(s, NoReply(c, TPEBADDESC), c);
        SayArmed(s, NoReply(c, TPEBLOCK), c);
        ConnBalanced(s, c, cl.(conn := AwaitReply, wait4 := WaitTarget(s.calls, cl.requests, cd, flags)), [AReply]);
    }
  }

  lemma ReplyIsThere(s: Board, c: Id, cd: Short, flags: int)
    requires c in s.clients && SvrGetReply(s, c, cd, flags).Ok? && ReplyReady(s.calls, s.clients[c].replies, cd, flags).Some?
    ensures var t := ReplyReady(s.calls, s.clients[c].replies, cd, flags).value; t in s.clients[c].replies && t in s.calls
  {
    hide NextCommand, DelCall;
  }

  // ---------- dispatch ----------

  lemma SendToServerBalanced(fx: Fixes, s: Board, w: Id, t: Id, c: Id, k: seq<Kind>)
    requires Due(s, w, SomeWork, c, k)
    ensures SendToServer(fx, s, w, t).Ok? ==> Balanced(s, k, SendToServer(fx, s, w, t).board, Left(s, w, SomeWork, k), c)
  {
    hide Balanced, WorkerLeaves, Unlinked;
    if SendToServer(fx, s, w, t).Ok? {
      var cl, q := s.clients[w], s.calls[t];
      var e := Handed(w, t, q.svc, cl.adverts[q.svc], s.services[q.svc].name, q.flags, q.cd, q.data);
      var r := SendToServer(fx, s, w, t).board;
      var m := PutClient(Say(s, e), w, r.clients[w]);
      var k' := Left(s, w, SomeWork, k);
      DueBalanced(s, e, w, r.clients[w], c, k);
      assert Silent(m, r);
      SilentBalanced(m, r, c, k');
      BalancedTransitive(s, k, m, k', r, k', c);
    }
  }

  lemma SvrServiceBalanced(fx: Fixes, s: Board, c: Id, env: Env)
    requires c in s.clients && s.clients[c].conn.Running?
    ensures Settles(s, [SomeWork], SvrService(fx, s, c, env), c)
  {
    hide Balanced, SendToServer, FindEarliest, CastsHold, WorkerJoins;
    if SvrService(fx, s, c, env).Ok? {
      match FindEarliest(fx, s, env.order, None)
      case Some(v) => SendToServerBalanced(fx, s, c, FirstCall(s, v), c, [SomeWork]);
      case None =>
        var m := PutClient(s, c, s.clients[c].(conn := IdleWorker));
        ConnBalanced(s, c, s.clients[c].(conn := IdleWorker), [SomeWork]);
        assert Silent(m, Park(s, c));
        SilentBalanced(m, Park(s, c), c, []);
        BalancedTransitive(s, [SomeWork], m, [], Park(s, c), [], c);
    }
  }

  ghost predicate HeadsIdle(s: Board) {
    forall v, w :: v in s.services && WorkerNode(w) in s.services[v].waitq ==> w in s.clients && s.clients[w].conn.IdleWorker?
  }

  lemma SendToWorkerBalanced(fx: Fixes, s: Board, c: Id)
    requires HeadsIdle(s) && c in s.clients && s.clients[c].conn.Running?
    ensures Settles(s, [], SendToWorker(fx, s, c), c)
  {
    hide Balanced, SendToServer, Enqueue;
    if SendToWorker(fx, s, c).Ok? {
      var s1 := NextCommand(s, c).board;
      ArmBalanced(s, c, Command, Scratch(ZeroBytes(1)));
      var t := Last(s1.clients[c].requests);
      var svc := s1.services[s1.calls[t].svc];
      if svc.waitq != [] && !svc.holdsCalls {
        assert svc.waitq[0] in svc.waitq;
        SendToServerBalanced(fx, s1, svc.waitq[0].client, t, c, []);
      } else {
        EnqueueSilent(s1, t);
        SilentBalanced(s1, Enqueue(s1, t), c, []);
      }
      BalancedThen(s, [], s1, [], SendToWorker(fx, s, c), c);
    }
  }

  lemma EnqueueSilent(s: Board, t: Id)
    requires t in s.calls && s.calls[t].svc in s.services
    ensures Silent(s, Enqueue(s, t))
  {
  }

  lemma NotedSendToWorker(fx: Fixes, s: Board, e: Entry, c: Id)
    requires HeadsIdle(s) && c in s.clients && s.clients[c].conn.Running? && e.Submitted?
    ensures Settles(s, [], SendToWorker(fx, Say(s, e), c), c)
  {
    hide Balanced, SendToWorker;
    NoteBalanced(s, e, c, []);
    SendToWorkerBalanced(fx, Say(s, e), c);
    BalancedThen(s, [], Say(s, e), [], SendToWorker(fx, Say(s, e), c), c);
  }

  lemma SvrAcallBalanced(fx: Fixes, s: Board, c: Id, name: Name, len: int, flags: int, env: Env)
    requires HeadsIdle(s) && c in s.clients && s.clients[c].conn.Running?
    ensures Settles(s, [AnAck], SvrAcall(fx, s, c, name, len, flags, env), c)
  {
    hide Balanced, SendToWorker, Take, LiveCds, NextCommand;
    if SvrAcall(fx, s, c, name, len, flags, env).Ok? {
      if name !in s.index || len < 0 {
        SayArmed(s, Refused(c, TPENOENT), c);
      } else {
        var s1 := NewCall(s, c, s.index[name], len, flags, env).board;
        assert Silent(s, s1);
        SilentBalanced(s, s1, c, [AnAck]);
        var e := AcceptEntry(s1.calls[s.next], s.next);
        AnswerBalanced(s1, e, c);
        var s2 := Say(s1, e);
        BalancedTransitive(s, [AnAck], s1, [AnAck], s2, [], c);
        ArmBalanced(s2, c, CallBody, DataOf(s.next));
        assert HeadsIdle(s2);
        NotedSendToWorker(fx, s2, Submitted(c, s.next, []), c);
        BalancedThen(s, [AnAck], s2, [], SvrAcall(fx, s, c, name, len, flags, env), c);
      }
    }
  }

  // ---------- advertisements ----------

  lemma SvrAdvertiseBalanced(s: Board, c: Id, name: Name, o: int)
    requires c in s.clients && s.clients[c].conn.Running?
    ensures Settles(s, [AStatus], SvrAdvertise(s, c, name, o), c)
  {
    hide Balanced, NextCommand;
    var s1 := NewService(s, name);
    var v, cl := s1.index[name], s1.clients[c];
    var s2 := PutClient(s1, c, cl.(adverts := cl.adverts[v := o]));
    assert Silent(s, s1) && Silent(s, s2);
    SilentBalanced(s, s1, c, [AStatus]);
    SilentBalanced(s, s2, c, [AStatus]);
    SayArmed(s1, Status(c, TPEMATCH), c);
    SayArmed(s2, Status(c, 0), c);
    BalancedThen(s, [AStatus], s1, [AStatus], NextCommand(Say(s1, Status(c, TPEMATCH)), c), c);
    BalancedThen(s, [AStatus], s2, [AStatus], NextCommand(Say(s2, Status(c, 0)), c), c);
  }

  lemma SvrUnadvertiseBalanced(s: Board, c: Id, name: Name)
    requires c in s.clients && s.clients[c].conn.Running?
    ensures Settles(s, [AStatus], SvrUnadvertise(s, c, name), c)
  {
    hide Balanced, DelAdvert;
    SayArmed(s, Status(c, TPENOENT), c);
    if SvrUnadvertise(s, c, name).Ok? && name in s.index && Advertises(s, c, s.index[name]) {
      var s1 := DelAdvert(s, c, s.index[name]).board;
      DelAdvertSilent(s, c, s.index[name]);
      SilentBalanced(s, s1, c, [AStatus]);
      SayArmed(s1, Status(c, 0), c);
      BalancedThen(s, [AStatus], s1, [AStatus], NextCommand(Say(s1, Status(c, 0)), c), c);
    }
  }

  // ---------- departures ----------

  lemma AbandonWorkBalanced(fx: Fixes, s: Board, c: Id)
    requires c in s.clients
    requires s.clients[c].wait4.For? && s.clients[c].wait4.call in s.calls && s.calls[s.clients[c].wait4.call].executor == Some(c) ==>
      WaitsParked(s, c, s.clients[c].wait4.call)
    ensures AbandonWork(fx, s, c).Ok? ==> Balanced(s, [], AbandonWork(fx, s, c).board, [], c)
  {
    hide Balanced, Finish;
    if AbandonWork(fx, s, c).Ok? {
      if s.clients[c].wait4.For? && s.calls[s.clients[c].wait4.call].executor == Some(c) {
        var t := s.clients[c].wait4.call;
        var s1 := PutCall(s, t, s.calls[t].(rval := TPERRNO, rcode := TPESVCERR));
        assert Silent(s, s1);
        SilentBalanced(s, s1, c, []);
        NoteBalanced(s1, Abandoned(c, t), c, []);
        var s2 := Failed(s, c, t);
        BalancedTransitive(s, [], s1, [], s2, [], c);
        FinishBalanced(s2, c, t, fx.wakeAny, []);
        BalancedThen(s, [], s2, [], AbandonWork(fx, s, c), c);
      } else {
        SilentBalanced(s, s, c, []);
      }
    }
  }

  lemma DelClientBalanced(fx: Fixes, s: Board, c: Id, order: seq<Id>)
    requires c in s.clients
    requires s.clients[c].wait4.For? && s.clients[c].wait4.call in s.calls && s.calls[s.clients[c].wait4.call].executor == Some(c) ==>
      WaitsParked(s, c, s.clients[c].wait4.call)
    ensures Settles(s, [], DelClient(fx, s, c, order), c)
  {
    hide Balanced, AbandonWork, DelAdverts, DelRequests, DelReplies, WaitsParked;
    if DelClient(fx, s, c, order).Ok? {
      AbandonWorkBalanced(fx, s, c);
      var s1 := AbandonWork(fx, s, c).board;
      DelAdvertsSilent(s1, c, order);
      var s2 := DelAdverts(s1, c, order).board;
      DelRequestsSilent(s2, c);
      var s3 := DelRequests(s2, c).board;
      DelRepliesSilent(s3, c);
      var r := DelClient(fx, s, c, order).board;
      assert Silent(s1, r);
      SilentBalanced(s1, r, c, []);
      BalancedTransitive(s, [], s1, [], r, [], c);
    }
  }

  // ---------- what is asked ----------

  /** The answer that the library reads after the request that ends with this frame. */
  function Asks(f: Framed): seq<Kind> {
    match f.handler
    case Command => if f.payload == [TPTWORK] then [SomeWork] else []
    case Acall => [AnAck]
    case GetReply => [AReply]
    case Advertise => [AStatus]
    case Unadvertise => [AStatus]
    case _ => []
  }

  /** What the invariant says about those who wait. */
  ghost predicate InOrder(s: Board, c: Id) {
    && HeadsIdle(s) && c in s.clients
    && (forall t :: t in s.clients[c].replies && t in s.calls ==> s.calls[t].client == c)
    && (s.clients[c].wait4.For? && s.clients[c].wait4.call in s.calls && s.calls[s.clients[c].wait4.call].executor == Some(c) ==>
          WaitsParked(s, c, s.clients[c].wait4.call))
    && (s.clients[c].wait4.For? && Awake(s.clients[c]) ==>
          s.clients[c].wait4.call in s.calls && s.calls[s.clients[c].wait4.call].executor == Some(c))
  }

  lemma ExecutedWaitsParked(s: Board, c: Id, t: Id)
    requires Inv(s) && t in s.calls && s.calls[t].executor == Some(c)
    ensures WaitsParked(s, c, t)
  {
    hide InvX;
    var to := s.calls[t].client;
    if to in s.clients && to != c {
      if s.clients[to].wait4 == For(t) {
        WaitedFor(s, to, t);
      } else if s.clients[to].wait4 == AnyReply {
        InvAnyAwaits(s, to, TIGHT);
      }
    }
  }

  lemma AlwaysInOrder(s: Board, c: Id)
    requires Inv(s) && c in s.clients
    ensures InOrder(s, c)
  {
    hide InvX, WaitsParked, Distinct;
    InvQueues(s, TIGHT);
    InvOwned(s, TIGHT);
    if s.clients[c].wait4.For? {
      var t := s.clients[c].wait4.call;
      if t in s.calls && s.calls[t].executor == Some(c) { ExecutedWaitsParked(s, c, t); }
      if Awake(s.clients[c]) { InvWaiter(s, c, TIGHT); }
    }
  }

  lemma RunHandlerBalanced(fx: Fixes, s: Board, c: Id, h: Handler, b: seq<byte>, env: Env)
    requires InOrder(s, c) && s.clients[c].conn.Running? && !h.CallBody? && !h.ReturnBody? && |b| == CommandLength(h)
    ensures Settles(s, Asks(Framed(h, b)), RunHandler(fx, s, c, h, b, env), c)
  {
    hide Balanced, HeadsIdle, WaitsParked, SvrService, SvrAcall, SvrGetReply, SvrAdvertise, SvrUnadvertise, SvrReturn, DelClient, CutName, ToLong, ToShort;
    match h
    case Command =>
      assert b == [b[0]];
      if b[0] == TPTWORK { SvrServiceBalanced(fx, s, c, env); }
      else if CommandHandler(b[0]).Some? {
        var h' := CommandHandler(b[0]).value;
        ArmBalanced(s, c, h', Scratch([b[0]] + ZeroBytes(CommandLength(h') - 1)));
      } else { DelClientBalanced(fx, s, c, env.order); }
    case Acall => SvrAcallBalanced(fx, s, c, CutName(b), ToLong(b, NAME_LENGTH), ToLong(b, NAME_LENGTH + IOLONG), env);
    case GetReply => SvrGetReplyBalanced(s, c, AsShort(ToShort(b, 0)), ToLong(b, IOSHORT));
    case Advertise => SvrAdvertiseBalanced(s, c, CutName(b), ToLong(b, NAME_LENGTH));
    case Unadvertise => SvrUnadvertiseBalanced(s, c, CutName(b));
    case Return => SvrReturnBalanced(s, c, b[0], ToLong(b, 1), ToLong(b, 1 + IOLONG));
  }

  // ---------- every event ----------

  /** What the event asks for on behalf of `d`. */
  function AsksFor(s: Board, e: Event, d: Id): seq<Kind> {
    var fs := FrameOf(s, e, d);
    if fs == [] then [] else Asks(fs[0])
  }

  /** What was paid and is owed grows by what is asked. */
  ghost predicate Pays(s: Board, e: Event, r: Board) {
    && (forall d :: d in r.clients && d !in s.clients ==> d == s.next && r.clients[d].conn.Receiving? && e.Arrive?)
    && forall d :: var k := AsksFor(s, e, d);
         if d in s.clients && d !in r.clients then Paid(r, d) <= Account(s, d, d, []) + k
         else Account(r, d, d, []) == Account(s, d, d, []) + k
  }

  /** Between events it makes no difference whose handler might be on the stack. */
  lemma NobodysHandler(s: Board, d: Id, c: Id)
    ensures Account(s, d, c, []) == Account(s, d, d, [])
  {
    hide Paid;
  }

  lemma UnarmAccount(s: Board, c: Id, d: Id, k: seq<Kind>)
    requires c in s.clients && s.clients[c].conn.Receiving?
    ensures Account(Unarm(s, c), d, c, k) == Account(s, d, d, []) + if d == c then k else []
  {
    hide Paid;
    SamePaid(s, Unarm(s, c), d);
    assert Paid(s, d) + [] + k == Paid(s, d) + k;
    assert forall q: seq<Kind> {:trigger Paid(s, d) + q} :: Paid(s, d) + q + [] == Paid(s, d) + q;
  }

  lemma HandlerPays(s: Board, e: Event, r: Board, c: Id, k: seq<Kind>)
    requires c in s.clients && s.clients[c].conn.Receiving? && e.Read? && e.c == c && k == AsksFor(s, e, c)
    requires Balanced(Unarm(s, c), k, r, [], c)
    ensures Pays(s, e, r)
  {
    hide Paid, Account, FrameOf, Asks;
    forall d ensures if d in s.clients && d !in r.clients then Paid(r, d) <= Account(s, d, d, []) + AsksFor(s, e, d)
                     else Account(r, d, d, []) == Account(s, d, d, []) + AsksFor(s, e, d)
    {
      UnarmAccount(s, c, d, k);
      NobodysHandler(r, d, c);
      if d != c { NoFrame(s, e, d); }
      assert d in s.clients <==> d in Unarm(s, c).clients;
    }
  }

  lemma QuietPays(s: Board, e: Event, r: Board, c: Id)
    requires Balanced(s, [], r, [], c) && (forall d :: FrameOf(s, e, d) == [])
    ensures Pays(s, e, r)
  {
    hide Paid, Account, FrameOf, Asks;
    forall d ensures if d in s.clients && d !in r.clients then Paid(r, d) <= Account(s, d, d, []) + AsksFor(s, e, d)
                     else Account(r, d, d, []) == Account(s, d, d, []) + AsksFor(s, e, d)
    {
      NobodysHandler(s, d, c);
      NobodysHandler(r, d, c);
      assert AsksFor(s, e, d) == [];
      assert Account(s, d, d, []) + [] == Account(s, d, d, []);
    }
  }

  lemma ArrivePays(s: Board)
    requires Inv(s)
    ensures Connect(s).Ok? && Pays(s, Arrive, Connect(s).board)
  {
    hide Inv, Paid;
    InvNextFree(s);
    var r := Connect(s).board;
    forall d ensures Account(r, d, d, []) == Account(s, d, d, []) + AsksFor(s, Arrive, d) {
      SamePaid(s, r, d);
    }
  }

  lemma LeavePays(fx: Fixes, s: Board, e: Event)
    requires Inv(s) && Possible(s, e) && Allowed(fx, s, e) && Step(fx, s, e).Ok?
    requires e.Leave? || (e.Read? && !s.clients[e.c].conn.Receiving?)
    ensures Pays(s, e, Step(fx, s, e).board)
  {
    hide Inv, DelClient, Balanced, Walks, GoodBatches, LeaveOk, HandlerOk, HeadsIdle, WaitsParked, Pays;
    AlwaysInOrder(s, e.c);
    DelClientBalanced(fx, s, e.c, if e.Leave? then e.order else e.env.order);
    forall d ensures FrameOf(s, e, d) == [] { if e.Read? && e.c == d { NotFillingParked(s, e); } else { NoFrame(s, e, d); } }
    QuietPays(s, e, Step(fx, s, e).board, e.c);
  }

  lemma NotFillingParked(s: Board, e: Event)
    requires e.Read? && e.c in s.clients && !s.clients[e.c].conn.Receiving?
    ensures FrameOf(s, e, e.c) == []
  {
  }

  lemma PartialPays(fx: Fixes, s: Board, c: Id, chunk: seq<byte>, env: Env)
    requires Inv(s) && Possible(s, Read(c, chunk, env)) && Allowed(fx, s, Read(c, chunk, env)) && s.clients[c].conn.Receiving?
    requires Step(fx, s, Read(c, chunk, env)).Ok? && FrameOf(s, Read(c, chunk, env), c) == []
    ensures Pays(s, Read(c, chunk, env), Step(fx, s, Read(c, chunk, env)).board)
  {
    hide Inv, RunHandler, SendToWorker, Part2, Walks, GoodBatches, HandlerOk, Balanced, Pays, Splice;
    var e := Read(c, chunk, env);
    InvFits(s, c);
    var r := Step(fx, s, e).board;
    var m := PutClient(s, c, r.clients[c]);
    assert r.log == s.log && r.clients == m.clients;
    MorePays(s, r, c);
    forall d ensures FrameOf(s, e, d) == [] { if d != c { NoFrame(s, e, d); } }
    QuietPays(s, e, r, c);
  }

  lemma MorePays(s: Board, r: Board, c: Id)
    requires c in s.clients && s.clients[c].conn.Receiving? && c in r.clients && r.clients[c].conn.Receiving?
    requires r.log == s.log && r.clients == s.clients[c := r.clients[c]]
    ensures Balanced(s, [], r, [], c)
  {
    hide Outbox, Kinds;
  }

  lemma FramePays(fx: Fixes, s: Board, c: Id, chunk: seq<byte>, env: Env)
    requires Inv(s) && Possible(s, Read(c, chunk, env)) && Allowed(fx, s, Read(c, chunk, env)) && s.clients[c].conn.Receiving?
    requires Step(fx, s, Read(c, chunk, env)).Ok? && FrameOf(s, Read(c, chunk, env), c) != []
    ensures Pays(s, Read(c, chunk, env), Step(fx, s, Read(c, chunk, env)).board)
  {
    hide Inv, Step, Possible, Allowed, RunHandler, SendToWorker, Part2, Balanced, Pays, HeadsIdle, WaitsParked, Splice;
    var e := Read(c, chunk, env);
    var f := FrameOf(s, e, c)[0];
    var r := Step(fx, s, e).board;
    FrameIsHandled(fx, s, c, chunk, env);
    AlwaysInOrder(s, c);
    var s0 := Unarm(s, c);
    UnarmInOrder(s, s0, c);
    if f.handler.CallBody? || f.handler.ReturnBody? {
      var t := s.clients[c].conn.input.call;
      var s1 := Unarm(PutCall(s, t, s.calls[t].(data := f.payload)), c);
      SilentBalanced(s0, s1, c, []);
      UnarmInOrder(s, s1, c);
      if f.handler.CallBody? {
        NotedSendToWorker(fx, s1, Submitted(c, t, f.payload), c);
      } else {
        NotedPart2(s1, Returned(c, t, s.calls[t].rval, s.calls[t].rcode, f.payload), c);
      }
      BalancedThen(s0, [], s1, [], Step(fx, s, e), c);
    } else {
      RunHandlerBalanced(fx, s0, c, f.handler, f.payload, env);
      assert f == Framed(f.handler, f.payload);
    }
    HandlerPays(s, e, r, c, AsksFor(s, e, c));
  }

  /** Unarming a connection, and filling a buffer, leaves everybody else where they wait. */
  lemma UnarmInOrder(s: Board, s0: Board, c: Id)
    requires InOrder(s, c) && s.clients[c].conn.Receiving? && s0.services == s.services
    requires s0.clients == s.clients[c := s.clients[c].(conn := Running)] && s0.calls.Keys == s.calls.Keys
    requires forall t :: t in s.calls ==> s0.calls[t] == s.calls[t].(data := s0.calls[t].data)
    ensures InOrder(s0, c) && (s0.clients[c].wait4.For? ==> WaitsParked(s0, c, s0.clients[c].wait4.call))
  {
  }

  lemma StepPays(fx: Fixes, s: Board, e: Event)
    requires Inv(s) && Possible(s, e) && Allowed(fx, s, e) && Step(fx, s, e).Ok?
    ensures Pays(s, e, Step(fx, s, e).board)
  {
    hide Inv, Pays, FrameOf, DelClient, ReadScratch, ReadData, Walks, GoodBatches, HandlerOk, LeaveOk, Connect;
    match e
    case Arrive => ArrivePays(s);
    case Leave(_, _) => LeavePays(fx, s, e);
    case Read(c, chunk, env) =>
      if !s.clients[c].conn.Receiving? { LeavePays(fx, s, e); }
      else if FrameOf(s, e, c) == [] { PartialPays(fx, s, c, chunk, env); }
      else { FramePays(fx, s, c, chunk, env); }
  }

  // ---------- whole runs ----------

  /** The answers that the library reads after the requests in `fs`. */
  function Requests(fs: seq<Framed>): seq<Kind> {
    if fs == [] then [] else Requests(fs[..|fs| - 1]) + Asks(Last(fs))
  }

  lemma RequestsSnoc(fs: seq<Framed>, gs: seq<Framed>)
    requires |gs| <= 1
    ensures Requests(fs + gs) == Requests(fs) + if gs == [] then [] else Asks(gs[0])
  {
    if gs == [] { assert fs + gs == fs; } else { assert (fs + gs)[..|fs|] == fs; }
  }

  /** `d` has been or is still to be sent what it asked for; if it has gone, it may have missed the end. */
  predicate Matched(s: Board, d: Id, asked: seq<Kind>) {
    if d in s.clients then Account(s, d, d, []) == asked else Paid(s, d) <= asked
  }

  lemma MatchStep(s: Board, e: Event, r: Board, d: Id, asked: seq<Kind>)
    requires Pays(s, e, r) && Matched(s, d, asked) && (d in r.clients && d !in s.clients ==> asked == [])
    ensures Matched(r, d, asked + AsksFor(s, e, d))
  {
    hide Paid, Account, FrameOf, Asks;
    if d !in s.clients {
      NobodyIsPaid(s, e, r, d);
      assert asked + [] == asked;
    }
  }

  /**
   Over any good run: what was written to a connection is one answer for each request, of the kind the request
   asks for and in the order of the requests; of a live connection, only the last can be missing, and it is
   when the client is parked.
   */
  lemma {:induction false} AnswersMatchRequests(fx: Fixes, ss: seq<Board>, es: seq<Event>, n: nat, d: Id)
    requires Trace(fx, ss, es) && n <= |es|
    ensures Matched(ss[n], d, Requests(Handled(ss, es, n, d)))
    decreases n
  {
    hide Inv, LogInv, Step, Possible, Allowed, Own, Onward, GoodStep, Trace, FrameOf, Asks, Requests, Matched, Pays;
    TraceStarts(fx, ss, es);
    if n == 0 {
      NothingAsked(ss, es, d);
    } else {
      AnswersMatchRequests(fx, ss, es, n - 1, d);
      TraceStep(fx, ss, es, n - 1);
      StepPays(fx, ss[n - 1], es[n - 1]);
      FrameIsLive(ss[n - 1], es[n - 1], d);
      RequestsSnoc(Handled(ss, es, n - 1, d), FrameOf(ss[n - 1], es[n - 1], d));
      if d in ss[n].clients && d !in ss[n - 1].clients {
        IsNew(ss[n - 1], es[n - 1], ss[n], d);
        NothingYet(fx, ss, es, n - 1, d);
        NothingRequested();
      }
      MatchStep(ss[n - 1], es[n - 1], ss[n], d, Requests(Handled(ss, es, n - 1, d)));
    }
  }

  lemma IsNew(s: Board, e: Event, r: Board, d: Id)
    requires Pays(s, e, r) && d in r.clients && d !in s.clients
    ensures d == s.next
  {
    hide Account, Paid, AsksFor;
  }

  lemma NothingAsked(ss: seq<Board>, es: seq<Event>, d: Id)
    requires |ss| == |es| + 1 && ss[0] == EMPTY
    ensures Matched(ss[0], d, Requests(Handled(ss, es, 0, d)))
  {
  }

  lemma NothingRequested()
    ensures Requests([]) == []
  {
  }

  lemma NobodyIsPaid(s: Board, e: Event, r: Board, d: Id)
    requires Pays(s, e, r) && d !in s.clients
    ensures FrameOf(s, e, d) == [] && Paid(r, d) == Paid(s, d)
    ensures d in r.clients ==> Account(r, d, d, []) == Paid(s, d)
  {
    hide Paid;
    assert FrameOf(s, e, d) == [];
    assert Account(s, d, d, []) + [] == Paid(s, d);
    assert Account(r, d, d, []) == Paid(r, d);
  }
}
