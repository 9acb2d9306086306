/** What no handler changes behind another connection's back: armed buffers, the data of calls, names of services. */
module Steadiness {
  import opened Sequences
  import opened Wire
  import opened Board
  import opened Answer

  /** Everything about a call but who executes it. */
  predicate SameData(k: Call, k': Call) {
    k' == k.(executor := k'.executor)
  }

  /** What is fixed when a call is accepted. */
  predicate SameHead(k: Call, k': Call) {
    k'.client == k.client && k'.svc == k.svc && k'.arrival == k.arrival && k'.flags == k.flags && k'.cd == k.cd
  }

  /** An armed connection stays as it is, and one that becomes armed awaits a command. */
  predicate SameInput(conn: Conn, conn': Conn) {
    conn' == conn || (!conn.Receiving? && (conn'.Receiving? ==> conn' == NEXT))
  }

  /** Advertisements may have gone; the others have their old values. */
  predicate FewerOffers(cl: Client, cl': Client) {
    forall v :: v in cl'.adverts ==> v in cl.adverts && cl'.adverts[v] == cl.adverts[v]
  }

  /** `w` advertises `v` with the value `o`. */
  predicate Offers(s: Board, w: Id, v: Id, o: int) {
    w in s.clients && v in s.clients[w].adverts && s.clients[w].adverts[v] == o
  }

  /**
   An entry that is no acknowledgement and reports no body; work is logged for a live call under its service's
   name, and with the value that the worker advertises for the service.
   */
  predicate Passing(s: Board, e: Entry) {
    && !e.Accepted? && !e.Submitted? && !e.Returned? && !e.Abandoned?
    && (e.Handed? ==> e.call in s.calls && e.svc in s.services && s.services[e.svc].name == e.name && Offers(s, e.to, e.svc, e.opaqueValue))
  }

  ghost predicate ClientsSteady(s: Board, r: Board) {
    && r.clients.Keys <= s.clients.Keys
    && forall c :: c in r.clients ==> SameInput(s.clients[c].conn, r.clients[c].conn) && FewerOffers(s.clients[c], r.clients[c])
  }

  ghost predicate CallsSteady(s: Board, r: Board, x: set<Id>) {
    && r.calls.Keys <= s.calls.Keys
    && forall t :: t in r.calls ==> SameHead(s.calls[t], r.calls[t]) && (t in x || SameData(s.calls[t], r.calls[t]))
  }

  ghost predicate NamesSteady(s: Board, r: Board) {
    r.services.Keys <= s.services.Keys && forall v :: v in r.services ==> r.services[v].name == s.services[v].name
  }

  ghost predicate LogSteady(s: Board, r: Board) {
    && |s.log| <= |r.log| && (forall i :: 0 <= i < |s.log| ==> r.log[i] == s.log[i])
    && (forall i :: |s.log| <= i < |r.log| ==> Passing(s, r.log[i]))
  }

  /** Nothing new but entries of the log; `x` are the calls whose data may change. */
  ghost predicate Steady(s: Board, r: Board, x: set<Id>) {
    r.next == s.next && ClientsSteady(s, r) && CallsSteady(s, r, x) && NamesSteady(s, r) && LogSteady(s, r)
  }

  ghost predicate SteadyAfter(s: Board, o: Outcome, x: set<Id>) {
    o.Ok? ==> Steady(s, o.board, x)
  }

  lemma SteadyTransitive(a: Board, b: Board, r: Board, x: set<Id>)
    requires Steady(a, b, x) && Steady(b, r, x)
    ensures Steady(a, r, x)
  {
    hide LogSteady;
    LogTransitive(a, b, r, x);
  }

  lemma LogTransitive(a: Board, b: Board, r: Board, x: set<Id>)
    requires ClientsSteady(a, b) && CallsSteady(a, b, x) && NamesSteady(a, b) && LogSteady(a, b) && LogSteady(b, r)
    ensures LogSteady(a, r)
  {
    forall i | |a.log| <= i < |r.log| ensures Passing(a, r.log[i]) {
      if i < |b.log| { assert r.log[i] == b.log[i]; } else { assert Passing(b, r.log[i]); }
    }
  }

  lemma SteadyThen(a: Board, b: Board, o: Outcome, x: set<Id>)
    requires Steady(a, b, x) && SteadyAfter(b, o, x)
    ensures SteadyAfter(a, o, x)
  {
    hide Steady;
    if o.Ok? { SteadyTransitive(a, b, o.board, x); }
  }

  lemma SteadyWeaken(s: Board, r: Board, x: set<Id>, y: set<Id>)
    requires Steady(s, r, x) && x <= y
    ensures Steady(s, r, y)
  {
  }

  // ---------- small updates ----------

  lemma SteadyReflexive(s: Board)
    ensures Steady(s, s, {})
  {
  }

  lemma SaySteady(s: Board, e: Entry)
    requires Passing(s, e)
    ensures Steady(s, Say(s, e), {})
  {
  }

  lemma PutClientSteady(s: Board, c: Id, cl: Client)
    requires c in s.clients && SameInput(s.clients[c].conn, cl.conn) && FewerOffers(s.clients[c], cl)
    ensures Steady(s, PutClient(s, c, cl), {})
  {
  }

  lemma PutCallSteady(s: Board, t: Id, k: Call)
    requires t in s.calls && SameHead(s.calls[t], k)
    ensures Steady(s, PutCall(s, t, k), {t})
    ensures SameData(s.calls[t], k) ==> Steady(s, PutCall(s, t, k), {})
  {
  }

  lemma NextCommandSteady(s: Board, c: Id)
    ensures SteadyAfter(s, NextCommand(s, c), {})
    ensures NextCommand(s, c).Ok? ==> c in s.clients && NextCommand(s, c).board.clients.Keys == s.clients.Keys
    ensures NextCommand(s, c).Ok? ==> NextCommand(s, c).board.calls == s.calls && NextCommand(s, c).board.services == s.services
    ensures NextCommand(s, c).Ok? ==> NextCommand(s, c).board.clients[c] == s.clients[c].(conn := NEXT)
  {
  }

  /** Writing an entry and waiting for the next command. */
  lemma AnswerSteady(s: Board, c: Id, e: Entry)
    requires Passing(s, e)
    ensures SteadyAfter(s, NextCommand(Say(s, e), c), {})
  {
    hide Steady, Passing, NextCommand;
    SaySteady(s, e);
    NextCommandSteady(Say(s, e), c);
    SteadyThen(s, Say(s, e), NextCommand(Say(s, e), c), {});
  }

  lemma DelCallSteady(s: Board, t: Id)
    requires t in s.calls
    ensures Steady(s, DelCall(s, t), {})
  {
    hide Without;
  }

  // ---------- dispatch ----------

  lemma HandOverSteady(s: Board, s1: Board, w: Id, t: Id)
    requires w in s.clients && t in s.calls && s1.clients == s.clients[w := s.clients[w].(wait4 := For(t))]
    requires s1.calls == s.calls[t := s.calls[t].(executor := Some(w))] && s1.log == s.log && s1.next == s.next
    requires s1.services.Keys == s.services.Keys && forall v :: v in s.services ==> s1.services[v].name == s.services[v].name
    ensures Steady(s, s1, {})
  {
  }

  lemma SendToServerSteady(fx: Fixes, s: Board, w: Id, t: Id)
    ensures SteadyAfter(s, SendToServer(fx, s, w, t), {})
  {
    hide NextCommand, Without, Steady;
    if SendToServer(fx, s, w, t).Ok? {
      var cl, k := s.clients[w], s.calls[t];
      var services := WorkerLeaves(s.services, cl.adverts, w);
      var s1 := s.(clients := s.clients[w := cl.(wait4 := For(t))],
                   services := if fx.unlink then Unlinked(services, CallNode(t)) else services,
                   calls := s.calls[t := k.(executor := Some(w))]);
      HandOverSteady(s, s1, w, t);
      var e := Handed(w, t, k.svc, cl.adverts[k.svc], s.services[k.svc].name, k.flags, k.cd, k.data);
      assert Passing(s1, e);
      AnswerSteady(s1, w, e);
      SteadyThen(s, s1, NextCommand(Say(s1, e), w), {});
    }
  }

  lemma ParkSteady(s: Board, c: Id)
    requires c in s.clients && !s.clients[c].conn.Receiving?
    ensures Steady(s, Park(s, c), {})
  {
  }

  lemma SvrServiceSteady(fx: Fixes, s: Board, c: Id, env: Env)
    requires c in s.clients && !s.clients[c].conn.Receiving?
    ensures SteadyAfter(s, SvrService(fx, s, c, env), {})
  {
    hide SendToServer, FindEarliest, Steady, CastsHold, Park;
    if SvrService(fx, s, c, env).Ok? {
      match FindEarliest(fx, s, env.order, None)
      case Some(v) => SendToServerSteady(fx, s, c, FirstCall(s, v));
      case None => ParkSteady(s, c);
    }
  }

  lemma EnqueueSteady(s: Board, t: Id)
    requires t in s.calls && s.calls[t].svc in s.services
    ensures Steady(s, Enqueue(s, t), {})
  {
  }

  lemma SendToWorkerSteady(fx: Fixes, s: Board, c: Id)
    ensures SteadyAfter(s, SendToWorker(fx, s, c), {})
  {
    hide SendToServer, NextCommand, Steady, Enqueue;
    NextCommandSteady(s, c);
    if SendToWorker(fx, s, c).Ok? {
      var s1 := NextCommand(s, c).board;
      var t := Last(s1.clients[c].requests);
      var svc := s1.services[s1.calls[t].svc];
      if svc.waitq != [] && !svc.holdsCalls {
        SendToServerSteady(fx, s1, svc.waitq[0].client, t);
      } else {
        EnqueueSteady(s1, t);
      }
      SteadyThen(s, s1, SendToWorker(fx, s, c), {});
    }
  }

  // ---------- replies ----------

  lemma SndReplySteady(s: Board, t: Id)
    ensures SteadyAfter(s, SndReply(s, t), {})
  {
    hide NextCommand, DelCall, Steady;
    if SndReply(s, t).Ok? {
      var k := s.calls[t];
      var e := Replied(k.client, t, k.rval, k.cd, k.rcode, k.data);
      AnswerSteady(s, k.client, e);
      NextCommandSteady(Say(s, e), k.client);
      var s1 := NextCommand(Say(s, e), k.client).board;
      var s2 := PutClient(s1, k.client, s1.clients[k.client].(wait4 := Nothing));
      PutClientSteady(s1, k.client, s1.clients[k.client].(wait4 := Nothing));
      SteadyTransitive(s, s1, s2, {});
      DelCallSteady(s2, t);
      SteadyTransitive(s, s2, DelCall(s2, t), {});
    }
  }

  lemma KeepReplySteady(s: Board, t: Id)
    requires t in s.calls && s.calls[t].client in s.clients
    ensures Steady(s, KeepReply(s, t), {})
  {
    hide Without;
  }

  lemma FinishSteady(s: Board, c: Id, t: Id, seesAny: bool)
    ensures SteadyAfter(s, Finish(s, c, t, seesAny), {})
  {
    hide SndReply, KeepReply, Steady;
    if Finish(s, c, t, seesAny).Ok? {
      var s0 := PutClient(s, c, s.clients[c].(wait4 := Nothing));
      PutClientSteady(s, c, s.clients[c].(wait4 := Nothing));
      var s1 := PutCall(s0, t, s.calls[t].(executor := None));
      PutCallSteady(s0, t, s.calls[t].(executor := None));
      SteadyTransitive(s, s0, s1, {});
      var to := s.calls[t].client;
      if s1.clients[to].wait4 == For(t) || (seesAny && s1.clients[to].wait4 == AnyReply) {
        SndReplySteady(s1, t);
      } else {
        KeepReplySteady(s1, t);
      }
      SteadyThen(s, s1, Finish(s, c, t, seesAny), {});
    }
  }

  lemma Part2Steady(s: Board, c: Id)
    ensures SteadyAfter(s, Part2(s, c), {})
  {
    hide NextCommand, Finish, Steady;
    NextCommandSteady(s, c);
    if Part2(s, c).Ok? {
      var s1 := NextCommand(s, c).board;
      FinishSteady(s1, c, s1.clients[c].wait4.call, true);
      SteadyThen(s, s1, Part2(s, c), {});
    }
  }

  lemma SvrGetReplySteady(s: Board, c: Id, cd: Short, flags: int)
    requires c in s.clients && !s.clients[c].conn.Receiving?
    ensures SteadyAfter(s, SvrGetReply(s, c, cd, flags), {})
  {
    hide SndReply, NextCommand, Steady, ReplyReady, WaitTarget, FlagSet;
    var cl := s.clients[c];
    match ReplyReady(s.calls, cl.replies, cd, flags)
    case Some(t) => SndReplySteady(s, t);
    case None =>
      AnswerSteady(s, c, NoReply(c, TPEBADDESC));
      AnswerSteady(s, c, NoReply(c, TPEBLOCK));
      PutClientSteady(s, c, cl.(conn := AwaitReply, wait4 := WaitTarget(s.calls, cl.requests, cd, flags)));
  }

  // ---------- deletions ----------

  lemma {:induction false} DrainSteady(s: Board, v: Id)
    ensures SteadyAfter(s, Drain(s, v), {})
    decreases if v in s.services then |s.services[v].waitq| else 0
  {
    hide Steady, Without;
    if Drain(s, v).Ok? {
      if s.services[v].waitq == [] {
        SteadyReflexive(s);
      } else {
        var t := s.services[v].waitq[0].call;
        assert CallNode(t) in s.services[v].waitq;
        DelCallSteady(s, t);
        DrainSteady(DelCall(s, t), v);
        SteadyThen(s, DelCall(s, t), Drain(s, v), {});
      }
    }
  }

  lemma DropAdvertSteady(s: Board, c: Id, v: Id)
    requires c in s.clients
    ensures Steady(s, DropAdvert(s, c, v), {})
  {
    hide Without;
  }

  lemma RemoveServiceSteady(s: Board, v: Id)
    requires v in s.services
    ensures Steady(s, s.(services := s.services - {v}, index := s.index - {s.services[v].name}), {})
  {
  }

  lemma DelAdvertSteady(s: Board, c: Id, v: Id)
    ensures SteadyAfter(s, DelAdvert(s, c, v), {})
  {
    hide Steady, Drain, DropAdvert, SomeoneAdvertises;
    if DelAdvert(s, c, v).Ok? {
      var s1 := DropAdvert(s, c, v);
      DropAdvertSteady(s, c, v);
      if !SomeoneAdvertises(s1, v) {
        DrainSteady(s1, v);
        var s2 := Drain(s1, v).board;
        SteadyTransitive(s, s1, s2, {});
        RemoveServiceSteady(s2, v);
        SteadyThen(s, s2, DelAdvert(s, c, v), {});
      }
    }
  }

  lemma SvrUnadvertiseSteady(s: Board, c: Id, name: Name)
    ensures SteadyAfter(s, SvrUnadvertise(s, c, name), {})
  {
    hide Steady, DelAdvert, NextCommand;
    AnswerSteady(s, c, Status(c, TPENOENT));
    if SvrUnadvertise(s, c, name).Ok? && name in s.index && Advertises(s, c, s.index[name]) {
      DelAdvertSteady(s, c, s.index[name]);
      var s1 := DelAdvert(s, c, s.index[name]).board;
      AnswerSteady(s1, c, Status(c, 0));
      SteadyThen(s, s1, SvrUnadvertise(s, c, name), {});
    }
  }

  /** `c` executes `t`. */
  predicate ExecutesCall(s: Board, c: Id, t: Id) {
    c in s.clients && s.clients[c].wait4 == For(t) && t in s.calls && s.calls[t].executor == Some(c)
  }

  /** The log with the call noted down that the departing `c` abandons, if there is one. */
  function Noted(s: Board, c: Id): Board {
    if c in s.clients && s.clients[c].wait4.For? && ExecutesCall(s, c, s.clients[c].wait4.call)
    then Say(s, Abandoned(c, s.clients[c].wait4.call)) else s
  }

  /** Departing, `c` notes down the call it abandons, and adds nothing else of its own. */
  lemma AbandonWorkSteady(fx: Fixes, s: Board, c: Id, x: set<Id>)
    requires c in s.clients && forall t :: t in s.calls && s.calls[t].executor == Some(c) ==> t in x
    ensures SteadyAfter(Noted(s, c), AbandonWork(fx, s, c), x)
  {
    hide Steady, Finish;
    SteadyReflexive(s);
    SteadyWeaken(s, s, {}, x);
    if AbandonWork(fx, s, c).Ok? && s.clients[c].wait4.For? {
      var t := s.clients[c].wait4.call;
      if s.calls[t].executor == Some(c) {
        var s1 := Failed(s, c, t);
        PutCallSteady(Noted(s, c), t, s1.calls[t]);
        assert PutCall(Noted(s, c), t, s1.calls[t]) == s1;
        SteadyWeaken(Noted(s, c), s1, {t}, x);
        FinishSteady(s1, c, t, fx.wakeAny);
        SteadyWeaken(s1, AbandonWork(fx, s, c).board, {}, x);
        SteadyThen(Noted(s, c), s1, AbandonWork(fx, s, c), x);
      }
    }
  }

  lemma {:induction false} DelAdvertsSteady(s: Board, c: Id, order: seq<Id>)
    ensures SteadyAfter(s, DelAdverts(s, c, order), {})
    decreases |order|
  {
    hide Steady, DelAdvert;
    if order == [] {
      SteadyReflexive(s);
    } else if DelAdvert(s, c, order[0]).Ok? {
      var s1 := DelAdvert(s, c, order[0]).board;
      DelAdvertSteady(s, c, order[0]);
      DelAdvertsSteady(s1, c, order[1..]);
      SteadyThen(s, s1, DelAdverts(s1, c, order[1..]), {});
    }
  }

  lemma {:induction false} DelRequestsSteady(s: Board, c: Id)
    ensures SteadyAfter(s, DelRequests(s, c), {})
    decreases if c in s.clients then |s.clients[c].requests| else 0
  {
    hide Steady, Without;
    if DelRequests(s, c).Ok? {
      if s.clients[c].requests == [] {
        SteadyReflexive(s);
      } else {
        var t := s.clients[c].requests[0];
        assert t in s.clients[c].requests;
        DelCallSteady(s, t);
        DelRequestsSteady(DelCall(s, t), c);
        SteadyThen(s, DelCall(s, t), DelRequests(s, c), {});
      }
    }
  }

  lemma {:induction false} DelRepliesSteady(s: Board, c: Id)
    ensures SteadyAfter(s, DelReplies(s, c), {})
    decreases if c in s.clients then |s.clients[c].replies| else 0
  {
    hide Steady, Without;
    if DelReplies(s, c).Ok? {
      if s.clients[c].replies == [] {
        SteadyReflexive(s);
      } else {
        var t := s.clients[c].replies[0];
        assert t in s.clients[c].replies;
        DelCallSteady(s, t);
        DelRepliesSteady(DelCall(s, t), c);
        SteadyThen(s, DelCall(s, t), DelReplies(s, c), {});
      }
    }
  }

  lemma RemoveClientSteady(s: Board, c: Id)
    ensures Steady(s, s.(clients := s.clients - {c}), {})
  {
  }

  lemma DelClientSteady(fx: Fixes, s: Board, c: Id, order: seq<Id>, x: set<Id>)
    requires c in s.clients && forall t :: t in s.calls && s.calls[t].executor == Some(c) ==> t in x
    ensures SteadyAfter(Noted(s, c), DelClient(fx, s, c, order), x)
  {
    hide Steady, AbandonWork, DelAdverts, DelRequests, DelReplies;
    if DelClient(fx, s, c, order).Ok? {
      AbandonWorkSteady(fx, s, c, x);
      var s1 := AbandonWork(fx, s, c).board;
      DelAdvertsSteady(s1, c, order);
      var s2 := DelAdverts(s1, c, order).board;
      DelRequestsSteady(s2, c);
      var s3 := DelRequests(s2, c).board;
      DelRepliesSteady(s3, c);
      var s4 := DelReplies(s3, c).board;
      RemoveClientSteady(s4, c);
      SteadyTransitive(s1, s2, s3, {});
      SteadyTransitive(s1, s3, s4, {});
      SteadyTransitive(s1, s4, DelClient(fx, s, c, order).board, {});
      SteadyWeaken(s1, DelClient(fx, s, c, order).board, {}, x);
      SteadyTransitive(Noted(s, c), s1, DelClient(fx, s, c, order).board, x);
    }
  }
}
