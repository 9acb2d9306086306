/** The end of a call: it leaves its executor, and its reply is kept or sent. */
module Answer {
  import opened Sequences
  import opened Board
  import opened Invariant
  import opened Touch
  import opened DeleteCall

  // ---------- the executor lets go ----------

  function LetGo(s: Board, c: Id, t: Id): Board
    requires c in s.clients && t in s.calls
  {
    PutCall(PutClient(s, c, s.clients[c].(wait4 := Nothing)), t, s.calls[t].(executor := None))
  }

  lemma LetGoTables(s: Board, c: Id, t: Id, bare: set<Id>)
    requires c in s.clients && t in s.calls && Tables(s, bare)
    ensures Tables(LetGo(s, c, t), bare)
  {
    var r := LetGo(s, c, t);
    forall v | v in r.services && v !in bare ensures exists c :: Advertises(r, c, v) {
      var c :| Advertises(s, c, v);
      assert Advertises(r, c, v);
    }
  }

  lemma LetGoHeld(s: Board, c: Id, t: Id)
    requires c in s.clients && t in s.calls && Held(s) && ListsDistinct(s)
    ensures Held(LetGo(s, c, t)) && ListsDistinct(LetGo(s, c, t))
  {
    hide Distinct;
    var r := LetGo(s, c, t);
    forall u | u in r.calls ensures Pending(r, u) || Done(r, u) {
      assert Pending(s, u) || Done(s, u);
    }
  }

  lemma LetGoOwned(s: Board, c: Id, t: Id)
    requires c in s.clients && t in s.calls && RequestsOwned(s) && RepliesOwned(s)
    ensures RequestsOwned(LetGo(s, c, t)) && RepliesOwned(LetGo(s, c, t))
  {
  }

  lemma LetGoQueues(s: Board, c: Id, t: Id)
    requires c in s.clients && t in s.calls && Queues(s) && s.calls[t].executor == Some(c)
    ensures Queues(LetGo(s, c, t))
  {
    hide Distinct;
  }

  lemma LetGoWorkers(s: Board, c: Id, t: Id)
    requires c in s.clients && t in s.calls && Workers(s) && Waiters(s) && s.calls[t].executor == Some(c)
    ensures Workers(LetGo(s, c, t)) && Waiters(LetGo(s, c, t))
  {
  }

  lemma LetGoBuffers(s: Board, c: Id, t: Id, closing: set<Id>)
    requires c in s.clients && t in s.calls && WaiterExecutes(s) && ExecutorWaits(s) && Buffers(s, closing)
    requires s.calls[t].executor == Some(c)
    requires c in closing || !(s.clients[c].conn.Receiving? && s.clients[c].conn.handler.ReturnBody?)
    ensures Buffers(LetGo(s, c, t), closing)
  {
    var r := LetGo(s, c, t);
    forall d | d in r.clients && d !in closing && r.clients[d].conn.Receiving? && r.clients[d].conn.input.DataOf?
      ensures DataFits(r, d)
    {
      assert DataFits(s, d);
    }
  }

  lemma LetGoPhases(s: Board, c: Id, t: Id, limbo: set<Id>)
    requires c in s.clients && t in s.calls && Phases(s, limbo) && Cds(s.calls, s.pool)
    ensures Phases(LetGo(s, c, t), limbo + {t}) && Cds(LetGo(s, c, t).calls, s.pool)
  {
    var r := LetGo(s, c, t);
    forall u | Pending(r, u) && u !in limbo + {t} ensures Executing(r, u) || Queued(r, u) || Arriving(r, u) {
      assert Pending(s, u);
    }
    assert LiveCds(r.calls) <= LiveCds(s.calls);
  }

  lemma LetGoKeeps(s: Board, c: Id, t: Id, k: Slack)
    requires InvX(s, k) && c in s.clients && t in s.calls && s.calls[t].executor == Some(c)
    requires c in k.closing || !(s.clients[c].conn.Receiving? && s.clients[c].conn.handler.ReturnBody?)
    ensures InvX(LetGo(s, c, t), k.(limbo := k.limbo + {t}))
    ensures OnNoQueue(LetGo(s, c, t), t)
  {
    assert OnNoQueue(s, t);
    hide Distinct, Tables, Queues, Waiters, Buffers, Phases, Cds;
    LetGoTables(s, c, t, k.bare);
    LetGoHeld(s, c, t);
    LetGoOwned(s, c, t);
    LetGoQueues(s, c, t);
    LetGoWorkers(s, c, t);
    LetGoBuffers(s, c, t, k.closing);
    LetGoPhases(s, c, t, k.limbo);
  }

  // ---------- the reply is kept ----------

  lemma KeepReplyTables(s: Board, t: Id, bare: set<Id>)
    requires t in s.calls && s.calls[t].client in s.clients && Tables(s, bare)
    ensures Tables(KeepReply(s, t), bare)
  {
    hide Without;
    var r := KeepReply(s, t);
    forall v | v in r.services && v !in bare ensures exists c :: Advertises(r, c, v) {
      var c :| Advertises(s, c, v);
      assert Advertises(r, c, v);
    }
  }

  lemma KeepReplyHeld(s: Board, t: Id)
    requires t in s.calls && s.calls[t].client in s.clients && Held(s)
    ensures Held(KeepReply(s, t))
  {
    hide Without;
    var r := KeepReply(s, t);
    forall u | u in r.calls ensures Pending(r, u) || Done(r, u) {
      assert Pending(s, u) || Done(s, u);
    }
  }

  lemma KeepReplyRequests(s: Board, t: Id)
    requires t in s.calls && s.calls[t].client in s.clients && RequestsOwned(s)
    ensures RequestsOwned(KeepReply(s, t))
  {
    hide Without;
    var r := KeepReply(s, t);
    forall c, u | c in r.clients && u in r.clients[c].requests ensures u in r.calls && r.calls[u].client == c {
      assert u in s.clients[c].requests;
    }
    forall c, u | c in r.clients && u in r.clients[c].requests ensures u !in r.clients[c].replies {
      assert u in s.clients[c].requests;
    }
  }

  lemma KeepReplyReplies(s: Board, t: Id)
    requires t in s.calls && s.calls[t].client in s.clients && s.calls[t].executor.None? && RepliesOwned(s)
    ensures RepliesOwned(KeepReply(s, t))
  {
    hide Without;
    var r := KeepReply(s, t);
    forall c, u | c in r.clients && u in r.clients[c].replies
      ensures u in r.calls && r.calls[u].client == c && r.calls[u].executor.None?
    {
      assert u in s.clients[c].replies || (u == t && c == s.calls[t].client);
    }
  }

  lemma KeepReplyOwned(s: Board, t: Id)
    requires t in s.calls && s.calls[t].client in s.clients && s.calls[t].executor.None?
    requires RequestsOwned(s) && RepliesOwned(s) && Held(s)
    ensures RequestsOwned(KeepReply(s, t)) && RepliesOwned(KeepReply(s, t)) && Held(KeepReply(s, t))
  {
    hide KeepReply, Held, RequestsOwned, RepliesOwned;
    KeepReplyHeld(s, t);
    KeepReplyRequests(s, t);
    KeepReplyReplies(s, t);
  }

  lemma KeepReplyDistinct(s: Board, t: Id)
    requires t in s.calls && s.calls[t].client in s.clients && ListsDistinct(s)
    ensures ListsDistinct(KeepReply(s, t))
  {
    hide Without;
  }

  lemma KeepReplyQueues(s: Board, t: Id)
    requires t in s.calls && s.calls[t].client in s.clients && Queues(s) && OnNoQueue(s, t)
    ensures Queues(KeepReply(s, t))
  {
    hide Without, Distinct;
    var r := KeepReply(s, t);
    forall v, u | v in r.services && CallNode(u) in r.services[v].waitq ensures Pending(r, u) && !Arriving(r, u) {
      assert Pending(s, u) && !Arriving(s, u) && u != t;
    }
  }

  lemma KeepReplyWorkers(s: Board, t: Id)
    requires t in s.calls && s.calls[t].client in s.clients && Workers(s) && Waiters(s)
    requires var w := s.clients[s.calls[t].client].wait4; w != AnyReply && w != For(t)
    ensures Workers(KeepReply(s, t)) && Waiters(KeepReply(s, t))
  {
    hide Without, Distinct;
  }

  lemma KeepReplyBuffers(s: Board, t: Id, closing: set<Id>)
    requires t in s.calls && s.calls[t].client in s.clients && Buffers(s, closing) && RequestsOwned(s) && !Arriving(s, t)
    ensures Buffers(KeepReply(s, t), closing)
  {
    hide Without, Distinct;
    var r := KeepReply(s, t);
    forall d | d in r.clients && d !in closing && r.clients[d].conn.Receiving? && r.clients[d].conn.input.DataOf?
      ensures DataFits(r, d)
    {
      assert DataFits(s, d);
    }
  }

  lemma KeepReplyPhases(s: Board, t: Id, limbo: set<Id>)
    requires t in s.calls && s.calls[t].client in s.clients && Phases(s, limbo)
    ensures Phases(KeepReply(s, t), limbo - {t})
  {
    hide Without, Distinct;
    var r := KeepReply(s, t);
    forall u | Pending(r, u) && u !in limbo - {t} ensures Executing(r, u) || Queued(r, u) || Arriving(r, u) {
      assert Pending(s, u) && u != t;
    }
  }

  lemma KeepReplyKeeps(s: Board, t: Id, k: Slack)
    requires InvX(s, k) && t in s.calls && s.calls[t].client in s.clients
    requires s.calls[t].executor.None? && OnNoQueue(s, t) && !Arriving(s, t)
    requires var w := s.clients[s.calls[t].client].wait4; w != AnyReply && w != For(t)
    ensures InvX(KeepReply(s, t), k.(limbo := k.limbo - {t}))
  {
    hide Without, Distinct, Tables, Queues, Workers, Waiters, Buffers, Phases, Cds;
    KeepReplyTables(s, t, k.bare);
    KeepReplyOwned(s, t);
    KeepReplyDistinct(s, t);
    KeepReplyQueues(s, t);
    KeepReplyWorkers(s, t);
    KeepReplyBuffers(s, t, k.closing);
    KeepReplyPhases(s, t, k.limbo);
  }

  // ---------- the reply is sent ----------

  const NEXT := Receiving(Command, Scratch(ZeroBytes(1)), 0)

  /** The client gets its next command and waits for nothing. */
  function Resume(s: Board, c: Id): Board
    requires c in s.clients
  {
    PutClient(s, c, s.clients[c].(conn := NEXT, wait4 := Nothing))
  }

  /** Waiting for a reply, or asking for one while executing nothing. */
  predicate CanTakeReply(cl: Client) {
    cl.conn.AwaitReply? || (cl.conn.Running? && cl.wait4.Nothing?)
  }

  lemma ResumeQueues(s: Board, c: Id)
    requires c in s.clients && CanTakeReply(s.clients[c]) && Queues(s)
    ensures Queues(Resume(s, c))
  {
    hide Distinct;
  }

  lemma ResumeWorkers(s: Board, c: Id)
    requires c in s.clients && CanTakeReply(s.clients[c]) && Workers(s) && Waiters(s)
    ensures Workers(Resume(s, c)) && Waiters(Resume(s, c))
  {
  }

  lemma ResumeBuffers(s: Board, c: Id, k: Slack)
    requires c in s.clients && CanTakeReply(s.clients[c]) && Buffers(s, k.closing) && Phases(s, k.limbo)
    ensures Buffers(Resume(s, c), k.closing) && Phases(Resume(s, c), k.limbo)
  {
    var r := Resume(s, c);
    forall d | d in r.clients && d !in k.closing && r.clients[d].conn.Receiving? && r.clients[d].conn.input.DataOf?
      ensures DataFits(r, d)
    {
      assert DataFits(s, d);
    }
    forall u | Pending(r, u) && u !in k.limbo ensures Executing(r, u) || Queued(r, u) || Arriving(r, u) {
      assert Pending(s, u);
    }
  }

  lemma ResumeKeeps(s: Board, c: Id, k: Slack)
    requires InvX(s, k) && c in s.clients && CanTakeReply(s.clients[c])
    ensures InvX(Resume(s, c), k)
  {
    hide Distinct, Tables, Lists, Queues, Workers, Waiters, Buffers, Phases, Cds;
    TouchTables(s, c, s.clients[c].(conn := NEXT, wait4 := Nothing), k.bare);
    TouchLists(s, c, s.clients[c].(conn := NEXT, wait4 := Nothing));
    ResumeQueues(s, c);
    ResumeWorkers(s, c);
    ResumeBuffers(s, c, k);
  }

  function ReplyEntry(s: Board, t: Id): Entry
    requires t in s.calls
  {
    var k := s.calls[t];
    Replied(k.client, t, k.rval, k.cd, k.rcode, k.data)
  }

  lemma SndReplyIs(s: Board, t: Id)
    requires t in s.calls && s.calls[t].client in s.clients && !s.clients[s.calls[t].client].conn.Receiving?
    ensures SndReply(s, t) == Ok(DelCall(Resume(Say(s, ReplyEntry(s, t)), s.calls[t].client), t))
  {
    hide Without, Distinct;
    var c := s.calls[t].client;
    var s0 := Say(s, ReplyEntry(s, t));
    var s1 := NextCommand(s0, c).board;
    assert PutClient(s1, c, s1.clients[c].(wait4 := Nothing)).clients == Resume(s0, c).clients;
  }

  lemma SndReplyKeeps(s: Board, t: Id, k: Slack)
    requires InvX(s, k) && t in s.calls && s.calls[t].client in s.clients
    requires CanTakeReply(s.clients[s.calls[t].client])
    ensures SndReply(s, t).Ok? && InvX(SndReply(s, t).board, k.(limbo := k.limbo - {t}))
  {
    hide Without, Distinct, Tables, Lists, Queues, Workers, Waiters, Buffers, Phases, Cds;
    SndReplyIs(s, t);
    SayKeeps(s, ReplyEntry(s, t), k);
    var s1 := Say(s, ReplyEntry(s, t));
    ResumeKeeps(s1, s.calls[t].client, k);
    DelCallKeeps(Resume(s1, s.calls[t].client), t, k);
  }

  // ---------- both ----------

  lemma FinishKeeps(s: Board, c: Id, t: Id, seesAny: bool, k: Slack)
    requires InvX(s, k) && c in s.clients && t in s.calls && s.calls[t].executor == Some(c) && !Arriving(s, t)
    requires c in k.closing || !(s.clients[c].conn.Receiving? && s.clients[c].conn.handler.ReturnBody?)
    requires s.calls[t].client in s.clients
    requires seesAny || s.clients[s.calls[t].client].wait4 != AnyReply
    ensures Finish(s, c, t, seesAny).Ok?
    ensures InvX(Finish(s, c, t, seesAny).board, k.(limbo := k.limbo - {t}))
  {
    hide Without, Distinct, Tables, Lists, Queues, Buffers, Phases, Cds;
    LetGoKeeps(s, c, t, k);
    var s1, k1 := LetGo(s, c, t), k.(limbo := k.limbo + {t});
    assert k1.limbo - {t} == k.limbo - {t};
    var to := s1.clients[s.calls[t].client];
    if to.wait4 == For(t) || (seesAny && to.wait4 == AnyReply) {
      assert to.conn.AwaitReply?;
      SndReplyKeeps(s1, t, k1);
    } else {
      assert to.wait4 != AnyReply;
      KeepReplyKeeps(s1, t, k1);
    }
  }
}
