/** Changes to one connection, or to the contents of one call, keep the invariant. */
module Touch {
  import opened Sequences
  import opened Board
  import opened Invariant

  // ---------- the log ----------

  lemma SayTables(s: Board, e: Entry, bare: set<Id>)
    requires Tables(s, bare) && Lists(s)
    ensures Tables(Say(s, e), bare) && Lists(Say(s, e))
  {
    hide Distinct;
    var r := Say(s, e);
    forall v | v in r.services && v !in bare ensures exists c :: Advertises(r, c, v) {
      var c :| Advertises(s, c, v);
      assert Advertises(r, c, v);
    }
    forall t | t in r.calls ensures Pending(r, t) || Done(r, t) {
      assert Pending(s, t) || Done(s, t);
    }
  }

  lemma SayQueues(s: Board, e: Entry)
    requires Queues(s)
    ensures Queues(Say(s, e))
  {
    hide Distinct;
  }

  lemma SayBuffers(s: Board, e: Entry, closing: set<Id>)
    requires Buffers(s, closing)
    ensures Buffers(Say(s, e), closing)
  {
    var r := Say(s, e);
    forall c | c in r.clients && c !in closing && r.clients[c].conn.Receiving? && r.clients[c].conn.input.DataOf?
      ensures DataFits(r, c)
    {
      assert DataFits(s, c);
    }
  }

  lemma SayPhases(s: Board, e: Entry, limbo: set<Id>)
    requires Phases(s, limbo)
    ensures Phases(Say(s, e), limbo)
  {
    var r := Say(s, e);
    forall t | Pending(r, t) && t !in limbo ensures Executing(r, t) || Queued(r, t) || Arriving(r, t) {
      assert Pending(s, t);
    }
  }

  lemma SayKeeps(s: Board, e: Entry, k: Slack)
    requires InvX(s, k)
    ensures InvX(Say(s, e), k)
  {
    hide Distinct, Tables, Lists, Queues, Buffers, Phases, Cds;
    SayTables(s, e, k.bare);
    SayQueues(s, e);
    SayBuffers(s, e, k.closing);
    SayPhases(s, e, k.limbo);
  }

  // ---------- one client, its lists and advertisements unchanged ----------

  predicate SameLists(cl: Client, cl': Client) {
    cl'.adverts == cl.adverts && cl'.requests == cl.requests && cl'.replies == cl.replies
  }

  lemma TouchTables(s: Board, c: Id, cl': Client, bare: set<Id>)
    requires c in s.clients && SameLists(s.clients[c], cl') && Tables(s, bare)
    ensures Tables(PutClient(s, c, cl'), bare)
  {
    var r := PutClient(s, c, cl');
    forall v | v in r.services && v !in bare ensures exists c :: Advertises(r, c, v) {
      var c :| Advertises(s, c, v);
      assert Advertises(r, c, v);
    }
  }

  lemma TouchLists(s: Board, c: Id, cl': Client)
    requires c in s.clients && SameLists(s.clients[c], cl') && Lists(s)
    ensures Lists(PutClient(s, c, cl'))
  {
    hide Lists;
    ListsStay(s, PutClient(s, c, cl'));
  }

  // ---------- a connection is armed or unarmed ----------

  function Reconn(s: Board, c: Id, conn: Conn): Board
    requires c in s.clients
  {
    PutClient(s, c, s.clients[c].(conn := conn))
  }

  predicate ReadsBody(conn: Conn, t: Id) {
    conn.Receiving? && conn.handler == CallBody && conn.input == DataOf(t)
  }

  ghost predicate OnNoQueue(s: Board, t: Id) {
    forall v :: v in s.services ==> CallNode(t) !in s.services[v].waitq
  }

  predicate Fits(s: Board, c: Id)
    requires c in s.clients
  {
    s.clients[c].conn.Receiving? ==>
      if s.clients[c].conn.input.Scratch? then ScratchFits(s.clients[c].conn)
      else DataFits(s, c) && s.clients[c].conn.input.call < s.next
  }

  lemma ReconnQueues(s: Board, c: Id, conn: Conn)
    requires c in s.clients && Queues(s) && Awake(s.clients[c]) && (conn.Receiving? || conn.Running?)
    requires forall t :: ReadsBody(conn, t) ==> OnNoQueue(s, t)
    ensures Queues(Reconn(s, c, conn))
  {
    hide Distinct;
    var r := Reconn(s, c, conn);
    forall v, t | v in r.services && CallNode(t) in r.services[v].waitq
      ensures Pending(r, t) && !Arriving(r, t)
    {
      assert Pending(s, t) && !Arriving(s, t) && !ReadsBody(conn, t);
    }
  }

  lemma ReconnWorkers(s: Board, c: Id, conn: Conn)
    requires c in s.clients && Workers(s) && Waiters(s) && Awake(s.clients[c]) && (conn.Receiving? || conn.Running?)
    ensures Workers(Reconn(s, c, conn)) && Waiters(Reconn(s, c, conn))
  {
  }

  lemma ReconnBuffers(s: Board, c: Id, conn: Conn, closing: set<Id>)
    requires c in s.clients && Buffers(s, closing) && Fits(Reconn(s, c, conn), c)
    ensures Buffers(Reconn(s, c, conn), closing)
  {
    var r := Reconn(s, c, conn);
    forall d | d in r.clients && d !in closing && r.clients[d].conn.Receiving? && r.clients[d].conn.input.DataOf?
      ensures DataFits(r, d)
    {
      if d != c { assert DataFits(s, d); }
    }
  }

  lemma ReconnPhases(s: Board, c: Id, conn: Conn, limbo: set<Id>, limbo': set<Id>)
    requires c in s.clients && Phases(s, limbo)
    requires forall t :: t in limbo && t !in limbo' ==> Arriving(Reconn(s, c, conn), t)
    requires forall t :: ReadsBody(s.clients[c].conn, t) ==> t in limbo' || ReadsBody(conn, t)
    ensures Phases(Reconn(s, c, conn), limbo')
  {
    var r := Reconn(s, c, conn);
    forall t | Pending(r, t) && t !in limbo' ensures Executing(r, t) || Queued(r, t) || Arriving(r, t) {
      assert Pending(s, t);
      if t !in limbo && Arriving(s, t) && s.calls[t].client == c {
        assert ReadsBody(s.clients[c].conn, t);
      }
    }
  }

  lemma ReconnKeeps(s: Board, c: Id, conn: Conn, k: Slack, limbo': set<Id>)
    requires InvX(s, k) && c in s.clients && Awake(s.clients[c]) && (conn.Receiving? || conn.Running?)
    requires Fits(Reconn(s, c, conn), c)
    requires forall t :: ReadsBody(conn, t) ==> OnNoQueue(s, t)
    requires forall t :: t in k.limbo && t !in limbo' ==> Arriving(Reconn(s, c, conn), t)
    requires forall t :: ReadsBody(s.clients[c].conn, t) ==> t in limbo' || ReadsBody(conn, t)
    ensures InvX(Reconn(s, c, conn), k.(limbo := limbo'))
  {
    hide Distinct, Tables, Lists, Queues, Workers, Waiters, Buffers, Phases, Cds;
    TouchTables(s, c, s.clients[c].(conn := conn), k.bare);
    TouchLists(s, c, s.clients[c].(conn := conn));
    ReconnQueues(s, c, conn);
    ReconnWorkers(s, c, conn);
    ReconnBuffers(s, c, conn, k.closing);
    ReconnPhases(s, c, conn, k.limbo, limbo');
  }

  /** `svr_next_command` for the client whose handler is running. */
  lemma NextCommandKeeps(s: Board, c: Id, k: Slack)
    requires InvX(s, k) && c in s.clients && s.clients[c].conn.Running?
    ensures NextCommand(s, c).Ok? && InvX(NextCommand(s, c).board, k)
  {
    hide Distinct, Tables, Lists, Queues, Workers, Waiters, Buffers, Phases, Cds;
    var conn := Receiving(Command, Scratch(ZeroBytes(1)), 0);
    ReconnKeeps(s, c, conn, k, k.limbo);
    assert NextCommand(s, c).board == Reconn(s, c, conn);
  }

  // ---------- the contents of a call ----------

  predicate SameCall(k: Call, k': Call) {
    k'.client == k.client && k'.svc == k.svc && k'.executor == k.executor && k'.cd == k.cd
  }

  ghost predicate NobodyReads(s: Board, t: Id) {
    forall c :: c in s.clients && s.clients[c].conn.Receiving? ==> s.clients[c].conn.input != DataOf(t)
  }

  lemma RewriteTables(s: Board, t: Id, k': Call, bare: set<Id>)
    requires t in s.calls && SameCall(s.calls[t], k') && Tables(s, bare)
    ensures Tables(PutCall(s, t, k'), bare)
  {
    var r := PutCall(s, t, k');
    forall v | v in r.services && v !in bare ensures exists c :: Advertises(r, c, v) {
      var c :| Advertises(s, c, v);
      assert Advertises(r, c, v);
    }
  }

  /** The clients have the same lists, and the calls are the same. */
  ghost predicate ListsAlike(s: Board, r: Board) {
    && r.calls == s.calls && r.clients.Keys == s.clients.Keys
    && (forall c :: c in s.clients ==> r.clients[c].requests == s.clients[c].requests && r.clients[c].replies == s.clients[c].replies)
  }

  lemma HeldStays(s: Board, r: Board)
    requires ListsAlike(s, r) && Held(s)
    ensures Held(r)
  {
    forall u | u in r.calls ensures Pending(r, u) || Done(r, u) {
      assert Pending(s, u) || Done(s, u);
    }
  }

  lemma OwnedStays(s: Board, r: Board)
    requires ListsAlike(s, r) && RequestsOwned(s) && RepliesOwned(s)
    ensures RequestsOwned(r) && RepliesOwned(r)
  {
    forall c, u | c in r.clients && u in r.clients[c].requests ensures u in r.calls && r.calls[u].client == c {
      assert u in s.clients[c].requests;
    }
    forall c, u | c in r.clients && u in r.clients[c].requests ensures u !in r.clients[c].replies {
      assert u in s.clients[c].requests;
    }
    forall c, u | c in r.clients && u in r.clients[c].replies ensures u in r.calls && r.calls[u].client == c && r.calls[u].executor.None? {
      assert u in s.clients[c].replies;
    }
  }

  lemma ListsStay(s: Board, r: Board)
    requires ListsAlike(s, r) && Lists(s)
    ensures Lists(r)
  {
    hide Held, RequestsOwned, RepliesOwned, Distinct;
    HeldStays(s, r);
    OwnedStays(s, r);
  }

  lemma RewriteHeld(s: Board, t: Id, k': Call)
    requires t in s.calls && SameCall(s.calls[t], k') && Held(s)
    ensures Held(PutCall(s, t, k'))
  {
    var r := PutCall(s, t, k');
    forall u | u in r.calls ensures Pending(r, u) || Done(r, u) {
      assert Pending(s, u) || Done(s, u);
    }
  }

  lemma RewriteRequests(s: Board, t: Id, k': Call)
    requires t in s.calls && SameCall(s.calls[t], k') && RequestsOwned(s)
    ensures RequestsOwned(PutCall(s, t, k'))
  {
    var r := PutCall(s, t, k');
    forall c, u | c in r.clients && u in r.clients[c].requests ensures u in r.calls && r.calls[u].client == c {
      assert u in s.clients[c].requests;
    }
    forall c, u | c in r.clients && u in r.clients[c].requests ensures u !in r.clients[c].replies {
      assert u in s.clients[c].requests;
    }
  }

  lemma RewriteReplies(s: Board, t: Id, k': Call)
    requires t in s.calls && SameCall(s.calls[t], k') && RepliesOwned(s)
    ensures RepliesOwned(PutCall(s, t, k'))
  {
    var r := PutCall(s, t, k');
    forall c, u | c in r.clients && u in r.clients[c].replies
      ensures u in r.calls && r.calls[u].client == c && r.calls[u].executor.None?
    {
      assert u in s.clients[c].replies;
    }
  }

  lemma RewriteLists(s: Board, t: Id, k': Call)
    requires t in s.calls && SameCall(s.calls[t], k') && Lists(s)
    ensures Lists(PutCall(s, t, k'))
  {
    hide Distinct, Held, RequestsOwned, RepliesOwned, SameCall;
    RewriteHeld(s, t, k');
    RewriteRequests(s, t, k');
    RewriteReplies(s, t, k');
  }

  lemma RewriteQueues(s: Board, t: Id, k': Call)
    requires t in s.calls && SameCall(s.calls[t], k') && Queues(s) && Workers(s)
    ensures Queues(PutCall(s, t, k')) && Workers(PutCall(s, t, k'))
  {
    hide Distinct, QueuedCalls, Workers, SameCall;
    RewriteQueuedCalls(s, t, k');
    RewriteWorkers(s, t, k');
  }

  lemma RewriteQueuedCalls(s: Board, t: Id, k': Call)
    requires t in s.calls && SameCall(s.calls[t], k') && QueuedCalls(s)
    ensures QueuedCalls(PutCall(s, t, k'))
  {
    var r := PutCall(s, t, k');
    forall v, u | v in r.services && CallNode(u) in r.services[v].waitq
      ensures r.services[v].holdsCalls && Pending(r, u) && r.calls[u].svc == v && r.calls[u].executor.None? && !Arriving(r, u)
    {
      assert CallNode(u) in s.services[v].waitq;
    }
  }

  lemma RewriteWorkers(s: Board, t: Id, k': Call)
    requires t in s.calls && SameCall(s.calls[t], k') && Workers(s)
    ensures Workers(PutCall(s, t, k'))
  {
  }

  lemma RewriteBuffers(s: Board, t: Id, k': Call, closing: set<Id>)
    requires t in s.calls && SameCall(s.calls[t], k') && Buffers(s, closing)
    requires |k'.data| == |s.calls[t].data| || NobodyReads(s, t)
    ensures Buffers(PutCall(s, t, k'), closing)
  {
    var r := PutCall(s, t, k');
    forall c | c in r.clients && c !in closing && r.clients[c].conn.Receiving? && r.clients[c].conn.input.DataOf?
      ensures DataFits(r, c)
    {
      assert DataFits(s, c);
    }
  }

  lemma RewritePhases(s: Board, t: Id, k': Call, limbo: set<Id>)
    requires t in s.calls && SameCall(s.calls[t], k') && Phases(s, limbo) && Cds(s.calls, s.pool)
    ensures Phases(PutCall(s, t, k'), limbo) && Cds(PutCall(s, t, k').calls, s.pool)
  {
    var r := PutCall(s, t, k');
    forall u | Pending(r, u) && u !in limbo ensures Executing(r, u) || Queued(r, u) || Arriving(r, u) {
      assert Pending(s, u);
    }
    assert LiveCds(r.calls) <= LiveCds(s.calls);
  }

  lemma RewriteKeeps(s: Board, t: Id, k': Call, k: Slack)
    requires InvX(s, k) && t in s.calls && SameCall(s.calls[t], k')
    requires |k'.data| == |s.calls[t].data| || NobodyReads(s, t)
    ensures InvX(PutCall(s, t, k'), k)
  {
    hide Distinct, Tables, Lists, Queues, Workers, Buffers, Phases, Cds;
    RewriteTables(s, t, k', k.bare);
    RewriteLists(s, t, k');
    RewriteQueues(s, t, k');
    RewriteBuffers(s, t, k', k.closing);
    RewritePhases(s, t, k', k.limbo);
  }
}
