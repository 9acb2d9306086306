/** One event from a good state. */
module Steps {
  import opened Sequences
  import opened Wire
  import opened Descriptors
  import opened Board
  import opened Invariant
  import opened Touch
  import opened Answer
  import opened Dispatch
  import opened Registry
  import opened Departure
  import opened Handlers

  // ---------- svrgetrply ----------

  function Await(s: Board, c: Id, target: Wait): Board
    requires c in s.clients
  {
    PutClient(s, c, s.clients[c].(conn := AwaitReply, wait4 := target))
  }

  predicate CanAwait(cl: Client, target: Wait) {
    cl.conn.Running? && cl.wait4 == Nothing
    && (match target case Nothing => false case AnyReply => cl.replies == [] case For(t) => t in cl.requests)
  }

  lemma AwaitQueues(s: Board, c: Id, target: Wait)
    requires c in s.clients && CanAwait(s.clients[c], target) && Queues(s) && Workers(s) && Waiters(s)
    ensures Queues(Await(s, c, target)) && Workers(Await(s, c, target)) && Waiters(Await(s, c, target))
  {
    hide Distinct, QueuedCalls, Workers, Waiters, CanAwait, Await;
    AwaitQueuesKept(s, c, target);
    AwaitWorkers(s, c, target);
  }

  lemma AwaitQueuesKept(s: Board, c: Id, target: Wait)
    requires c in s.clients && CanAwait(s.clients[c], target) && Queues(s)
    ensures Queues(Await(s, c, target))
  {
    hide Distinct;
    var r := Await(s, c, target);
    forall v, u | v in r.services && CallNode(u) in r.services[v].waitq ensures Pending(r, u) && !Arriving(r, u) {
      assert CallNode(u) in s.services[v].waitq && Pending(s, u) && !Arriving(s, u);
    }
  }

  lemma AwaitWorkers(s: Board, c: Id, target: Wait)
    requires c in s.clients && CanAwait(s.clients[c], target) && Workers(s) && Waiters(s)
    ensures Workers(Await(s, c, target)) && Waiters(Await(s, c, target))
  {
  }

  lemma AwaitBuffers(s: Board, c: Id, target: Wait)
    requires c in s.clients && CanAwait(s.clients[c], target) && Buffers(s, {}) && Phases(s, {})
    ensures Buffers(Await(s, c, target), {}) && Phases(Await(s, c, target), {})
  {
    var r := Await(s, c, target);
    forall d | d in r.clients && r.clients[d].conn.Receiving? && r.clients[d].conn.input.DataOf?
      ensures DataFits(r, d)
    {
      assert DataFits(s, d);
    }
    forall u | Pending(r, u) ensures Executing(r, u) || Queued(r, u) || Arriving(r, u) {
      assert Pending(s, u);
    }
  }

  lemma AwaitKeeps(s: Board, c: Id, target: Wait)
    requires InHandler(s, c, {}) && CanAwait(s.clients[c], target)
    ensures Inv(Await(s, c, target))
  {
    hide Distinct, Tables, Lists, Queues, Workers, Waiters, Buffers, Phases, Cds;
    TouchTables(s, c, s.clients[c].(conn := AwaitReply, wait4 := target), {});
    TouchLists(s, c, s.clients[c].(conn := AwaitReply, wait4 := target));
    AwaitQueues(s, c, target);
    AwaitBuffers(s, c, target);
  }

  /** `svrgetrply` answers with an error code. */
  predicate AnsweredWithError(s: Board, cl: Client, cd: Short, flags: int) {
    ReplyReady(s.calls, cl.replies, cd, flags).None? && (WaitTarget(s.calls, cl.requests, cd, flags) == Nothing || FlagSet(flags, TPNOBLOCK))
  }

  /** A worker with a call may only ask for a reply that it does not get and does not wait for. */
  predicate GetReplyOk(s: Board, c: Id, cd: Short, flags: int) {
    c in s.clients && (s.clients[c].wait4 == Nothing || AnsweredWithError(s, s.clients[c], cd, flags))
  }

  lemma InvOwned(s: Board, k: Slack)
    requires InvX(s, k)
    ensures RequestsOwned(s) && RepliesOwned(s)
  {
    hide Distinct, Tables, Queues, Workers, Waiters, Buffers, Phases, Cds;
  }

  lemma SvrGetReplyKeeps(s: Board, c: Id, cd: Short, flags: int)
    requires InHandler(s, c, {}) && GetReplyOk(s, c, cd, flags)
    ensures SvrGetReply(s, c, cd, flags).Ok? && Inv(SvrGetReply(s, c, cd, flags).board)
    ensures SvrGetReply(s, c, cd, flags).board.clients.Keys == s.clients.Keys
  {
    hide InvX, Distinct, Without, SndReply, FlagSet;
    InvOwned(s, TIGHT);
    var cl := s.clients[c];
    match ReplyReady(s.calls, cl.replies, cd, flags)
    case Some(t) =>
      assert t in cl.replies;
      assert TIGHT.(limbo := TIGHT.limbo - {t}) == TIGHT;
      SndReplyKeeps(s, t, TIGHT);
      SndReplyFrames(s, t);
    case None =>
      var target := WaitTarget(s.calls, cl.requests, cd, flags);
      if target == Nothing {
        SayInHandler(s, c, {}, NoReply(c, TPEBADDESC));
        NextCommandSettles(Say(s, NoReply(c, TPEBADDESC)), c);
      } else if FlagSet(flags, TPNOBLOCK) {
        SayInHandler(s, c, {}, NoReply(c, TPEBLOCK));
        NextCommandSettles(Say(s, NoReply(c, TPEBLOCK)), c);
      } else {
        AwaitKeeps(s, c, target);
      }
  }

  // ---------- svradvertise and svrunadvertise ----------

  lemma NewServiceClients(s: Board, name: Name)
    ensures NewService(s, name).clients == s.clients
  {
  }

  lemma SvrAdvertiseKeeps(s: Board, c: Id, name: Name, o: int)
    requires InHandler(s, c, {})
    ensures SvrAdvertise(s, c, name, o).Ok? && Inv(SvrAdvertise(s, c, name, o).board)
    ensures SvrAdvertise(s, c, name, o).board.clients.Keys == s.clients.Keys
  {
    hide InvX;
    InvIndexed(s, TIGHT);
    NewServiceKeeps(s, name, TIGHT);
    NewServiceClients(s, name);
    var s1, k := NewService(s, name), TIGHT.(bare := Bared(s, name, {}));
    InvIndexed(s1, k);
    var v, cl := s1.index[name], s.clients[c];
    if v in cl.adverts && cl.adverts[v] != o {
      assert v in s.clients[c].adverts && v in s.services;
      assert name in s.index;
      SayInHandler(s, c, {}, Status(c, TPEMATCH));
      NextCommandSettles(Say(s, Status(c, TPEMATCH)), c);
    } else {
      AddAdvertKeeps(s1, c, v, o, k);
      assert k.(bare := k.bare - {v}) == TIGHT;
      var s2 := AddAdvert(s1, c, v, o);
      SayInHandler(s2, c, {}, Status(c, 0));
      NextCommandSettles(Say(s2, Status(c, 0)), c);
    }
  }

  predicate ExecutesAt(s: Board, c: Id, v: Id) {
    c in s.clients && s.clients[c].wait4.For? && s.clients[c].wait4.call in s.calls
    && s.calls[s.clients[c].wait4.call].svc == v
  }

  /** A worker does not withdraw the service it is executing. */
  predicate UnadvertiseOk(s: Board, c: Id, name: Name) {
    name in s.index && Advertises(s, c, s.index[name]) ==> !ExecutesAt(s, c, s.index[name])
  }

  lemma NotExecuting(s: Board, c: Id, v: Id, k: Slack)
    requires InvX(s, k) && !ExecutesAt(s, c, v)
    ensures NotExecutingAt(s, c, v)
  {
    hide Distinct, Tables, Lists, Queues, Waiters, Buffers, Phases, Cds;
  }

  lemma SvrUnadvertiseKeeps(s: Board, c: Id, name: Name)
    requires InHandler(s, c, {}) && UnadvertiseOk(s, c, name)
    ensures SvrUnadvertise(s, c, name).Ok? && Inv(SvrUnadvertise(s, c, name).board)
    ensures SvrUnadvertise(s, c, name).board.clients.Keys == s.clients.Keys
  {
    hide InvX, DelAdvert, NotExecutingAt;
    if name !in s.index || !Advertises(s, c, s.index[name]) {
      SayInHandler(s, c, {}, Status(c, TPENOENT));
      NextCommandSettles(Say(s, Status(c, TPENOENT)), c);
    } else {
      var v := s.index[name];
      NotExecuting(s, c, v, TIGHT);
      DelAdvertKeeps(s, c, v, TIGHT);
      var s1 := DelAdvert(s, c, v).board;
      LessQuiet(s, s1, c);
      SayInHandler(s1, c, {}, Status(c, 0));
      NextCommandSettles(Say(s1, Status(c, 0)), c);
    }
  }

  // ---------- accept ----------

  function AddClient(s: Board): Board {
    s.(clients := s.clients[s.next := Client(Running, Nothing, map[], [], [])], next := s.next + 1)
  }

  lemma AddClientTables(s: Board)
    requires Tables(s, {})
    ensures Tables(AddClient(s), {})
  {
    var r := AddClient(s);
    forall x | x in r.services ensures exists c :: Advertises(r, c, x) {
      var d :| Advertises(s, d, x);
      assert Advertises(r, d, x);
    }
  }

  lemma AddClientHeld(s: Board)
    requires Serials(s) && Held(s)
    ensures Held(AddClient(s))
  {
    var r := AddClient(s);
    forall u | u in r.calls ensures Pending(r, u) || Done(r, u) {
      assert Pending(s, u) || Done(s, u);
    }
  }

  lemma AddClientRequests(s: Board)
    requires RequestsOwned(s)
    ensures RequestsOwned(AddClient(s))
  {
    var r := AddClient(s);
    forall c, u | c in r.clients && u in r.clients[c].requests ensures u in r.calls && r.calls[u].client == c {
      assert c != s.next && u in s.clients[c].requests;
    }
    forall c, u | c in r.clients && u in r.clients[c].requests ensures u !in r.clients[c].replies {
      assert c != s.next && u in s.clients[c].requests;
    }
  }

  lemma AddClientReplies(s: Board)
    requires RepliesOwned(s)
    ensures RepliesOwned(AddClient(s))
  {
    var r := AddClient(s);
    forall c, u | c in r.clients && u in r.clients[c].replies
      ensures u in r.calls && r.calls[u].client == c && r.calls[u].executor.None?
    {
      assert c != s.next && u in s.clients[c].replies;
    }
  }

  lemma AddClientLists(s: Board)
    requires Serials(s) && Lists(s)
    ensures Lists(AddClient(s))
  {
    hide Serials, Held, RequestsOwned, RepliesOwned;
    AddClientHeld(s);
    AddClientRequests(s);
    AddClientReplies(s);
  }

  lemma AddClientQueues(s: Board)
    requires Serials(s) && Queues(s)
    ensures Queues(AddClient(s))
  {
    hide Distinct;
  }

  lemma AddClientWorkers(s: Board)
    requires Serials(s) && Workers(s) && Waiters(s)
    ensures Workers(AddClient(s)) && Waiters(AddClient(s))
  {
  }

  lemma AddClientBuffers(s: Board)
    requires Serials(s) && Buffers(s, {}) && Phases(s, {})
    ensures Buffers(AddClient(s), {}) && Phases(AddClient(s), {})
  {
    var r := AddClient(s);
    forall d | d in r.clients && r.clients[d].conn.Receiving? && r.clients[d].conn.input.DataOf?
      ensures DataFits(r, d)
    {
      assert DataFits(s, d);
    }
    forall u | Pending(r, u) ensures Executing(r, u) || Queued(r, u) || Arriving(r, u) {
      assert Pending(s, u);
    }
  }

  lemma ConnectKeeps(s: Board)
    requires Inv(s)
    ensures Connect(s).Ok? && Inv(Connect(s).board) && Connect(s).board.clients.Keys == s.clients.Keys + {s.next}
  {
    hide Distinct, Offered, Indexed, AdvertsLive, Lists, Queues, Workers, Waiters, Buffers, Phases, Cds;
    AddClientTables(s);
    AddClientLists(s);
    AddClientQueues(s);
    AddClientWorkers(s);
    AddClientBuffers(s);
    NextCommandSettles(AddClient(s), s.next);
  }

  // ---------- reads ----------

  lemma UnarmQuiet(s: Board, c: Id)
    requires Settled(s) && c in s.clients
    ensures Quiet(Unarm(s, c), c) && Unarm(s, c).clients[c].conn.Running? && Unarm(s, c).clients.Keys == s.clients.Keys
  {
  }

  lemma UnarmScratch(s: Board, c: Id)
    requires Inv(s) && c in s.clients && s.clients[c].conn.Receiving? && s.clients[c].conn.input.Scratch?
    ensures InHandler(Unarm(s, c), c, {})
  {
    hide InvX;
    UnarmQuiet(s, c);
    assert Unarm(s, c) == Reconn(s, c, Running);
    ReconnKeeps(s, c, Running, TIGHT, {});
  }

  lemma InvFits(s: Board, c: Id)
    requires Inv(s) && c in s.clients && s.clients[c].conn.Receiving?
    ensures if s.clients[c].conn.input.Scratch? then ScratchFits(s.clients[c].conn)
            else DataFits(s, c) && s.clients[c].conn.input.call < s.next
  {
    hide Distinct, Tables, Lists, Queues, Workers, Waiters, Phases, Cds;
  }

  /** More bytes are to come. */
  lemma PartialKeeps(s: Board, c: Id, conn: Conn)
    requires Inv(s) && c in s.clients && s.clients[c].conn.Receiving? && conn.Receiving?
    requires conn.handler == s.clients[c].conn.handler && (conn.input.DataOf? || s.clients[c].conn.input.DataOf? ==> conn.input == s.clients[c].conn.input)
    requires Fits(Reconn(s, c, conn), c)
    ensures Inv(Reconn(s, c, conn))
  {
    hide InvX;
    forall t | ReadsBody(conn, t) ensures OnNoQueue(s, t) {
      assert s.clients[c].conn.input == DataOf(t);
      ArrivingOnNoQueue(s, c, t);
    }
    ReconnKeeps(s, c, conn, TIGHT, {});
  }

  lemma ArrivingOnNoQueue(s: Board, c: Id, t: Id)
    requires Inv(s) && c in s.clients && ReadsBody(s.clients[c].conn, t)
    ensures OnNoQueue(s, t) && Arriving(s, t) && Ready(Unarm(s, c), t) && s.calls[t].client == c
    ensures s.clients[c].requests != [] && Last(s.clients[c].requests) == t
  {
    hide InvX, Distinct, IdleQueued, QueuedWorkers, Workers, RepliesOwned;
    InvFits(s, c);
    InvQueues(s, TIGHT);
    InvOwned(s, TIGHT);
    assert t in s.clients[c].requests;
    assert Arriving(s, t);
  }

  lemma UnarmBody(s: Board, c: Id, t: Id)
    requires Inv(s) && c in s.clients && ReadsBody(s.clients[c].conn, t)
    ensures InHandler(Unarm(s, c), c, {t}) && Ready(Unarm(s, c), t) && OnNoQueue(Unarm(s, c), t)
  {
    hide InvX;
    UnarmQuiet(s, c);
    ArrivingOnNoQueue(s, c, t);
    assert Unarm(s, c) == Reconn(s, c, Running);
    ReconnKeeps(s, c, Running, TIGHT, {t});
  }

  lemma UnarmReturn(s: Board, c: Id)
    requires Inv(s) && c in s.clients && s.clients[c].conn.Receiving? && s.clients[c].conn.handler == ReturnBody
    ensures InHandler(Unarm(s, c), c, {})
  {
    hide InvX;
    UnarmQuiet(s, c);
    assert Unarm(s, c) == Reconn(s, c, Running);
    ReconnKeeps(s, c, Running, TIGHT, {});
  }

  // ---------- what may happen, and what must not ----------

  function Need(s: Board, c: Id): nat
    requires c in s.clients && s.clients[c].conn.Receiving? && LiveInput(s, c)
  {
    match s.clients[c].conn.input
    case Scratch(b) => |b|
    case DataOf(t) => |s.calls[t].data|
  }

  /** What the operating system and the library do: read at most the room left, walk a tree, fill ten random numbers. */
  ghost predicate Possible(s: Board, e: Event) {
    match e
    case Arrive => true
    case Leave(c, order) => c in s.clients && Walks(order, s.clients[c].adverts.Keys)
    case Read(c, chunk, env) =>
      && c in s.clients && Walks(env.order, s.clients[c].adverts.Keys) && GoodBatches(env.batches)
      && (s.clients[c].conn.Receiving? && LiveInput(s, c) ==> 0 < |chunk| <= Need(s, c) - s.clients[c].conn.used)
  }

  predicate Completes(s: Board, c: Id, chunk: seq<byte>)
    requires c in s.clients && s.clients[c].conn.Receiving? && LiveInput(s, c)
  {
    s.clients[c].conn.used + |chunk| == Need(s, c)
  }

  /** The departure of `c` does not strand a client that waits for any reply. */
  predicate LeaveOk(fx: Fixes, s: Board, c: Id) {
    fx.wakeAny || !AbandonsAnyWaiter(s, c)
  }

  ghost predicate CommandOk(fx: Fixes, s: Board, c: Id, b: byte) {
    if b == TPTWORK then WorkOk(fx, s, c)
    else CommandHandler(b).None? ==> LeaveOk(fx, s, c)
  }

  /** The handler `h` is called with `b`. */
  ghost predicate HandlerOk(fx: Fixes, s: Board, c: Id, h: Handler, b: seq<byte>, env: Env)
    requires !h.CallBody? && !h.ReturnBody? && |b| == CommandLength(h)
  {
    match h
    case Command => CommandOk(fx, s, c, b[0])
    case Acall => CallOk(s, CutName(b), ToLong(b, NAME_LENGTH), env)
    case GetReply => GetReplyOk(s, c, AsShort(ToShort(b, 0)), ToLong(b, IOSHORT))
    case Advertise => true
    case Unadvertise => UnadvertiseOk(s, c, CutName(b))
    case Return => ReturnOk(s, c, ToLong(b, 1 + IOLONG))
  }

  /** The bytes go to a live buffer, and a call whose body is complete finds its service. */
  predicate DataReadOk(s: Board, c: Id, chunk: seq<byte>)
    requires c in s.clients && s.clients[c].conn.Receiving? && s.clients[c].conn.input.DataOf?
  {
    LiveInput(s, c)
    && (Completes(s, c, chunk) && s.clients[c].conn.handler == CallBody ==>
          s.calls[s.clients[c].conn.input.call].svc in s.services)
  }

  /** Everything that must be true of an event for the switchboard to stay sound. */
  ghost predicate Allowed(fx: Fixes, s: Board, e: Event)
    requires Possible(s, e)
  {
    match e
    case Arrive => true
    case Leave(c, _) => !DeadInput(s, c) && LeaveOk(fx, s, c)
    case Read(c, chunk, env) =>
      var conn := s.clients[c].conn;
      if !conn.Receiving? then LeaveOk(fx, s, c)
      else if conn.input.DataOf? then DataReadOk(s, c, chunk)
      else ScratchFits(conn) && (Completes(s, c, chunk) ==>
             HandlerOk(fx, s, c, conn.handler, Splice(conn.input.bytes, conn.used, chunk), env))
  }

  // ---------- every allowed event keeps the invariant ----------

  lemma SettledQuiet(s: Board, c: Id)
    requires Settled(s)
    ensures Quiet(s, c)
  {
  }

  /** No command begins with this byte. */
  predicate Unknown(b: byte) {
    b != TPTWORK && CommandHandler(b).None?
  }

  /** Bytes that make the switchboard hang up on `c`: any at all while it is parked, or an unknown command. */
  predicate HangsUp(s: Board, c: Id, chunk: seq<byte>) {
    c in s.clients && (!s.clients[c].conn.Receiving? || (s.clients[c].conn.handler.Command? && chunk != [] && Unknown(chunk[0])))
  }

  function Remaining(keys: set<Id>, c: Id, goes: bool): set<Id> {
    if goes then keys - {c} else keys
  }

  lemma RunCommandKeeps(fx: Fixes, s: Board, c: Id, b: byte, env: Env)
    requires InHandler(s, c, {}) && Walks(env.order, s.clients[c].adverts.Keys) && CommandOk(fx, s, c, b)
    ensures RunCommand(fx, s, c, b, env).Ok? && Inv(RunCommand(fx, s, c, b, env).board)
    ensures RunCommand(fx, s, c, b, env).board.clients.Keys == Remaining(s.clients.Keys, c, Unknown(b))
  {
    hide InvX, Walks, SvrService, DelClient, WorkOk;
    if b == TPTWORK {
      SvrServiceKeeps(fx, s, c, env);
    } else {
      match CommandHandler(b)
      case Some(h) =>
        var conn := Receiving(h, Scratch([b] + ZeroBytes(CommandLength(h) - 1)), 0);
        assert RunCommand(fx, s, c, b, env) == Ok(Reconn(s, c, conn));
        ReconnKeeps(s, c, conn, TIGHT, {});
      case None =>
        DelClientKeeps(fx, s, c, env.order);
    }
  }

  /** Unarming `c` changes none of the things an event is judged by. */
  lemma UnarmJudges(fx: Fixes, s: Board, c: Id, h: Handler, b: seq<byte>, env: Env)
    requires c in s.clients && !h.CallBody? && !h.ReturnBody? && |b| == CommandLength(h)
    ensures HandlerOk(fx, Unarm(s, c), c, h, b, env) <==> HandlerOk(fx, s, c, h, b, env)
  {
    hide FlagSet, DrawsWell, CutName, ToLong, ToShort;
    var r := Unarm(s, c);
    assert forall v :: CallsWaiting(r, v) <==> CallsWaiting(s, v);
  }

  lemma RunHandlerKeeps(fx: Fixes, s: Board, c: Id, h: Handler, b: seq<byte>, env: Env)
    requires InHandler(s, c, {}) && Walks(env.order, s.clients[c].adverts.Keys) && GoodBatches(env.batches)
    requires !h.CallBody? && !h.ReturnBody? && |b| == CommandLength(h) && HandlerOk(fx, s, c, h, b, env)
    ensures RunHandler(fx, s, c, h, b, env).Ok? && Inv(RunHandler(fx, s, c, h, b, env).board)
    ensures RunHandler(fx, s, c, h, b, env).board.clients.Keys == Remaining(s.clients.Keys, c, h.Command? && Unknown(b[0]))
  {
    hide InHandler, Inv, Walks, GoodBatches, RunCommand, SvrAcall, SvrGetReply, SvrAdvertise, SvrUnadvertise, SvrReturn;
    hide CommandOk, CallOk, GetReplyOk, UnadvertiseOk, ReturnOk, CutName, ToLong, ToShort;
    assert c in s.clients by { HandlerClient(s, c); }
    match h
    case Command => RunCommandKeeps(fx, s, c, b[0], env);
    case Acall => SvrAcallKeeps(fx, s, c, CutName(b), ToLong(b, NAME_LENGTH), ToLong(b, NAME_LENGTH + IOLONG), env);
    case GetReply => SvrGetReplyKeeps(s, c, AsShort(ToShort(b, 0)), ToLong(b, IOSHORT));
    case Advertise => SvrAdvertiseKeeps(s, c, CutName(b), ToLong(b, NAME_LENGTH));
    case Unadvertise => SvrUnadvertiseKeeps(s, c, CutName(b));
    case Return => SvrReturnKeeps(s, c, b[0], ToLong(b, 1), ToLong(b, 1 + IOLONG));
  }

  lemma HandlerClient(s: Board, c: Id)
    requires InHandler(s, c, {})
    ensures c in s.clients
  {
    hide InvX;
  }

  lemma ReadScratchKeeps(fx: Fixes, s: Board, c: Id, chunk: seq<byte>, env: Env)
    requires Inv(s) && Possible(s, Read(c, chunk, env)) && Allowed(fx, s, Read(c, chunk, env))
    requires s.clients[c].conn.Receiving? && s.clients[c].conn.input.Scratch?
    ensures ReadScratch(fx, s, c, chunk, env).Ok? && Inv(ReadScratch(fx, s, c, chunk, env).board)
    ensures ReadScratch(fx, s, c, chunk, env).board.clients.Keys == Remaining(s.clients.Keys, c, HangsUp(s, c, chunk))
  {
    hide InvX, Walks, GoodBatches, HandlerOk, RunHandler;
    var Receiving(h, input, used) := s.clients[c].conn;
    var b := Splice(input.bytes, used, chunk);
    if used + |chunk| < |b| {
      var conn := Receiving(h, Scratch(b), used + |chunk|);
      PartialKeeps(s, c, conn);
      assert ReadScratch(fx, s, c, chunk, env) == Ok(Reconn(s, c, conn));
    } else {
      UnarmScratch(s, c);
      UnarmJudges(fx, s, c, h, b, env);
      RunHandlerKeeps(fx, Unarm(s, c), c, h, b, env);
    }
  }

  lemma RewriteDataKeeps(s: Board, t: Id, b: seq<byte>)
    requires Inv(s) && t in s.calls && |b| == |s.calls[t].data|
    ensures Inv(PutCall(s, t, s.calls[t].(data := b)))
  {
    hide InvX;
    RewriteKeeps(s, t, s.calls[t].(data := b), TIGHT);
  }

  lemma ReadDataKeeps(fx: Fixes, s: Board, c: Id, chunk: seq<byte>, env: Env)
    requires Inv(s) && Possible(s, Read(c, chunk, env)) && Allowed(fx, s, Read(c, chunk, env))
    requires s.clients[c].conn.Receiving? && s.clients[c].conn.input.DataOf?
    ensures ReadData(fx, s, c, chunk).Ok? && Inv(ReadData(fx, s, c, chunk).board)
    ensures ReadData(fx, s, c, chunk).board.clients.Keys == s.clients.Keys
  {
    hide InvX, Walks, GoodBatches, SendToWorker, Part2, OnNoQueue;
    var Receiving(h, input, used) := s.clients[c].conn;
    var t := input.call;
    InvFits(s, c);
    var b := Splice(s.calls[t].data, used, chunk);
    RewriteDataKeeps(s, t, b);
    var s1 := PutCall(s, t, s.calls[t].(data := b));
    if used + |chunk| < |b| {
      PartialKeeps(s1, c, Receiving(h, input, used + |chunk|));
    } else if h.CallBody? {
      UnarmBody(s1, c, t);
      ArrivingOnNoQueue(s1, c, t);
      SayInHandler(Unarm(s1, c), c, {t}, Submitted(c, t, b));
      SayOnNoQueue(Unarm(s1, c), Submitted(c, t, b), t);
      SendToWorkerKeeps(fx, Say(Unarm(s1, c), Submitted(c, t, b)), c, t);
    } else {
      UnarmReturn(s1, c);
      var e := Returned(c, t, s.calls[t].rval, s.calls[t].rcode, b);
      SayInHandler(Unarm(s1, c), c, {}, e);
      Part2Keeps(Say(Unarm(s1, c), e), c);
    }
  }

  /** The clients there are after event `e`. */
  ghost predicate ClientsAfter(s: Board, e: Event, r: Board) {
    match e
    case Arrive => r.clients.Keys == s.clients.Keys + {s.next}
    case Leave(c, _) => r.clients.Keys == s.clients.Keys - {c}
    case Read(c, chunk, _) => r.clients.Keys == Remaining(s.clients.Keys, c, HangsUp(s, c, chunk))
  }

  lemma DepartureKeeps(fx: Fixes, s: Board, c: Id, order: seq<Id>)
    requires Inv(s) && c in s.clients && Walks(order, s.clients[c].adverts.Keys) && LeaveOk(fx, s, c)
    ensures DelClient(fx, s, c, order).Ok? && Inv(DelClient(fx, s, c, order).board)
    ensures DelClient(fx, s, c, order).board.clients.Keys == s.clients.Keys - {c}
  {
    hide InvX, DelClient, Walks;
    SettledQuiet(s, c);
    DelClientKeeps(fx, s, c, order);
  }

  /** An allowed event does not fault and keeps the invariant; and it disconnects nobody but its own client, exactly when it should. */
  lemma StepKeeps(fx: Fixes, s: Board, e: Event)
    requires Inv(s) && Possible(s, e) && Allowed(fx, s, e)
    ensures Step(fx, s, e).Ok? && Inv(Step(fx, s, e).board) && ClientsAfter(s, e, Step(fx, s, e).board)
  {
    hide Inv, DelClient, Walks, GoodBatches, ReadScratch, ReadData, Connect, DataReadOk, LeaveOk, HandlerOk;
    match e
    case Arrive => ConnectKeeps(s);
    case Leave(c, order) => DepartureKeeps(fx, s, c, order);
    case Read(c, chunk, env) =>
      if !s.clients[c].conn.Receiving? {
        DepartureKeeps(fx, s, c, env.order);
      } else if s.clients[c].conn.input.Scratch? {
        ReadScratchKeeps(fx, s, c, chunk, env);
      } else {
        InvFits(s, c);
        ReadDataKeeps(fx, s, c, chunk, env);
      }
  }
}
