/** What every handler keeps. */
module Invariant {
  import opened Sequences
  import opened Descriptors
  import opened Board

  /**
   Where the invariant may be suspended in the middle of an operation: calls that are between two
   places, clients being deleted, and services whose last advertisement has just gone.
   */
  datatype Slack = Slack(limbo: set<Id>, closing: set<Id>, bare: set<Id>)

  const TIGHT := Slack({}, {}, {})

  /** The body of `t` is being read. */
  predicate Arriving(s: Board, t: Id) {
    t in s.calls && s.calls[t].client in s.clients
    && s.clients[s.calls[t].client].conn.Receiving?
    && s.clients[s.calls[t].client].conn.handler == CallBody
    && s.clients[s.calls[t].client].conn.input == DataOf(t)
  }

  predicate Queued(s: Board, t: Id) {
    t in s.calls && s.calls[t].svc in s.services && CallNode(t) in s.services[s.calls[t].svc].waitq
  }

  predicate Executing(s: Board, t: Id) {
    t in s.calls && s.calls[t].executor.Some?
  }

  predicate Pending(s: Board, t: Id) {
    t in s.calls && s.calls[t].client in s.clients && t in s.clients[s.calls[t].client].requests
  }

  predicate Done(s: Board, t: Id) {
    t in s.calls && s.calls[t].client in s.clients && t in s.clients[s.calls[t].client].replies
  }

  /** The client's handler is armed or on the stack: it is not parked. */
  predicate Awake(cl: Client) {
    cl.conn.Receiving? || cl.conn.Running?
  }

  // ---------- tables ----------

  ghost predicate Serials(s: Board) {
    && (forall c :: c in s.clients ==> c < s.next)
    && (forall v :: v in s.services ==> v < s.next)
    && (forall t :: t in s.calls ==> t < s.next)
  }

  /** The index is the set of live services by name. */
  ghost predicate Indexed(s: Board) {
    && (forall n :: n in s.index ==> s.index[n] in s.services && s.services[s.index[n]].name == n)
    && (forall v :: v in s.services ==> s.services[v].name in s.index && s.index[s.services[v].name] == v)
  }

  ghost predicate AdvertsLive(s: Board) {
    forall c, v :: c in s.clients && v in s.clients[c].adverts ==> v in s.services
  }

  /** Every service has an advertiser. */
  ghost predicate Offered(s: Board, bare: set<Id>) {
    forall v :: v in s.services && v !in bare ==> exists c :: Advertises(s, c, v)
  }

  ghost predicate Tables(s: Board, bare: set<Id>) {
    Serials(s) && Indexed(s) && AdvertsLive(s) && Offered(s, bare)
  }

  // ---------- lists ----------

  ghost predicate Held(s: Board) {
    forall t :: t in s.calls ==> Pending(s, t) || Done(s, t)
  }

  ghost predicate RequestsOwned(s: Board) {
    forall c, t {:trigger t in s.clients[c].requests} :: c in s.clients && t in s.clients[c].requests ==>
      t in s.calls && s.calls[t].client == c && t !in s.clients[c].replies
  }

  ghost predicate RepliesOwned(s: Board) {
    forall c, t :: c in s.clients && t in s.clients[c].replies ==>
      t in s.calls && s.calls[t].client == c && s.calls[t].executor.None?
  }

  ghost predicate ListsDistinct(s: Board) {
    forall c :: c in s.clients ==> Distinct(s.clients[c].requests) && Distinct(s.clients[c].replies)
  }

  /** Every call is on its submitter's `requests` or `replies`, once, and nowhere else. */
  ghost predicate Lists(s: Board) {
    Held(s) && RequestsOwned(s) && RepliesOwned(s) && ListsDistinct(s)
  }

  // ---------- queues ----------

  ghost predicate QueuesDistinct(s: Board) {
    forall v :: v in s.services ==> Distinct(s.services[v].waitq)
  }

  ghost predicate QueuedCalls(s: Board) {
    forall v, t :: v in s.services && CallNode(t) in s.services[v].waitq ==>
      s.services[v].holdsCalls && Pending(s, t) && s.calls[t].svc == v
      && s.calls[t].executor.None? && !Arriving(s, t)
  }

  ghost predicate QueuedWorkers(s: Board) {
    forall v, c :: v in s.services && WorkerNode(c) in s.services[v].waitq ==>
      !s.services[v].holdsCalls && Advertises(s, c, v) && s.clients[c].conn.IdleWorker?
  }

  ghost predicate IdleQueued(s: Board) {
    forall c, v :: c in s.clients && s.clients[c].conn.IdleWorker? && v in s.clients[c].adverts && v in s.services ==>
      WorkerNode(c) in s.services[v].waitq
  }

  /** A waiting call or worker is on the queues it belongs on, and `holdsCalls` tells which kind a queue has. */
  ghost predicate Queues(s: Board) {
    QueuesDistinct(s) && QueuedCalls(s) && QueuedWorkers(s) && IdleQueued(s)
  }

  // ---------- wait4 and executor ----------

  ghost predicate ExecutorWaits(s: Board) {
    forall t :: t in s.calls && s.calls[t].executor.Some? ==>
      var w := s.calls[t].executor.value;
      w in s.clients && s.clients[w].wait4 == For(t) && Awake(s.clients[w]) && s.calls[t].svc in s.clients[w].adverts
  }

  ghost predicate WaiterExecutes(s: Board) {
    forall c :: c in s.clients && Awake(s.clients[c]) && s.clients[c].wait4.For? ==>
      s.clients[c].wait4.call in s.calls && s.calls[s.clients[c].wait4.call].executor == Some(c)
  }

  ghost predicate IdleFree(s: Board) {
    forall c :: c in s.clients && s.clients[c].conn.IdleWorker? ==> s.clients[c].wait4.Nothing?
  }

  /** `executor` and the `wait4` of a client that is not parked are inverse. */
  ghost predicate Workers(s: Board) {
    ExecutorWaits(s) && WaiterExecutes(s) && IdleFree(s)
  }

  ghost predicate AnyWaits(s: Board) {
    forall c :: c in s.clients && s.clients[c].wait4.AnyReply? ==>
      s.clients[c].conn.AwaitReply? && s.clients[c].replies == []
  }

  ghost predicate CallWaits(s: Board) {
    forall c :: c in s.clients && s.clients[c].conn.AwaitReply? && s.clients[c].wait4.For? ==>
      s.clients[c].wait4.call in s.clients[c].requests
  }

  /** Nobody waits for a reply that is there. */
  ghost predicate Waiters(s: Board) {
    AnyWaits(s) && CallWaits(s)
  }

  // ---------- input buffers ----------

  predicate ScratchFits(conn: Conn)
    requires conn.Receiving? && conn.input.Scratch?
  {
    !conn.handler.CallBody? && !conn.handler.ReturnBody?
    && |conn.input.bytes| == CommandLength(conn.handler) && conn.used < |conn.input.bytes|
  }

  /** A body being read belongs to the last request, and a reply body to the call the worker executes. */
  predicate DataFits(s: Board, c: Id)
    requires c in s.clients && s.clients[c].conn.Receiving? && s.clients[c].conn.input.DataOf?
  {
    var cl := s.clients[c];
    var t := cl.conn.input.call;
    if cl.conn.handler.CallBody? then
      t in s.calls && cl.requests != [] && Last(cl.requests) == t && s.calls[t].executor.None?
      && cl.conn.used < |s.calls[t].data|
    else
      cl.conn.handler.ReturnBody?
      && (if t in s.calls then cl.wait4 == For(t) && cl.conn.used < |s.calls[t].data| else cl.wait4 == Nothing)
  }

  ghost predicate ScratchOk(s: Board, closing: set<Id>) {
    forall c :: c in s.clients && c !in closing && s.clients[c].conn.Receiving? && s.clients[c].conn.input.Scratch? ==>
      ScratchFits(s.clients[c].conn)
  }

  ghost predicate DataOk(s: Board, closing: set<Id>) {
    forall c :: c in s.clients && c !in closing && s.clients[c].conn.Receiving? && s.clients[c].conn.input.DataOf? ==>
      DataFits(s, c)
  }

  ghost predicate DataSerial(s: Board) {
    forall c :: c in s.clients && s.clients[c].conn.Receiving? && s.clients[c].conn.input.DataOf? ==>
      s.clients[c].conn.input.call < s.next
  }

  ghost predicate Buffers(s: Board, closing: set<Id>) {
    ScratchOk(s, closing) && DataOk(s, closing) && DataSerial(s)
  }

  /** A pending call is arriving, queued or executing. */
  ghost predicate Phases(s: Board, limbo: set<Id>) {
    forall t :: Pending(s, t) && t !in limbo ==> Executing(s, t) || Queued(s, t) || Arriving(s, t)
  }

  // ---------- descriptors ----------

  /** Live calls have different descriptors, none of them zero. */
  ghost predicate CdsDistinct(calls: map<Id, Call>) {
    && (forall t :: t in calls ==> calls[t].cd != 0)
    && (forall t, u :: t in calls && u in calls && t != u ==> calls[t].cd != calls[u].cd)
  }

  ghost predicate Cds(calls: map<Id, Call>, pool: Pool) {
    CdsDistinct(calls) && PoolFresh(pool, LiveCds(calls))
  }

  ghost predicate InvX(s: Board, k: Slack) {
    && Tables(s, k.bare)
    && Lists(s)
    && Queues(s)
    && Workers(s)
    && Waiters(s)
    && Buffers(s, k.closing)
    && Phases(s, k.limbo)
    && Cds(s.calls, s.pool)
  }

  /** Between events no handler is on the stack. */
  ghost predicate Settled(s: Board) {
    forall c :: c in s.clients ==> !s.clients[c].conn.Running?
  }

  ghost predicate Inv(s: Board) {
    InvX(s, TIGHT) && Settled(s)
  }
}
