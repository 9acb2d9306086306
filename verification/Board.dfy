/**
 The switchboard's state and what one event does to it, as a value and functions on it.

 An operation that dereferences a dead or null pointer, casts a queue head to the wrong
 structure, or fails one of the program's own assertions yields `Fault`.
 */
module Board {
  import opened Sequences
  import opened Wire
  import opened Descriptors

  /** Clients, services and transactions ("calls") are named by serial numbers that are never used again. */
  type Id = nat

  /** `wait4`: nothing, the "any reply" sentinel, or one call. */
  datatype Wait = Nothing | AnyReply | For(call: Id)

  datatype Handler = Command | Acall | GetReply | Advertise | Unadvertise | Return | CallBody | ReturnBody

  /** `input`: a buffer of the connection's own, or the data buffer of a call. */
  datatype Buffer = Scratch(bytes: seq<byte>) | DataOf(call: Id)

  /**
   `Receiving` is an armed connection. The other three have no handler: `Running` while its handler is
   on the stack, `IdleWorker` when parked by `svrservice`, `AwaitReply` when parked by `svrgetrply`.
   */
  datatype Conn =
    | Receiving(handler: Handler, input: Buffer, used: nat)
    | Running
    | IdleWorker
    | AwaitReply

  datatype Client = Client(
    conn: Conn,
    wait4: Wait,
    adverts: map<Id, int>,    // service advertised |-> opaque value given with it
    requests: seq<Id>,
    replies: seq<Id>)

  /** What a service's `waitq` links: a call, or the advertisement of a waiting worker. */
  datatype Node = CallNode(call: Id) | WorkerNode(client: Id)

  datatype Service = Service(name: Name, waitq: seq<Node>, holdsCalls: bool)

  datatype Call = Call(
    client: Id,
    svc: Id,
    arrival: int,
    flags: int,
    cd: Short,
    executor: Option<Id>,     // the worker whose advertisement of `svc` executes the call
    data: seq<byte>,
    rval: byte,
    rcode: int)

  /**
   What was written to a connection; and which bodies were received in full (`Submitted`, `Returned`) and
   which calls lost their worker (`Abandoned`).
   */
  datatype Entry =
    | Accepted(to: Id, call: Id, cd: Short, svc: Id, flags: int)
    | Refused(to: Id, errno: int)
    | Submitted(from: Id, call: Id, data: seq<byte>)
    | Handed(to: Id, call: Id, svc: Id, opaqueValue: int, name: Name, flags: int, cd: Short, data: seq<byte>)
    | Returned(worker: Id, call: Id, rval: byte, rcode: int, data: seq<byte>)
    | Abandoned(worker: Id, call: Id)
    | Replied(to: Id, call: Id, rval: byte, cd: Short, rcode: int, data: seq<byte>)
    | NoReply(to: Id, errno: int)
    | Status(to: Id, errno: int)

  datatype Board = Board(
    clients: map<Id, Client>,
    services: map<Id, Service>,
    index: map<Name, Id>,
    calls: map<Id, Call>,
    pool: Pool,
    next: Id,
    log: seq<Entry>)

  datatype Why = UseAfterFree | NullPointer | WrongCast | AssertFailed | Reentered | NoDescriptor

  datatype Outcome = Ok(board: Board) | Fault(why: Why) {
    predicate IsFailure() { Fault? }
    function PropagateFailure(): Outcome requires Fault? { this }
    function Extract(): Board requires Ok? { board }
  }

  /**
   Three lines of the program do not do what their comments and declarations say. Each flag selects the
   repaired line; all three false is the program as written.
   */
  datatype Fixes = Fixes(
    unlink: bool,     // a call dispatched by svrservice leaves the service's waitq
    wakeAny: bool,    // del_client compares wait4 with the sentinel svrgetrply stored
    oldest: bool)     // find_earliest keeps the smaller arrival

  const AS_WRITTEN := Fixes(false, false, false)
  const REPAIRED := Fixes(true, true, true)

  /** What an operation learns from its surroundings: the clock, the order of a tree walk, random batches. */
  datatype Env = Env(now: int, order: seq<Id>, batches: seq<seq<Short>>)

  const TPNOBLOCK := 0x01
  const TPGETANY := 0x80
  const TPEBADDESC := 2
  const TPEBLOCK := 3
  const TPENOENT := 6
  const TPESVCERR := 10
  const TPEMATCH := 23
  const TPERRNO: byte := 3

  predicate FlagSet(flags: int, bit: int)
    requires bit > 0
  {
    flags / bit % 2 == 1
  }

  const EMPTY := Board(map[], map[], map[], map[], Pool(Zeros(NUM_FREE_CD), 0), 0, [])

  // ---------- small updates ----------

  function Say(s: Board, e: Entry): Board {
    s.(log := s.log + [e])
  }

  function PutClient(s: Board, c: Id, cl: Client): Board {
    s.(clients := s.clients[c := cl])
  }

  function PutCall(s: Board, t: Id, k: Call): Board {
    s.(calls := s.calls[t := k])
  }

  function ZeroBytes(n: nat): (r: seq<byte>)
    ensures |r| == n
  {
    seq(n, i => 0)
  }

  /** `svriowait` for a buffer of positive length. */
  function Arm(s: Board, c: Id, h: Handler, input: Buffer): Outcome {
    if c !in s.clients then Fault(UseAfterFree)
    else if s.clients[c].conn.Receiving? then Fault(AssertFailed)
    else Ok(PutClient(s, c, s.clients[c].(conn := Receiving(h, input, 0))))
  }

  function NextCommand(s: Board, c: Id): Outcome {
    Arm(s, c, Command, Scratch(ZeroBytes(1)))
  }

  // ---------- transactions ----------

  function LiveCds(calls: map<Id, Call>): set<Short> {
    set t | t in calls :: calls[t].cd
  }

  function ForgetCall(cl: Client, t: Id, involved: bool): Client {
    cl.(requests := Without(cl.requests, t),
        replies := Without(cl.replies, t),
        wait4 := if involved && cl.wait4 == For(t) then Nothing else cl.wait4)
  }

  function Unlinked(services: map<Id, Service>, n: Node): map<Id, Service> {
    map v | v in services :: services[v].(waitq := Without(services[v].waitq, n))
  }

  /** `del_transaction`. */
  function DelCall(s: Board, t: Id): Board
    requires t in s.calls
  {
    var k := s.calls[t];
    s.(clients := map c | c in s.clients ::
                    ForgetCall(s.clients[c], t, c == k.client || k.executor == Some(c)),
       services := Unlinked(s.services, CallNode(t)),
       calls := s.calls - {t})
  }

  /** `new_transaction` and the append to `requests`; the new call's number is `s.next`. */
  function NewCall(s: Board, c: Id, svc: Id, len: nat, flags: int, env: Env): Outcome
    requires c in s.clients
  {
    match Take(s.pool, LiveCds(s.calls), env.batches)
    case None => Fault(NoDescriptor)
    case Some(taken) =>
      var t := s.next;
      var k := Call(c, svc, env.now, flags, taken.cd, None, ZeroBytes(len), 0, 0);
      var cl := s.clients[c];
      Ok(s.(clients := s.clients[c := cl.(requests := cl.requests + [t])],
            calls := s.calls[t := k],
            pool := taken.pool,
            next := t + 1))
  }

  // ---------- dispatch ----------

  /** The queues after a walk of `w`'s advertisements with `remove_from_waitq`. */
  function WorkerLeaves(services: map<Id, Service>, adverts: map<Id, int>, w: Id): map<Id, Service> {
    map v | v in services ::
      if v in adverts then services[v].(waitq := Without(services[v].waitq, WorkerNode(w))) else services[v]
  }

  /** The queues after a walk of `c`'s advertisements with `add_to_waitq`. */
  function WorkerJoins(services: map<Id, Service>, adverts: map<Id, int>, c: Id): map<Id, Service> {
    map v | v in services ::
      if v in adverts then services[v].(waitq := services[v].waitq + [WorkerNode(c)], holdsCalls := false)
      else services[v]
  }

  /** `send_to_server`: the call `t` goes to the waiting worker `w`. */
  function SendToServer(fx: Fixes, s: Board, w: Id, t: Id): Outcome {
    if w !in s.clients || t !in s.calls || s.calls[t].svc !in s.services
      || s.calls[t].svc !in s.clients[w].adverts then Fault(UseAfterFree)
    else
      var cl, k := s.clients[w], s.calls[t];
      var services := WorkerLeaves(s.services, cl.adverts, w);
      var s1 := s.(clients := s.clients[w := cl.(wait4 := For(t))],
                   services := if fx.unlink then Unlinked(services, CallNode(t)) else services,
                   calls := s.calls[t := k.(executor := Some(w))]);
      NextCommand(Say(s1, Handed(w, t, k.svc, cl.adverts[k.svc], s.services[k.svc].name, k.flags, k.cd, k.data)), w)
  }

  predicate CallsWaiting(s: Board, v: Id) {
    v in s.services && s.services[v].holdsCalls && s.services[v].waitq != []
  }

  /** The head of `v`'s queue is a live call, as the cast in FIRSTTRAN takes for granted. */
  predicate HeadIsCall(s: Board, v: Id) {
    v in s.services && s.services[v].waitq != []
    && s.services[v].waitq[0].CallNode? && s.services[v].waitq[0].call in s.calls
  }

  function FirstCall(s: Board, v: Id): (t: Id)
    requires HeadIsCall(s, v)
    ensures t in s.calls
  {
    s.services[v].waitq[0].call
  }

  predicate CastsHold(s: Board, order: seq<Id>) {
    forall i :: 0 <= i < |order| && CallsWaiting(s, order[i]) ==> HeadIsCall(s, order[i])
  }

  predicate Replaces(fx: Fixes, old_: int, new_: int) {
    if fx.oldest then new_ < old_ else old_ < new_
  }

  /** The walk with `find_earliest`: `best` is the static variable `earliest`. */
  function FindEarliest(fx: Fixes, s: Board, order: seq<Id>, best: Option<Id>): (r: Option<Id>)
    requires CastsHold(s, order)
    requires best.Some? ==> CallsWaiting(s, best.value) && HeadIsCall(s, best.value)
    ensures r.Some? ==> CallsWaiting(s, r.value) && HeadIsCall(s, r.value)
    ensures r.Some? ==> r == best || r.value in order
    ensures r.None? ==> best.None? && forall v :: v in order ==> !CallsWaiting(s, v)
  {
    if order == [] then best
    else
      var v := order[0];
      var taken := CallsWaiting(s, v)
        && (best.None? || Replaces(fx, s.calls[FirstCall(s, best.value)].arrival, s.calls[FirstCall(s, v)].arrival));
      assert CastsHold(s, order[1..]) by { assert forall i :: 0 <= i < |order| - 1 ==> order[1..][i] == order[i + 1]; }
      FindEarliest(fx, s, order[1..], if taken then Some(v) else best)
  }

  /** The worker joins the queues of its services, and the connection is left without a handler. */
  function Park(s: Board, c: Id): Board
    requires c in s.clients
  {
    var cl := s.clients[c];
    s.(services := WorkerJoins(s.services, cl.adverts, c),
       clients := s.clients[c := cl.(conn := IdleWorker)])
  }

  function SvrService(fx: Fixes, s: Board, c: Id, env: Env): Outcome {
    if c !in s.clients then Fault(UseAfterFree)
    else if !CastsHold(s, env.order) then Fault(WrongCast)
    else
      match FindEarliest(fx, s, env.order, None)
      case Some(v) => SendToServer(fx, s, c, FirstCall(s, v))
      case None => Ok(Park(s, c))
  }

  // ---------- calls ----------

  /** The call joins its service's queue. */
  function Enqueue(s: Board, t: Id): Board
    requires t in s.calls && s.calls[t].svc in s.services
  {
    var v := s.calls[t].svc;
    s.(services := s.services[v := s.services[v].(waitq := s.services[v].waitq + [CallNode(t)], holdsCalls := true)])
  }

  /** `send_to_worker`: takes the last request of `c`, whichever buffer was just filled. */
  function SendToWorker(fx: Fixes, s: Board, c: Id): Outcome {
    var s1 :- NextCommand(s, c);
    if s1.clients[c].requests == [] then Fault(WrongCast)
    else
      var t := Last(s1.clients[c].requests);
      if t !in s1.calls || s1.calls[t].svc !in s1.services then Fault(UseAfterFree)
      else
        var svc := s1.services[s1.calls[t].svc];
        if svc.waitq != [] && !svc.holdsCalls then
          if svc.waitq[0].WorkerNode? then SendToServer(fx, s1, svc.waitq[0].client, t) else Fault(WrongCast)
        else Ok(Enqueue(s1, t))
  }

  /** The acknowledgement of `t`. */
  function AcceptEntry(k: Call, t: Id): Entry {
    Accepted(k.client, t, k.cd, k.svc, k.flags)
  }

  function SvrAcall(fx: Fixes, s: Board, c: Id, name: Name, len: int, flags: int, env: Env): Outcome {
    if c !in s.clients then Fault(UseAfterFree)
    else if name !in s.index || len < 0 then NextCommand(Say(s, Refused(c, TPENOENT)), c)
    else
      var s1 :- NewCall(s, c, s.index[name], len, flags, env);
      var s2 := Say(s1, AcceptEntry(s1.calls[s.next], s.next));
      if len > 0 then Arm(s2, c, CallBody, DataOf(s.next))
      else SendToWorker(fx, Say(s2, Submitted(c, s.next, [])), c)
  }

  // ---------- returns and replies ----------

  /** `snd_reply`. */
  function SndReply(s: Board, t: Id): Outcome {
    if t !in s.calls || s.calls[t].client !in s.clients then Fault(UseAfterFree)
    else
      var k := s.calls[t];
      var s1 :- NextCommand(Say(s, Replied(k.client, t, k.rval, k.cd, k.rcode, k.data)), k.client);
      Ok(DelCall(PutClient(s1, k.client, s1.clients[k.client].(wait4 := Nothing)), t))
  }

  /** The call moves from `requests` to the end of `replies`. */
  function KeepReply(s: Board, t: Id): Board
    requires t in s.calls && s.calls[t].client in s.clients
  {
    var c := s.calls[t].client;
    var cl := s.clients[c];
    PutClient(s, c, cl.(requests := Without(cl.requests, t), replies := Without(cl.replies, t) + [t]))
  }

  /** Worker `c` is done with `t`: the reply goes out if its submitter waits for it, and is kept otherwise. */
  function Finish(s: Board, c: Id, t: Id, seesAny: bool): Outcome {
    if c !in s.clients || t !in s.calls then Fault(UseAfterFree)
    else
      var s1 := PutCall(PutClient(s, c, s.clients[c].(wait4 := Nothing)), t, s.calls[t].(executor := None));
      var to := s.calls[t].client;
      if to !in s1.clients then Fault(UseAfterFree)
      else if s1.clients[to].wait4 == For(t) || (seesAny && s1.clients[to].wait4 == AnyReply) then SndReply(s1, t)
      else Ok(KeepReply(s1, t))
  }

  /** `part2` of `svrreturn`: the worker's reply body has been read. */
  function Part2(s: Board, c: Id): Outcome {
    var s1 :- NextCommand(s, c);
    match s1.clients[c].wait4
    case For(t) => Finish(s1, c, t, true)
    case _ => Fault(NullPointer)
  }

  function Resize(b: seq<byte>, len: nat): (r: seq<byte>)
    ensures |r| == len && forall i :: 0 <= i < len && i < |b| ==> r[i] == b[i]
  {
    if len <= |b| then b[..len] else b + ZeroBytes(len - |b|)
  }

  function SvrReturn(s: Board, c: Id, rval: byte, rcode: int, len: int): Outcome {
    if c !in s.clients then Fault(UseAfterFree)
    else
      match s.clients[c].wait4
      case For(t) =>
        if t !in s.calls then Fault(UseAfterFree)
        else if len < 0 then Fault(AssertFailed)
        else
          var s1 := PutCall(s, t, s.calls[t].(rval := rval, rcode := rcode, data := Resize(s.calls[t].data, len)));
          if len > 0 then Arm(s1, c, ReturnBody, DataOf(t))
          else Part2(Say(s1, Returned(c, t, rval, rcode, [])), c)
      case _ => Fault(NullPointer)
  }

  /** First call in `q` with descriptor `cd`. */
  function FindCd(calls: map<Id, Call>, q: seq<Id>, cd: Short): (r: Option<Id>)
    ensures r.Some? ==> r.value in q && r.value in calls && calls[r.value].cd == cd
    ensures r.None? ==> forall t :: t in q && t in calls ==> calls[t].cd != cd
  {
    if q == [] then None
    else if q[0] in calls && calls[q[0]].cd == cd then Some(q[0])
    else FindCd(calls, q[1..], cd)
  }

  /** The reply `svrgetrply` can send at once. */
  function ReplyReady(calls: map<Id, Call>, replies: seq<Id>, cd: Short, flags: int): Option<Id> {
    if !FlagSet(flags, TPGETANY) then FindCd(calls, replies, cd)
    else if replies == [] then None else Some(replies[0])
  }

  /** What `svrgetrply` would wait for; `Nothing` when the descriptor names no request of this client. */
  function WaitTarget(calls: map<Id, Call>, requests: seq<Id>, cd: Short, flags: int): Wait {
    if FlagSet(flags, TPGETANY) then AnyReply
    else match FindCd(calls, requests, cd) case Some(t) => For(t) case None => Nothing
  }

  function SvrGetReply(s: Board, c: Id, cd: Short, flags: int): Outcome {
    if c !in s.clients then Fault(UseAfterFree)
    else
      var cl := s.clients[c];
      match ReplyReady(s.calls, cl.replies, cd, flags)
      case Some(t) => SndReply(s, t)
      case None =>
        var target := WaitTarget(s.calls, cl.requests, cd, flags);
        if target == Nothing then NextCommand(Say(s, NoReply(c, TPEBADDESC)), c)
        else if FlagSet(flags, TPNOBLOCK) then NextCommand(Say(s, NoReply(c, TPEBLOCK)), c)
        else Ok(PutClient(s, c, cl.(conn := AwaitReply, wait4 := target)))
  }

  // ---------- advertisements ----------

  /** `new_service` when no service has this name yet; the new service's number is `s.next`. */
  function NewService(s: Board, name: Name): Board {
    if name in s.index then s
    else s.(services := s.services[s.next := Service(name, [], false)],
            index := s.index[name := s.next],
            next := s.next + 1)
  }

  function SvrAdvertise(s: Board, c: Id, name: Name, opaqueValue: int): Outcome {
    if c !in s.clients then Fault(UseAfterFree)
    else
      var s1 := NewService(s, name);
      var v, cl := s1.index[name], s1.clients[c];
      if v in cl.adverts && cl.adverts[v] != opaqueValue then NextCommand(Say(s1, Status(c, TPEMATCH)), c)
      else
        var s2 := PutClient(s1, c, cl.(adverts := cl.adverts[v := opaqueValue]));
        NextCommand(Say(s2, Status(c, 0)), c)
  }

  predicate Advertises(s: Board, c: Id, v: Id) {
    c in s.clients && v in s.clients[c].adverts
  }

  predicate SomeoneAdvertises(s: Board, v: Id) {
    exists c :: c in s.clients && v in s.clients[c].adverts
  }

  /** The loop of `del_service`, which runs when nobody advertises `v`. */
  function Drain(s: Board, v: Id): Outcome
    decreases if v in s.services then |s.services[v].waitq| else 0
  {
    if v !in s.services then Fault(UseAfterFree)
    else if s.services[v].waitq == [] then Ok(s)
    else if !s.services[v].holdsCalls then
      if s.services[v].waitq[0].WorkerNode? then Fault(Reentered) else Fault(WrongCast)
    else match s.services[v].waitq[0]
      case WorkerNode(_) => Fault(WrongCast)
      case CallNode(t) => if t in s.calls then Drain(DelCall(s, t), v) else Fault(UseAfterFree)
  }

  /** `del_service`. */
  function DelService(s: Board, v: Id): Outcome {
    var s1 :- Drain(s, v);
    if v !in s1.services then Fault(UseAfterFree)
    else Ok(s1.(services := s1.services - {v}, index := s1.index - {s1.services[v].name}))
  }

  /** Client `c` no longer advertises `v`. */
  function DropAdvert(s: Board, c: Id, v: Id): Board
    requires c in s.clients
  {
    PutClient(s.(services := Unlink1(s.services, v, WorkerNode(c))), c,
              s.clients[c].(adverts := s.clients[c].adverts - {v}))
  }

  function Unlink1(services: map<Id, Service>, v: Id, n: Node): map<Id, Service> {
    if v in services then services[v := services[v].(waitq := Without(services[v].waitq, n))] else services
  }

  /** `del_advertisement`. */
  function DelAdvert(s: Board, c: Id, v: Id): Outcome {
    if !Advertises(s, c, v) then Fault(UseAfterFree)
    else
      var s1 := DropAdvert(s, c, v);
      if SomeoneAdvertises(s1, v) then Ok(s1) else DelService(s1, v)
  }

  function SvrUnadvertise(s: Board, c: Id, name: Name): Outcome {
    if c !in s.clients then Fault(UseAfterFree)
    else if name !in s.index || !Advertises(s, c, s.index[name]) then NextCommand(Say(s, Status(c, TPENOENT)), c)
    else
      var s1 :- DelAdvert(s, c, s.index[name]);
      NextCommand(Say(s1, Status(c, 0)), c)
  }

  // ---------- connections ----------

  /** `accept`, `new_client` and the first `svr_next_command`; the new client's number is `s.next`. */
  function Connect(s: Board): Outcome {
    NextCommand(s.(clients := s.clients[s.next := Client(Running, Nothing, map[], [], [])], next := s.next + 1), s.next)
  }

  /** The call `t` fails because its worker `c` leaves. */
  function Failed(s: Board, c: Id, t: Id): Board
    requires t in s.calls
  {
    Say(PutCall(s, t, s.calls[t].(rval := TPERRNO, rcode := TPESVCERR)), Abandoned(c, t))
  }

  /** First part of `del_client`: the call the departing worker executes fails. */
  function AbandonWork(fx: Fixes, s: Board, c: Id): Outcome
    requires c in s.clients
  {
    match s.clients[c].wait4
    case For(t) =>
      if t !in s.calls then Fault(UseAfterFree)
      else if s.calls[t].executor == Some(c) then
        Finish(Failed(s, c, t), c, t, fx.wakeAny)
      else Ok(s)
    case _ => Ok(s)
  }

  /** The advertisements go in the order in which they come up as root of the tree. */
  function DelAdverts(s: Board, c: Id, order: seq<Id>): Outcome
    decreases |order|
  {
    if order == [] then Ok(s)
    else
      var s1 :- DelAdvert(s, c, order[0]);
      DelAdverts(s1, c, order[1..])
  }

  function DelRequests(s: Board, c: Id): Outcome
    decreases if c in s.clients then |s.clients[c].requests| else 0
  {
    if c !in s.clients then Fault(UseAfterFree)
    else if s.clients[c].requests == [] then Ok(s)
    else if s.clients[c].requests[0] in s.calls then DelRequests(DelCall(s, s.clients[c].requests[0]), c)
    else Fault(UseAfterFree)
  }

  function DelReplies(s: Board, c: Id): Outcome
    decreases if c in s.clients then |s.clients[c].replies| else 0
  {
    if c !in s.clients then Fault(UseAfterFree)
    else if s.clients[c].replies == [] then Ok(s)
    else if s.clients[c].replies[0] in s.calls then DelReplies(DelCall(s, s.clients[c].replies[0]), c)
    else Fault(UseAfterFree)
  }

  /** `del_client`. */
  function DelClient(fx: Fixes, s: Board, c: Id, order: seq<Id>): Outcome {
    if c !in s.clients then Fault(UseAfterFree)
    else
      var s1 :- AbandonWork(fx, s, c);
      var s2 :- DelAdverts(s1, c, order);
      var s3 :- DelRequests(s2, c);
      var s4 :- DelReplies(s3, c);
      Ok(s4.(clients := s4.clients - {c}))
  }

  // ---------- the event loop ----------

  function CommandLength(h: Handler): nat
    requires !h.CallBody? && !h.ReturnBody?
  {
    match h
    case Command => 1
    case Acall => NAME_LENGTH + IOLONG * 2
    case GetReply => IOSHORT + IOLONG
    case Advertise => NAME_LENGTH + IOLONG
    case Unadvertise => NAME_LENGTH
    case Return => 1 + IOLONG * 2
  }

  /** The command table, without TPTWORK, whose handler needs no bytes and runs at once. */
  function CommandHandler(b: byte): (h: Option<Handler>)
    ensures h.Some? ==> !h.value.CallBody? && !h.value.ReturnBody?
  {
    match b
    case 0 => Some(Acall)
    case 1 => Some(GetReply)
    case 2 => Some(Advertise)
    case 3 => Some(Unadvertise)
    case 5 => Some(Return)
    case _ => None
  }

  const TPTWORK: byte := 4

  /** `command`: one byte names the handler of the bytes to come. */
  function RunCommand(fx: Fixes, s: Board, c: Id, b: byte, env: Env): Outcome {
    if b == TPTWORK then SvrService(fx, s, c, env)
    else match CommandHandler(b)
      case Some(h) => Arm(s, c, h, Scratch([b] + ZeroBytes(CommandLength(h) - 1)))
      case None => DelClient(fx, s, c, env.order)
  }

  /** The handler `h` is called with a full scratch buffer. */
  function RunHandler(fx: Fixes, s: Board, c: Id, h: Handler, b: seq<byte>, env: Env): Outcome
    requires !h.CallBody? && !h.ReturnBody?
    requires |b| == CommandLength(h)
  {
    match h
    case Command => RunCommand(fx, s, c, b[0], env)
    case Acall => SvrAcall(fx, s, c, CutName(b), ToLong(b, NAME_LENGTH), ToLong(b, NAME_LENGTH + IOLONG), env)
    case GetReply => SvrGetReply(s, c, AsShort(ToShort(b, 0)), ToLong(b, IOSHORT))
    case Advertise => SvrAdvertise(s, c, CutName(b), ToLong(b, NAME_LENGTH))
    case Unadvertise => SvrUnadvertise(s, c, CutName(b))
    case Return => SvrReturn(s, c, b[0], ToLong(b, 1), ToLong(b, 1 + IOLONG))
  }

  /** `chunk` is read into `b` at `used`. */
  function Splice(b: seq<byte>, used: nat, chunk: seq<byte>): (r: seq<byte>)
    requires used + |chunk| <= |b|
    ensures |r| == |b|
  {
    b[..used] + chunk + b[used + |chunk|..]
  }

  datatype Event =
    | Arrive                                        // a connection is accepted
    | Leave(c: Id, order: seq<Id>)                  // end of file or a read error
    | Read(c: Id, chunk: seq<byte>, env: Env)       // read returned these bytes

  function Unarm(s: Board, c: Id): Board
    requires c in s.clients
  {
    PutClient(s, c, s.clients[c].(conn := Running))
  }

  /** Bytes for a connection's own buffer. */
  function ReadScratch(fx: Fixes, s: Board, c: Id, chunk: seq<byte>, env: Env): Outcome
    requires c in s.clients && s.clients[c].conn.Receiving? && s.clients[c].conn.input.Scratch?
  {
    var Receiving(h, input, used) := s.clients[c].conn;
    if used + |chunk| > |input.bytes| || h.CallBody? || h.ReturnBody? || |input.bytes| != CommandLength(h) then Fault(AssertFailed)
    else
      var b := Splice(input.bytes, used, chunk);
      if used + |chunk| < |b| then
        Ok(PutClient(s, c, s.clients[c].(conn := Receiving(h, Scratch(b), used + |chunk|))))
      else RunHandler(fx, Unarm(s, c), c, h, b, env)
  }

  /** Bytes for the data buffer of a call. */
  function ReadData(fx: Fixes, s: Board, c: Id, chunk: seq<byte>): Outcome
    requires c in s.clients && s.clients[c].conn.Receiving? && s.clients[c].conn.input.DataOf?
  {
    var Receiving(h, input, used) := s.clients[c].conn;
    var t := input.call;
    if t !in s.calls then Fault(UseAfterFree)
    else if used + |chunk| > |s.calls[t].data| then Fault(AssertFailed)
    else
      var b := Splice(s.calls[t].data, used, chunk);
      var s1 := PutCall(s, t, s.calls[t].(data := b));
      if used + |chunk| < |b| then
        Ok(PutClient(s1, c, s1.clients[c].(conn := Receiving(h, input, used + |chunk|))))
      else if h.CallBody? then SendToWorker(fx, Say(Unarm(s1, c), Submitted(c, t, b)), c)
      else Part2(Say(Unarm(s1, c), Returned(c, t, s.calls[t].rval, s.calls[t].rcode, b)), c)
  }

  /** The buffer being filled has not been freed. */
  predicate LiveInput(s: Board, c: Id)
    requires c in s.clients && s.clients[c].conn.Receiving?
  {
    s.clients[c].conn.input.DataOf? ==> s.clients[c].conn.input.call in s.calls
  }

  /** The connection of `c` is armed with a buffer that has been freed. */
  predicate DeadInput(s: Board, c: Id) {
    c in s.clients && s.clients[c].conn.Receiving? && !LiveInput(s, c)
  }

  /** One turn of the client loop in `Iowait`, or one accepted connection. */
  function Step(fx: Fixes, s: Board, e: Event): Outcome {
    match e
    case Arrive => Connect(s)
    case Leave(c, order) =>
      if DeadInput(s, c) then Fault(UseAfterFree)      // the size of the buffer is read before the connection is
      else DelClient(fx, s, c, order)
    case Read(c, chunk, env) =>
      if c !in s.clients then Fault(UseAfterFree)
      else if !s.clients[c].conn.Receiving? then DelClient(fx, s, c, env.order)     // unexpected bytes
      else if s.clients[c].conn.input.Scratch? then ReadScratch(fx, s, c, chunk, env)
      else ReadData(fx, s, c, chunk)
  }
}
