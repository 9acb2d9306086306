/** Runs in which the program as written departs from its comments, and the repaired line does not. */
module AsWritten {
  import opened Sequences
  import opened Wire
  import opened Descriptors
  import opened Board
  import opened Invariant
  import opened Answer
  import opened Departure
  import opened Handlers
  import opened Steps
  import opened Runs
  import opened Orphans
  import opened Aftermath
  import opened Codec

  // ---------- runs, message by message ----------

  /** The run `es` is possible and leads from `s` to `r`. */
  ghost predicate Leads(fx: Fixes, s: Board, es: seq<Event>, r: Board) {
    PossibleRun(fx, s, es) && Run(fx, s, es) == Ok(r)
  }

  lemma LeadsNowhere(fx: Fixes, s: Board)
    ensures Leads(fx, s, [], s)
  {
  }

  lemma LeadsBy(fx: Fixes, s: Board, e: Event, m: Board, es: seq<Event>, r: Board)
    requires Possible(s, e) && Step(fx, s, e) == Ok(m) && Leads(fx, m, es, r)
    ensures Leads(fx, s, [e] + es, r)
  {
    hide Possible, Step;
    assert ([e] + es)[0] == e && ([e] + es)[1..] == es;
  }

  lemma {:induction false} LeadsOn(fx: Fixes, s: Board, es: seq<Event>, m: Board, fs: seq<Event>, r: Board)
    requires Leads(fx, s, es, m) && Leads(fx, m, fs, r)
    ensures Leads(fx, s, es + fs, r)
    decreases |es|
  {
    hide Possible, Step;
    if es == [] {
      assert es + fs == fs;
    } else {
      var s1 := Step(fx, s, es[0]).board;
      LeadsOn(fx, s1, es[1..], m, fs, r);
      LeadsBy(fx, s, es[0], s1, es[1..] + fs, r);
      assert [es[0]] + (es[1..] + fs) == es + fs;
    }
  }

  /** The two reads of a message: its command byte and its parameters. */
  function Sends(c: Id, m: seq<byte>, env: Env): seq<Event>
    requires m != []
  {
    [Read(c, [m[0]], env), Read(c, m[1..], env)]
  }

  /** The surroundings `env` are possible for `c`. */
  ghost predicate Around(s: Board, c: Id, env: Env) {
    c in s.clients && s.clients[c].conn == NEXT && Walks(env.order, s.clients[c].adverts.Keys) && GoodBatches(env.batches)
  }

  /** A message to a connection that awaits a command runs its handler. */
  lemma MessageLeads(fx: Fixes, s: Board, c: Id, m: seq<byte>, h: Handler, env: Env, r: Board)
    requires Around(s, c, env) && Frames(m, h) && m[0] != TPTWORK && h != Command
    requires RunHandler(fx, Unarm(s, c), c, h, m[1..], env) == Ok(r)
    ensures Leads(fx, s, Sends(c, m, env), r)
  {
    hide RunHandler, Walks, GoodBatches, Leads;
    var conn := Receiving(h, Scratch([m[0]] + ZeroBytes(CommandLength(h) - 1)), 0);
    var s1 := PutClient(s, c, s.clients[c].(conn := conn));
    CommandByteArms(fx, s, c, m[0], h, env);
    assert Splice(conn.input.bytes, 0, m[1..]) == m[1..];
    assert Unarm(s1, c).clients == Unarm(s, c).clients;
    LeadsNowhere(fx, r);
    LeadsBy(fx, s1, Read(c, m[1..], env), r, [], r);
    assert [Read(c, m[1..], env)] + [] == [Read(c, m[1..], env)];
    LeadsBy(fx, s, Read(c, [m[0]], env), s1, [Read(c, m[1..], env)], r);
    assert [Read(c, [m[0]], env)] + [Read(c, m[1..], env)] == Sends(c, m, env);
  }

  lemma CommandByteArms(fx: Fixes, s: Board, c: Id, b: byte, h: Handler, env: Env)
    requires Around(s, c, env) && CommandHandler(b) == Some(h) && h != Command
    ensures Possible(s, Read(c, [b], env))
    ensures Step(fx, s, Read(c, [b], env))
      == Ok(PutClient(s, c, s.clients[c].(conn := Receiving(h, Scratch([b] + ZeroBytes(CommandLength(h) - 1)), 0))))
  {
    hide Walks, GoodBatches, SvrService, DelClient;
    assert Splice(ZeroBytes(1), 0, [b]) == [b];
  }

  /** A worker asks for work. */
  lemma WorkLeads(fx: Fixes, s: Board, c: Id, env: Env, r: Board)
    requires Around(s, c, env) && SvrService(fx, Unarm(s, c), c, env) == Ok(r)
    ensures Leads(fx, s, [Read(c, [TPTWORK], env)], r)
  {
    hide Walks, GoodBatches, SvrService, Leads;
    assert Splice(ZeroBytes(1), 0, [TPTWORK]) == [TPTWORK];
    LeadsNowhere(fx, r);
    LeadsBy(fx, s, Read(c, [TPTWORK], env), r, [], r);
    assert [Read(c, [TPTWORK], env)] + [] == [Read(c, [TPTWORK], env)];
  }

  // ---------- a worker and a caller ----------

  const NAME_A: Name := [65]
  const FIELD_A: seq<byte> := [65, 0, 0, 0, 0, 0, 0, 0, 0, 0, 0, 0, 0, 0, 0]
  const QUIET := Env(0, [], [])
  const OFFERS := Env(0, [2], [])
  const BATCH: seq<Short> := [5] + Zeros(NUM_FREE_CD - 1)
  const DRAWS := Env(0, [], [BATCH])
  const FIRST_POOL := Pool(Zeros(NUM_FREE_CD), 0)
  const POOL := Pool(Zeros(NUM_FREE_CD), 1)
  const FRESH := Client(NEXT, Nothing, map[], [], [])
  const WORKER := Client(NEXT, Nothing, map[2 := 7], [], [])

  const OFFERING := Sends(0, EncodeAdvertise(FIELD_A, 7), QUIET)
  const CALLING := Sends(1, EncodeCall(FIELD_A, 0, 0), DRAWS)
  const RETURNING := Sends(0, EncodeReturn(TPSUCCESS, 0, []), OFFERS)
  const ASKING := [Read(0, [TPTWORK], OFFERS)]

  const TWO := Board(map[0 := FRESH, 1 := FRESH], map[], map[], map[], FIRST_POOL, 2, [])

  /** Client 0 offers the service 2. */
  const OFFERED := Board(map[0 := WORKER, 1 := FRESH], map[2 := Service(NAME_A, [], false)], map[NAME_A := 2], map[], FIRST_POOL, 3, [Status(0, 0)])

  lemma TwoArrive(fx: Fixes)
    ensures Leads(fx, EMPTY, [Arrive, Arrive], TWO)
  {
    var one := Board(map[0 := FRESH], map[], map[], map[], FIRST_POOL, 1, []);
    assert Connect(EMPTY).board.clients == one.clients;
    assert Connect(one).board.clients == TWO.clients;
    hide Leads;
    LeadsNowhere(fx, TWO);
    LeadsBy(fx, one, Arrive, TWO, [], TWO);
    LeadsBy(fx, EMPTY, Arrive, one, [Arrive], TWO);
    assert [Arrive] + [] == [Arrive] && [Arrive] + [Arrive] == [Arrive, Arrive];
  }

  lemma CutsA()
    ensures CutName(FIELD_A) == NAME_A && NameField(FIELD_A)
  {
    assert FIELD_A[0] == 65 && FIELD_A[1..][0] == 0;
    assert CutName(FIELD_A[1..], 14) == [];
  }

  lemma WalksNothing(s: Board, c: Id)
    requires c in s.clients && s.clients[c].conn == NEXT && s.clients[c].adverts == map[]
    ensures Around(s, c, QUIET) && Around(s, c, DRAWS)
  {
    assert |BATCH| == NUM_FREE_CD;
  }

  lemma WalksOne(s: Board, c: Id)
    requires c in s.clients && s.clients[c].conn == NEXT && s.clients[c].adverts == map[2 := 7]
    ensures Around(s, c, OFFERS)
  {
    assert s.clients[c].adverts.Keys == {2};
  }

  lemma AdvertisesA(fx: Fixes)
    ensures Frames(EncodeAdvertise(FIELD_A, 7), Advertise) && EncodeAdvertise(FIELD_A, 7)[0] != TPTWORK
    ensures RunHandler(fx, Unarm(TWO, 0), 0, Advertise, EncodeAdvertise(FIELD_A, 7)[1..], QUIET) == Ok(OFFERED)
  {
    hide CutName, RunHandler, EncodeAdvertise;
    CutsA();
    var s := Unarm(TWO, 0);
    AdvertiseArrives(fx, s, 0, QUIET, FIELD_A, 7);
    var r := SvrAdvertise(s, 0, NAME_A, 7).board;
    assert r.clients[0] == WORKER;
    assert r.clients == OFFERED.clients;
    assert r.services == OFFERED.services;
  }

  lemma Offers(fx: Fixes)
    ensures Leads(fx, TWO, OFFERING, OFFERED)
  {
    hide Around, Leads, RunHandler, EncodeAdvertise;
    AdvertisesA(fx);
    WalksNothing(TWO, 0);
    MessageLeads(fx, TWO, 0, EncodeAdvertise(FIELD_A, 7), Advertise, QUIET, OFFERED);
  }

  /** The descriptor 5 is drawn. */
  lemma DrawsFive()
    ensures Take(FIRST_POOL, {}, [BATCH]) == Some(Taken(5, POOL))
  {
    assert FirstFree(Zeros(NUM_FREE_CD), 0) == NUM_FREE_CD;
    var p := Prune(BATCH, {});
    assert p[0] == 5 && FirstFree(p, 0) == 0;
    assert [BATCH][1..] == [];
    assert p[0 := 0] == Zeros(NUM_FREE_CD);
  }

  // ---------- a queued call is handed over twice ----------

  const CALLER := Client(NEXT, Nothing, map[], [3], [])
  const CALL := Call(1, 2, 0, 0, 5, None, [], 0, 0)
  const HANDED := Handed(0, 3, 2, 7, NAME_A, 0, 5, [])
  const LOGGED := [Status(0, 0), Accepted(1, 3, 5, 2, 0), Submitted(1, 3, [])]
  const WAITS := map[2 := Service(NAME_A, [CallNode(3)], true)]

  const QUEUED := Board(map[0 := WORKER, 1 := CALLER], WAITS, map[NAME_A := 2], map[3 := CALL], POOL, 4, LOGGED)

  /** The call has been handed over, and is still queued. */
  const GIVEN := QUEUED.(
    clients := map[0 := WORKER.(wait4 := For(3)), 1 := CALLER],
    calls := map[3 := CALL.(executor := Some(0))],
    log := LOGGED + [HANDED])

  /** The reply is kept, and the call is still queued. */
  const KEPT := QUEUED.(
    clients := map[0 := WORKER, 1 := Client(NEXT, Nothing, map[], [], [3])],
    calls := map[3 := CALL.(rval := TPSUCCESS)],
    log := LOGGED + [HANDED, Returned(0, 3, TPSUCCESS, 0, [])])

  lemma NewCallDraws(s: Board)
    requires 1 in s.clients && s.calls == map[] && s.pool == FIRST_POOL && s.next == 3
    requires s.clients[1] == FRESH.(conn := Running)
    ensures NewCall(s, 1, 2, 0, 0, DRAWS)
      == Ok(s.(clients := s.clients[1 := CALLER.(conn := Running)], calls := map[3 := CALL], pool := POOL, next := 4))
  {
    hide Take, LiveCds;
    assert LiveCds(s.calls) == {} by { NoCds(); }
    DrawsFive();
    assert ZeroBytes(0) == [];
    assert FRESH.requests + [3] == [3];
    assert s.calls[3 := CALL] == map[3 := CALL];
  }

  lemma NoCds()
    ensures LiveCds(map[]) == {}
  {
  }

  lemma CallQueues(fx: Fixes)
    ensures SvrAcall(fx, Unarm(OFFERED, 1), 1, NAME_A, 0, 0, DRAWS) == Ok(QUEUED)
  {
    hide NewCall;
    var s := Unarm(OFFERED, 1);
    NewCallDraws(s);
    var s1 := NewCall(s, 1, 2, 0, 0, DRAWS).board;
    var s3 := Say(Say(s1, AcceptEntry(CALL, 3)), Submitted(1, 3, []));
    assert s3.log == LOGGED;
    var s4 := NextCommand(s3, 1).board;
    assert s4.clients == QUEUED.clients;
    assert SendToWorker(fx, s3, 1) == Ok(Enqueue(s4, 3));
    assert [] + [CallNode(3)] == [CallNode(3)];
    assert Enqueue(s4, 3).services[2] == WAITS[2];
    assert Enqueue(s4, 3).services == WAITS;
  }

  lemma Calls(fx: Fixes)
    ensures Leads(fx, OFFERED, CALLING, QUEUED)
  {
    hide Around, CutName, Leads, RunHandler, SvrAcall, EncodeCall;
    CutsA();
    CallArrives(fx, Unarm(OFFERED, 1), 1, DRAWS, FIELD_A, 0, 0);
    CallQueues(fx);
    WalksNothing(OFFERED, 1);
    MessageLeads(fx, OFFERED, 1, EncodeCall(FIELD_A, 0, 0), Acall, DRAWS, QUEUED);
  }

  /** Both hand-overs find the call at the head of the queue, and leave it there. */
  lemma PicksTwo(s: Board)
    requires s.services == WAITS && 3 in s.calls
    ensures CastsHold(s, [2]) && FindEarliest(AS_WRITTEN, s, [2], None) == Some(2) && FirstCall(s, 2) == 3
  {
    assert s.services[2].waitq[0] == CallNode(3);
    assert [2][1..] == [];
    assert FindEarliest(AS_WRITTEN, s, [], Some(2)) == Some(2);
  }

  lemma StaysQueued()
    ensures WorkerLeaves(WAITS, map[2 := 7], 0) == WAITS
  {
    assert Without([CallNode(3)], WorkerNode(0)) == [CallNode(3)];
    hide Without;
  }

  lemma GivesFirst()
    ensures SvrService(AS_WRITTEN, Unarm(QUEUED, 0), 0, OFFERS) == Ok(GIVEN)
  {
    hide WorkerLeaves, FindEarliest, CastsHold;
    var s := Unarm(QUEUED, 0);
    PicksTwo(s);
    StaysQueued();
    var r := SendToServer(AS_WRITTEN, s, 0, 3).board;
    assert r.clients == GIVEN.clients;
    assert r.calls == GIVEN.calls;
    assert r.log == GIVEN.log;
  }

  lemma FirstWork()
    ensures Leads(AS_WRITTEN, QUEUED, ASKING, GIVEN)
  {
    hide Around, Leads, SvrService;
    WalksOne(QUEUED, 0);
    GivesFirst();
    WorkLeads(AS_WRITTEN, QUEUED, 0, OFFERS, GIVEN);
  }

  /** The worker has returned, and no longer executes the call. */
  const LET_GO := KEPT.(clients := map[0 := WORKER, 1 := CALLER])

  const RETURNED := LET_GO.(clients := GIVEN.clients, calls := map[3 := CALL.(executor := Some(0), rval := TPSUCCESS)])

  lemma KeepsReply()
    ensures KeepReply(LET_GO, 3) == KEPT
  {
    assert Without<Id>([3], 3) == [] && Without<Id>([], 3) == [];
    hide Without;
    var r := KeepReply(LET_GO, 3);
    assert r.clients[1] == KEPT.clients[1];
    assert r.clients == KEPT.clients;
  }

  lemma LetsGo()
    ensures LetGo(RETURNED, 0, 3) == LET_GO
  {
    var r := LetGo(RETURNED, 0, 3);
    assert r.clients[0] == LET_GO.clients[0] && r.calls[3] == LET_GO.calls[3];
    assert r.clients == LET_GO.clients;
    assert r.calls == LET_GO.calls;
  }

  lemma FinishesCall()
    ensures Finish(RETURNED, 0, 3, true) == Ok(KEPT)
  {
    hide SndReply, Finish, KeepReply, LetGo, Without;
    FinishIs(RETURNED, 0, 3, true);
    LetsGo();
    KeepsReply();
  }

  lemma ReturnArmed()
    ensures NextCommand(Say(PutCall(Unarm(GIVEN, 0), 3, RETURNED.calls[3]), Returned(0, 3, TPSUCCESS, 0, [])), 0) == Ok(RETURNED)
  {
    var s1 := Say(PutCall(Unarm(GIVEN, 0), 3, RETURNED.calls[3]), Returned(0, 3, TPSUCCESS, 0, []));
    assert s1.calls == RETURNED.calls;
    assert s1.log == RETURNED.log;
    var s2 := NextCommand(s1, 0).board;
    assert s2.clients[0] == RETURNED.clients[0];
    assert s2.clients == RETURNED.clients;
  }

  lemma ReturnKeeps()
    ensures SvrReturn(Unarm(GIVEN, 0), 0, TPSUCCESS, 0, 0) == Ok(KEPT)
  {
    hide Finish, NextCommand;
    assert Resize([], 0) == [];
    ReturnArmed();
    FinishesCall();
  }

  lemma Returns(fx: Fixes)
    ensures Leads(fx, GIVEN, RETURNING, KEPT)
  {
    hide Around, Leads, RunHandler, SvrReturn, EncodeReturn;
    ReturnArrives(fx, Unarm(GIVEN, 0), 0, OFFERS, TPSUCCESS, 0, []);
    var m := EncodeReturn(TPSUCCESS, 0, []);
    assert m[..|m|] == m;
    ReturnKeeps();
    WalksOne(GIVEN, 0);
    MessageLeads(fx, GIVEN, 0, m, Return, OFFERS, KEPT);
  }

  lemma GivesAgain()
    ensures SvrService(AS_WRITTEN, Unarm(KEPT, 0), 0, OFFERS).Ok?
    ensures SvrService(AS_WRITTEN, Unarm(KEPT, 0), 0, OFFERS).board.log == KEPT.log + [HANDED]
  {
    hide WorkerLeaves, FindEarliest, CastsHold;
    PicksTwo(Unarm(KEPT, 0));
    StaysQueued();
  }

  /** Two clients arrive; the first offers a service, the second calls it; the first asks for work, returns, and asks again. */
  const TWICE := [Arrive, Arrive] + OFFERING + CALLING + ASKING + RETURNING + ASKING

  /** A possible run of the program as written hands the same call to the same worker twice. */
  lemma HandedTwice()
    ensures PossibleRun(AS_WRITTEN, EMPTY, TWICE) && Run(AS_WRITTEN, EMPTY, TWICE).Ok?
    ensures var log := Run(AS_WRITTEN, EMPTY, TWICE).board.log;
      |log| == 6 && log[3] == HANDED && log[5] == HANDED
  {
    hide SvrService, Around, Leads, Sends, Run, PossibleRun;
    var fx := AS_WRITTEN;
    GivesAgain();
    var last := SvrService(fx, Unarm(KEPT, 0), 0, OFFERS).board;
    WalksOne(KEPT, 0);
    WorkLeads(fx, KEPT, 0, OFFERS, last);
    LeadsQueued(fx);
    FirstWork();
    Returns(fx);
    var es := [Arrive, Arrive] + OFFERING + CALLING;
    LeadsOn(fx, EMPTY, es, QUEUED, ASKING, GIVEN);
    LeadsOn(fx, EMPTY, es + ASKING, GIVEN, RETURNING, KEPT);
    LeadsOn(fx, EMPTY, es + ASKING + RETURNING, KEPT, ASKING, last);
    LeadsMeans(fx, EMPTY, TWICE, last);
  }

  lemma LeadsMeans(fx: Fixes, s: Board, es: seq<Event>, r: Board)
    requires Leads(fx, s, es, r)
    ensures PossibleRun(fx, s, es) && Run(fx, s, es) == Ok(r)
  {
  }

  lemma LeadsOffered(fx: Fixes)
    ensures Leads(fx, EMPTY, [Arrive, Arrive] + OFFERING, OFFERED)
  {
    hide Leads, Sends;
    TwoArrive(fx);
    Offers(fx);
    LeadsOn(fx, EMPTY, [Arrive, Arrive], TWO, OFFERING, OFFERED);
  }

  lemma LeadsQueued(fx: Fixes)
    ensures Leads(fx, EMPTY, [Arrive, Arrive] + OFFERING + CALLING, QUEUED)
  {
    hide Leads, Sends;
    LeadsOffered(fx);
    Calls(fx);
    LeadsOn(fx, EMPTY, [Arrive, Arrive] + OFFERING, OFFERED, CALLING, QUEUED);
  }

  // ---------- a client is stranded ----------

  const IDLE := OFFERED.(
    clients := map[0 := WORKER.(conn := IdleWorker), 1 := FRESH],
    services := map[2 := Service(NAME_A, [WorkerNode(0)], false)])

  /** The worker waits, and is handed the call at once. */
  const SERVED := Board(
    map[0 := WORKER.(wait4 := For(3)), 1 := CALLER], map[2 := Service(NAME_A, [], false)], map[NAME_A := 2],
    map[3 := CALL.(executor := Some(0))], POOL, 4, LOGGED + [HANDED])

  /** The caller waits for any reply. */
  const WAITING := SERVED.(clients := map[0 := WORKER.(wait4 := For(3)), 1 := Client(AwaitReply, AnyReply, map[], [3], [])])

  const FAILED := CALL.(rval := TPERRNO, rcode := TPESVCERR)

  /** The worker has gone; as written, the caller waits on although its reply is there. */
  const STRANDED := Board(
    map[1 := Client(AwaitReply, AnyReply, map[], [], [3])], map[], map[], map[3 := FAILED], POOL, 4, LOGGED + [HANDED, Abandoned(0, 3)])

  /** Repaired, it gets the reply. */
  const REPLIED := Board(
    map[1 := FRESH], map[], map[], map[], POOL, 4, LOGGED + [HANDED, Abandoned(0, 3), Replied(1, 3, TPERRNO, 5, TPESVCERR, [])])

  const COLLECTING := Sends(1, EncodeGetReply(0, TPGETANY), QUIET)

  lemma ParksWorker(fx: Fixes)
    ensures SvrService(fx, Unarm(OFFERED, 0), 0, OFFERS) == Ok(IDLE)
  {
    var s := Unarm(OFFERED, 0);
    assert CastsHold(s, [2]);
    assert [2][1..] == [] && FindEarliest(fx, s, [], None) == None;
    assert FindEarliest(fx, s, [2], None) == None;
    assert [] + [WorkerNode(0)] == [WorkerNode(0)];
    var r := Park(s, 0);
    assert r.services[2] == IDLE.services[2];
    assert r.services == IDLE.services;
    assert r.clients == IDLE.clients;
  }

  lemma Idles(fx: Fixes)
    ensures Leads(fx, OFFERED, ASKING, IDLE)
  {
    hide Around, Leads, SvrService;
    ParksWorker(fx);
    WalksOne(OFFERED, 0);
    WorkLeads(fx, OFFERED, 0, OFFERS, IDLE);
  }

  lemma NoQueueLeft(fx: Fixes)
    ensures var services := WorkerLeaves(IDLE.services, map[2 := 7], 0);
      (if fx.unlink then Unlinked(services, CallNode(3)) else services) == SERVED.services
  {
    assert Without([WorkerNode(0)], WorkerNode(0)) == [] && Without<Node>([], CallNode(3)) == [];
    hide Without;
    var services := WorkerLeaves(IDLE.services, map[2 := 7], 0);
    assert services[2] == SERVED.services[2] && services == SERVED.services;
    assert Unlinked(services, CallNode(3))[2] == SERVED.services[2];
    assert Unlinked(services, CallNode(3)) == SERVED.services;
  }

  lemma CallServes(fx: Fixes)
    ensures SvrAcall(fx, Unarm(IDLE, 1), 1, NAME_A, 0, 0, DRAWS) == Ok(SERVED)
  {
    hide NewCall, WorkerLeaves, Unlinked, Without;
    var s := Unarm(IDLE, 1);
    NewCallDraws(s);
    var s1 := NewCall(s, 1, 2, 0, 0, DRAWS).board;
    var s3 := Say(Say(s1, AcceptEntry(CALL, 3)), Submitted(1, 3, []));
    assert s3.log == LOGGED;
    var s4 := NextCommand(s3, 1).board;
    assert SendToWorker(fx, s3, 1) == SendToServer(fx, s4, 0, 3);
    NoQueueLeft(fx);
    var r := SendToServer(fx, s4, 0, 3).board;
    assert r.clients == SERVED.clients;
    assert r.calls == SERVED.calls;
    assert r.log == SERVED.log;
  }

  lemma CallsWorker(fx: Fixes)
    ensures Leads(fx, IDLE, CALLING, SERVED)
  {
    hide Around, CutName, Leads, RunHandler, SvrAcall, EncodeCall;
    CutsA();
    CallArrives(fx, Unarm(IDLE, 1), 1, DRAWS, FIELD_A, 0, 0);
    CallServes(fx);
    WalksNothing(IDLE, 1);
    MessageLeads(fx, IDLE, 1, EncodeCall(FIELD_A, 0, 0), Acall, DRAWS, SERVED);
  }

  lemma WaitsForAny()
    ensures SvrGetReply(Unarm(SERVED, 1), 1, 0, TPGETANY) == Ok(WAITING)
  {
    assert FlagSet(TPGETANY, TPGETANY) && !FlagSet(TPGETANY, TPNOBLOCK);
    assert SvrGetReply(Unarm(SERVED, 1), 1, 0, TPGETANY).board.clients == WAITING.clients;
  }

  lemma Collects(fx: Fixes)
    ensures Leads(fx, SERVED, COLLECTING, WAITING)
  {
    hide Around, Leads, RunHandler, SvrGetReply, EncodeGetReply;
    ShortValue(0);
    GetReplyArrives(fx, Unarm(SERVED, 1), 1, QUIET, 0, TPGETANY);
    WaitsForAny();
    WalksNothing(SERVED, 1);
    MessageLeads(fx, SERVED, 1, EncodeGetReply(0, TPGETANY), GetReply, QUIET, WAITING);
  }

  const RELEASED := WAITING.(
    clients := map[0 := WORKER, 1 := Client(AwaitReply, AnyReply, map[], [3], [])], calls := map[3 := FAILED],
    log := LOGGED + [HANDED, Abandoned(0, 3)])

  const STRANDING := RELEASED.(clients := map[0 := WORKER, 1 := Client(AwaitReply, AnyReply, map[], [], [3])])

  const ANSWERED := REPLIED.(
    clients := map[0 := WORKER, 1 := FRESH], services := SERVED.services, index := SERVED.index)

  lemma Releases()
    ensures LetGo(Failed(WAITING, 0, 3), 0, 3) == RELEASED
  {
    var r := LetGo(Failed(WAITING, 0, 3), 0, 3);
    assert r.clients[0] == WORKER && r.calls[3] == FAILED;
    assert r.clients == RELEASED.clients;
    assert r.calls == RELEASED.calls;
    assert r.log == RELEASED.log;
  }

  lemma KeepsFailure()
    ensures KeepReply(RELEASED, 3) == STRANDING
  {
    assert Without<Id>([3], 3) == [] && Without<Id>([], 3) == [];
    hide Without;
    var r := KeepReply(RELEASED, 3);
    assert r.clients[1] == STRANDING.clients[1];
    assert r.clients == STRANDING.clients;
  }

  /** The reply has been written, and the caller awaits its next command. */
  const RESUMED := ANSWERED.(clients := map[0 := WORKER, 1 := CALLER], calls := map[3 := FAILED])

  lemma Resumes()
    ensures Resume(Say(RELEASED, ReplyEntry(RELEASED, 3)), 1) == RESUMED
  {
    var r := Resume(Say(RELEASED, ReplyEntry(RELEASED, 3)), 1);
    assert r.clients[1] == CALLER && r.clients[0] == WORKER;
    assert r.clients == RESUMED.clients;
    assert r.log == RESUMED.log;
  }

  lemma DeletesAnswered()
    ensures DelCall(RESUMED, 3) == ANSWERED
  {
    assert Without<Id>([3], 3) == [] && Without<Id>([], 3) == [] && Without<Node>([], CallNode(3)) == [];
    hide Without;
    var r := DelCall(RESUMED, 3);
    assert r.clients[1] == FRESH && r.clients[0] == WORKER && r.services[2] == ANSWERED.services[2];
    assert r.clients == ANSWERED.clients;
    assert r.services == ANSWERED.services;
    assert r.calls == ANSWERED.calls;
  }

  lemma SendsFailure()
    ensures SndReply(RELEASED, 3) == Ok(ANSWERED)
  {
    hide SndReply, DelCall, Resume;
    SndReplyIs(RELEASED, 3);
    Resumes();
    DeletesAnswered();
  }

  lemma Abandons()
    ensures AbandonWork(AS_WRITTEN, WAITING, 0) == Ok(STRANDING) && AbandonWork(REPAIRED, WAITING, 0) == Ok(ANSWERED)
  {
    hide Finish, SndReply, KeepReply, LetGo;
    FinishIs(Failed(WAITING, 0, 3), 0, 3, false);
    FinishIs(Failed(WAITING, 0, 3), 0, 3, true);
    Releases();
    KeepsFailure();
    SendsFailure();
  }

  /** The rest of `del_client` when the worker has no calls of its own. */
  lemma CleansUp(s: Board, r: Board)
    requires s.clients.Keys == {0, 1} && s.clients[0] == WORKER && s.clients[1].adverts == map[] && s.services == SERVED.services
    requires s.index == SERVED.index && r == s.(clients := map[1 := s.clients[1]], services := map[], index := map[])
    ensures DelAdverts(s, 0, [2]).Ok?
    ensures var s2 := DelAdverts(s, 0, [2]).board;
      s2 == s.(clients := s.clients[0 := WORKER.(adverts := map[])], services := map[], index := map[])
      && DelRequests(s2, 0) == Ok(s2) && DelReplies(s2, 0) == Ok(s2) && s2.(clients := s2.clients - {0}) == r
  {
    assert Without<Node>([], WorkerNode(0)) == [];
    hide Without;
    var s1 := DropAdvert(s, 0, 2);
    assert WORKER.adverts - {2} == map[];
    assert s1.clients == s.clients[0 := WORKER.(adverts := map[])];
    assert s1.services[2] == s.services[2] && s1.services == s.services;
    assert !SomeoneAdvertises(s1, 2);
    assert Drain(s1, 2) == Ok(s1);
    var s2 := s1.(services := map[], index := map[]);
    assert s1.services - {2} == map[] && s1.index - {NAME_A} == map[];
    assert DelAdvert(s, 0, 2) == Ok(s2);
    assert [2][1..] == [] && DelAdverts(s2, 0, []) == Ok(s2);
    assert s2.clients - {0} == map[1 := s.clients[1]];
  }

  lemma Departs()
    ensures DelClient(AS_WRITTEN, WAITING, 0, [2]) == Ok(STRANDED) && DelClient(REPAIRED, WAITING, 0, [2]) == Ok(REPLIED)
  {
    hide AbandonWork, DelAdverts, DelRequests, DelReplies;
    Abandons();
    CleansUp(STRANDING, STRANDED);
    CleansUp(ANSWERED, REPLIED);
  }

  lemma WorkerLeavesThen(fx: Fixes, r: Board)
    requires DelClient(fx, WAITING, 0, [2]) == Ok(r)
    ensures Leads(fx, WAITING, [Leave(0, [2])], r)
  {
    hide DelClient, Leads;
    assert WAITING.clients[0].adverts.Keys == {2};
    LeadsNowhere(fx, r);
    LeadsBy(fx, WAITING, Leave(0, [2]), r, [], r);
    assert [Leave(0, [2])] + [] == [Leave(0, [2])];
  }

  /** The worker waits; the caller calls it and waits for any reply; the worker leaves. */
  const DEPARTING := [Arrive, Arrive] + OFFERING + ASKING + CALLING + COLLECTING + [Leave(0, [2])]

  lemma LeadsWaiting(fx: Fixes)
    ensures Leads(fx, EMPTY, [Arrive, Arrive] + OFFERING + ASKING + CALLING + COLLECTING, WAITING)
  {
    hide Leads, Sends;
    LeadsOffered(fx);
    Idles(fx);
    CallsWorker(fx);
    Collects(fx);
    var es := [Arrive, Arrive] + OFFERING;
    LeadsOn(fx, EMPTY, es, OFFERED, ASKING, IDLE);
    LeadsOn(fx, EMPTY, es + ASKING, IDLE, CALLING, SERVED);
    LeadsOn(fx, EMPTY, es + ASKING + CALLING, SERVED, COLLECTING, WAITING);
  }

  /** After one and the same possible run the caller is parked for a reply that is there, or, repaired, has been sent it. */
  lemma StrandedByShadowing()
    ensures PossibleRun(AS_WRITTEN, EMPTY, DEPARTING) && Run(AS_WRITTEN, EMPTY, DEPARTING) == Ok(STRANDED)
    ensures PossibleRun(REPAIRED, EMPTY, DEPARTING) && Run(REPAIRED, EMPTY, DEPARTING) == Ok(REPLIED)
  {
    hide Leads, Sends, Run, PossibleRun;
    Departs();
    var es := [Arrive, Arrive] + OFFERING + ASKING + CALLING + COLLECTING;
    LeadsWaiting(AS_WRITTEN);
    WorkerLeavesThen(AS_WRITTEN, STRANDED);
    LeadsOn(AS_WRITTEN, EMPTY, es, WAITING, [Leave(0, [2])], STRANDED);
    LeadsMeans(AS_WRITTEN, EMPTY, DEPARTING, STRANDED);
    LeadsWaiting(REPAIRED);
    WorkerLeavesThen(REPAIRED, REPLIED);
    LeadsOn(REPAIRED, EMPTY, es, WAITING, [Leave(0, [2])], REPLIED);
    LeadsMeans(REPAIRED, EMPTY, DEPARTING, REPLIED);
  }

  // ---------- the later call is served first ----------

  const NAME_B: Name := [66]
  const FIELD_B: seq<byte> := [66, 0, 0, 0, 0, 0, 0, 0, 0, 0, 0, 0, 0, 0, 0]
  const BATCH_2: seq<Short> := [5, 9] + Zeros(NUM_FREE_CD - 2)
  const EARLY := Env(100, [], [BATCH_2])
  const LATE := Env(200, [], [])
  const BOTH := Env(300, [2, 3], [])
  const WORKER_2 := Client(NEXT, Nothing, map[2 := 7, 3 := 8], [], [])
  const INDEX_2 := map[NAME_A := 2, NAME_B := 3]
  const CALL_A := Call(1, 2, 100, 0, 5, None, [], 0, 0)
  const CALL_B := Call(1, 3, 200, 0, 9, None, [], 0, 0)
  const HALF_POOL := Pool(Zeros(NUM_FREE_CD)[1 := 9], 1)
  const LOG_A := [Status(0, 0), Status(0, 0), Accepted(1, 4, 5, 2, 0), Submitted(1, 4, [])]

  /** Client 0 offers the services 2 and 3. */
  const OFFERED_2 := Board(
    map[0 := WORKER_2, 1 := FRESH], map[2 := Service(NAME_A, [], false), 3 := Service(NAME_B, [], false)], INDEX_2,
    map[], FIRST_POOL, 4, [Status(0, 0), Status(0, 0)])

  const ONE_CALL := Board(
    map[0 := WORKER_2, 1 := FRESH.(requests := [4])],
    map[2 := Service(NAME_A, [CallNode(4)], true), 3 := Service(NAME_B, [], false)], INDEX_2,
    map[4 := CALL_A], HALF_POOL, 5, LOG_A)

  /** A call waits for each; the one for service 3 arrived later. */
  const TWO_CALLS := Board(
    map[0 := WORKER_2, 1 := FRESH.(requests := [4, 5])],
    map[2 := Service(NAME_A, [CallNode(4)], true), 3 := Service(NAME_B, [CallNode(5)], true)], INDEX_2,
    map[4 := CALL_A, 5 := CALL_B], Pool(Zeros(NUM_FREE_CD), 2), 6, LOG_A + [Accepted(1, 5, 9, 3, 0), Submitted(1, 5, [])])

  const OFFERING_B := Sends(0, EncodeAdvertise(FIELD_B, 8), OFFERS)
  const CALLING_A := Sends(1, EncodeCall(FIELD_A, 0, 0), EARLY)
  const CALLING_B := Sends(1, EncodeCall(FIELD_B, 0, 0), LATE)

  lemma CutsB()
    ensures CutName(FIELD_B) == NAME_B && NameField(FIELD_B)
  {
    assert FIELD_B[0] == 66 && FIELD_B[1..][0] == 0;
    assert CutName(FIELD_B[1..], 14) == [];
  }

  lemma OffersB(fx: Fixes)
    ensures Leads(fx, OFFERED, OFFERING_B, OFFERED_2)
  {
    hide Around, CutName, Leads, RunHandler, EncodeAdvertise;
    CutsB();
    var s := Unarm(OFFERED, 0);
    AdvertiseArrives(fx, s, 0, OFFERS, FIELD_B, 8);
    var r := SvrAdvertise(s, 0, NAME_B, 8).board;
    assert r.clients[0] == WORKER_2;
    assert r.clients == OFFERED_2.clients;
    assert r.services == OFFERED_2.services;
    assert r.index == INDEX_2;
    WalksOne(OFFERED, 0);
    assert CommandHandler(EncodeAdvertise(FIELD_B, 8)[0]) == Some(Advertise);
    MessageLeads(fx, OFFERED, 0, EncodeAdvertise(FIELD_B, 8), Advertise, OFFERS, OFFERED_2);
  }

  lemma AroundCaller(s: Board, env: Env)
    requires 1 in s.clients && s.clients[1].conn == NEXT && s.clients[1].adverts == map[] && (env == EARLY || env == LATE)
    ensures Around(s, 1, env)
  {
    assert |BATCH_2| == NUM_FREE_CD;
  }

  lemma DrawsBoth()
    ensures Take(FIRST_POOL, {}, [BATCH_2]) == Some(Taken(5, HALF_POOL))
    ensures Take(HALF_POOL, {5}, []) == Some(Taken(9, Pool(Zeros(NUM_FREE_CD), 2)))
  {
    assert FirstFree(Zeros(NUM_FREE_CD), 0) == NUM_FREE_CD;
    var p := Prune(BATCH_2, {});
    assert p[0] == 5 && FirstFree(p, 0) == 0;
    assert [BATCH_2][1..] == [];
    assert p[0 := 0] == Zeros(NUM_FREE_CD)[1 := 9];
    assert FirstFree(HALF_POOL.free, 1) == 1;
    assert HALF_POOL.free[1 := 0] == Zeros(NUM_FREE_CD);
  }

  /** A call without a body goes to a queue where no worker waits. */
  lemma JoinsQueue(fx: Fixes, s: Board, v: Id, k: Call, t: Id, r: Board)
    requires 1 in s.clients && s.clients[1].conn == Running && v in s.services && s.services[v].holdsCalls == (s.services[v].waitq != [])
    requires t !in s.calls && k.svc == v && k.client == 1
    requires r.clients == s.clients[1 := s.clients[1].(conn := NEXT, requests := s.clients[1].requests + [t])]
    requires r.services == s.services[v := Service(s.services[v].name, s.services[v].waitq + [CallNode(t)], true)]
    requires r.calls == s.calls[t := k] && r.index == s.index && r.log == s.log + [AcceptEntry(k, t), Submitted(1, t, [])]
    ensures var s1 := s.(clients := s.clients[1 := s.clients[1].(requests := s.clients[1].requests + [t])], calls := s.calls[t := k], pool := r.pool, next := r.next);
      SendToWorker(fx, Say(Say(s1, AcceptEntry(k, t)), Submitted(1, t, [])), 1) == Ok(r)
  {
    var s1 := s.(clients := s.clients[1 := s.clients[1].(requests := s.clients[1].requests + [t])], calls := s.calls[t := k], pool := r.pool, next := r.next);
    var s3 := Say(Say(s1, AcceptEntry(k, t)), Submitted(1, t, []));
    assert s3.log == r.log;
    var s4 := NextCommand(s3, 1).board;
    assert s4.clients == r.clients;
    assert Last(s4.clients[1].requests) == t;
    assert Enqueue(s4, t).services == r.services;
  }

  lemma QueuesA(fx: Fixes)
    ensures SvrAcall(fx, Unarm(OFFERED_2, 1), 1, NAME_A, 0, 0, EARLY) == Ok(ONE_CALL)
  {
    hide SendToWorker, Take, LiveCds;
    var s := Unarm(OFFERED_2, 1);
    NoCds();
    DrawsBoth();
    assert ZeroBytes(0) == [];
    assert FRESH.requests + [4] == [4] && [] + [CallNode(4)] == [CallNode(4)];
    assert s.calls[4 := CALL_A] == map[4 := CALL_A];
    JoinsQueue(fx, s, 2, CALL_A, 4, ONE_CALL);
  }

  lemma CdsOfA()
    ensures LiveCds(map[4 := CALL_A]) == {5}
  {
    var calls := map[4 := CALL_A];
    assert calls[4].cd == 5;
  }

  lemma QueuesB(fx: Fixes)
    ensures SvrAcall(fx, Unarm(ONE_CALL, 1), 1, NAME_B, 0, 0, LATE) == Ok(TWO_CALLS)
  {
    hide SendToWorker, Take, LiveCds;
    var s := Unarm(ONE_CALL, 1);
    CdsOfA();
    DrawsBoth();
    assert ZeroBytes(0) == [];
    assert [4] + [5] == [4, 5] && [] + [CallNode(5)] == [CallNode(5)];
    assert s.calls[5 := CALL_B] == map[4 := CALL_A, 5 := CALL_B];
    JoinsQueue(fx, s, 3, CALL_B, 5, TWO_CALLS);
  }

  lemma CallsBoth(fx: Fixes)
    ensures Leads(fx, OFFERED_2, CALLING_A, ONE_CALL) && Leads(fx, ONE_CALL, CALLING_B, TWO_CALLS)
  {
    hide Around, CutName, Leads, RunHandler, SvrAcall, EncodeCall;
    CutsA();
    CutsB();
    CallArrives(fx, Unarm(OFFERED_2, 1), 1, EARLY, FIELD_A, 0, 0);
    CallArrives(fx, Unarm(ONE_CALL, 1), 1, LATE, FIELD_B, 0, 0);
    QueuesA(fx);
    QueuesB(fx);
    AroundCaller(OFFERED_2, EARLY);
    AroundCaller(ONE_CALL, LATE);
    MessageLeads(fx, OFFERED_2, 1, EncodeCall(FIELD_A, 0, 0), Acall, EARLY, ONE_CALL);
    MessageLeads(fx, ONE_CALL, 1, EncodeCall(FIELD_B, 0, 0), Acall, LATE, TWO_CALLS);
  }

  lemma Picks(s: Board)
    requires s.services == TWO_CALLS.services && s.calls == TWO_CALLS.calls
    ensures CastsHold(s, [2, 3]) && HeadIsCall(s, 2) && HeadIsCall(s, 3) && FirstCall(s, 2) == 4 && FirstCall(s, 3) == 5
    ensures FindEarliest(AS_WRITTEN, s, [2, 3], None) == Some(3)
    ensures FindEarliest(REPAIRED, s, [2, 3], None) == Some(2)
  {
    assert s.services[2].waitq[0] == CallNode(4) && s.services[3].waitq[0] == CallNode(5);
    assert HeadIsCall(s, 2) && HeadIsCall(s, 3) && FirstCall(s, 2) == 4 && FirstCall(s, 3) == 5;
    assert [2, 3][1..] == [3];
    assert [3][1..] == [];
    assert FindEarliest(AS_WRITTEN, s, [3], Some(2)) == FindEarliest(AS_WRITTEN, s, [], Some(3));
    assert FindEarliest(REPAIRED, s, [3], Some(2)) == FindEarliest(REPAIRED, s, [], Some(2));
  }

  lemma ServesLater()
    ensures SvrService(AS_WRITTEN, Unarm(TWO_CALLS, 0), 0, BOTH).Ok?
    ensures SvrService(AS_WRITTEN, Unarm(TWO_CALLS, 0), 0, BOTH).board.log == TWO_CALLS.log + [Handed(0, 5, 3, 8, NAME_B, 0, 9, [])]
    ensures SvrService(REPAIRED, Unarm(TWO_CALLS, 0), 0, BOTH).Ok?
    ensures SvrService(REPAIRED, Unarm(TWO_CALLS, 0), 0, BOTH).board.log == TWO_CALLS.log + [Handed(0, 4, 2, 7, NAME_A, 0, 5, [])]
  {
    hide FindEarliest, CastsHold, WorkerLeaves, Unlinked;
    Picks(Unarm(TWO_CALLS, 0));
  }

  lemma AroundWorker()
    ensures Around(TWO_CALLS, 0, BOTH)
  {
    assert TWO_CALLS.clients[0].adverts.Keys == {2, 3};
  }

  lemma LeadsTwoCalls(fx: Fixes)
    ensures Leads(fx, EMPTY, [Arrive, Arrive] + OFFERING + OFFERING_B + CALLING_A + CALLING_B, TWO_CALLS)
  {
    hide Leads, Sends;
    LeadsOffered(fx);
    OffersB(fx);
    CallsBoth(fx);
    var es := [Arrive, Arrive] + OFFERING;
    LeadsOn(fx, EMPTY, es, OFFERED, OFFERING_B, OFFERED_2);
    LeadsOn(fx, EMPTY, es + OFFERING_B, OFFERED_2, CALLING_A, ONE_CALL);
    LeadsOn(fx, EMPTY, es + OFFERING_B + CALLING_A, ONE_CALL, CALLING_B, TWO_CALLS);
  }

  /** One worker offers two services; each is called, one at time 100 and one at time 200; the worker asks for work. */
  const CHOOSING := [Arrive, Arrive] + OFFERING + OFFERING_B + CALLING_A + CALLING_B + [Read(0, [TPTWORK], BOTH)]

  lemma ChoiceLeads(fx: Fixes, r: Board)
    requires SvrService(fx, Unarm(TWO_CALLS, 0), 0, BOTH) == Ok(r)
    ensures PossibleRun(fx, EMPTY, CHOOSING) && Run(fx, EMPTY, CHOOSING) == Ok(r)
  {
    hide Leads, Sends, Run, PossibleRun, Around, SvrService;
    LeadsTwoCalls(fx);
    AroundWorker();
    WorkLeads(fx, TWO_CALLS, 0, BOTH, r);
    LeadsOn(fx, EMPTY, [Arrive, Arrive] + OFFERING + OFFERING_B + CALLING_A + CALLING_B, TWO_CALLS, [Read(0, [TPTWORK], BOTH)], r);
    LeadsMeans(fx, EMPTY, CHOOSING, r);
  }

  /** After one and the same possible run the worker has been handed the later call as written, and the earlier one repaired. */
  lemma LaterServedFirst()
    ensures PossibleRun(AS_WRITTEN, EMPTY, CHOOSING) && Run(AS_WRITTEN, EMPTY, CHOOSING).Ok?
    ensures Run(AS_WRITTEN, EMPTY, CHOOSING).board.log == TWO_CALLS.log + [Handed(0, 5, 3, 8, NAME_B, 0, 9, [])]
    ensures PossibleRun(REPAIRED, EMPTY, CHOOSING) && Run(REPAIRED, EMPTY, CHOOSING).Ok?
    ensures Run(REPAIRED, EMPTY, CHOOSING).board.log == TWO_CALLS.log + [Handed(0, 4, 2, 7, NAME_A, 0, 5, [])]
    ensures TWO_CALLS.calls[4].arrival < TWO_CALLS.calls[5].arrival
  {
    hide Run, PossibleRun, Sends, SvrService;
    ServesLater();
    ChoiceLeads(AS_WRITTEN, SvrService(AS_WRITTEN, Unarm(TWO_CALLS, 0), 0, BOTH).board);
    ChoiceLeads(REPAIRED, SvrService(REPAIRED, Unarm(TWO_CALLS, 0), 0, BOTH).board);
  }

  // ---------- a worker whose caller has gone ----------

  /**
   Whenever a client leaves while one of its calls is executed, the worker's return, which the protocol
   obliges it to send, dereferences a null pointer.
   */
  lemma ReturnToNobodyFaults(fx: Fixes, s: Board, c: Id, order: seq<Id>, t: Id, w: Id, rval: byte, rcode: int, len: int)
    requires Inv(s) && c in s.clients && Walks(order, s.clients[c].adverts.Keys)
    requires t in s.calls && s.calls[t].client == c && s.calls[t].executor == Some(w) && w != c
    ensures DelClient(fx, s, c, order).Ok?
    ensures SvrReturn(DelClient(fx, s, c, order).board, w, rval, rcode, len) == Fault(NullPointer)
  {
    hide Inv, DelClient, Walks, LeaveOk, Eased;
    InvExecutor(s, t);
    if LeaveOk(fx, s, c) {
      NobodyToReturnTo(fx, s, c, order, t, w);
    } else {
      var to := s.calls[s.clients[c].wait4.call].client by { StrandsSomeone(fx, s, c); }
      DepartureEased(fx, s, c, order);
      EasedWorker(s, DelClient(fx, s, c, order).board, t, w, to);
      NobodyToReturnTo(fx, Eased(s, to), c, order, t, w);
    }
  }

  /** Only `to`'s `wait4` differs, and it is not the worker. */
  lemma EasedWorker(s: Board, r: Board, t: Id, w: Id, to: Id)
    requires t in s.calls && w in s.clients && s.clients[w].wait4 == For(t)
    ensures Eased(s, to).calls == s.calls && w in Eased(s, to).clients && Eased(s, to).clients[w] == s.clients[w]
    ensures w in Eased(r, to).clients && Eased(r, to).clients[w].wait4 == Nothing ==> w in r.clients && !r.clients[w].wait4.For?
  {
  }

  lemma NobodyToReturnTo(fx: Fixes, s: Board, c: Id, order: seq<Id>, t: Id, w: Id)
    requires Inv(s) && c in s.clients && Walks(order, s.clients[c].adverts.Keys) && LeaveOk(fx, s, c)
    requires t in s.calls && s.calls[t].client == c && w in s.clients && s.clients[w].wait4 == For(t) && w != c
    ensures DelClient(fx, s, c, order).Ok? && w in DelClient(fx, s, c, order).board.clients
    ensures DelClient(fx, s, c, order).board.clients[w].wait4 == Nothing
  {
    hide InvX, DelClient, Walks;
    NothingIsLeft(fx, s, c, order);
    SettledQuiet(s, c);
    DelClientKeeps(fx, s, c, order);
    assert NoCall(DelClient(fx, s, c, order).board, t);
  }

  lemma InvExecutor(s: Board, t: Id)
    requires Inv(s) && t in s.calls && s.calls[t].executor.Some?
    ensures var w := s.calls[t].executor.value; w in s.clients && s.clients[w].wait4 == For(t)
  {
    hide Distinct, Tables, Lists, Queues, Waiters, Buffers, Phases, Cds;
  }
}
