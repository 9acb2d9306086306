/** Runs that no choice of the repairs survives: that they can happen, from the empty switchboard. */
module FailingRuns {
  import opened Sequences
  import opened Wire
  import opened Descriptors
  import opened Board
  import opened Departure
  import opened Handlers
  import opened Steps
  import opened Runs
  import opened Orphans
  import opened Codec
  import opened AsWritten
  import opened Waiting

  // ---------- good runs, message by message ----------

  /** The run `es` is possible and allowed, and leads from `s` to `r`. */
  ghost predicate GoesWell(fx: Fixes, s: Board, es: seq<Event>, r: Board) {
    GoodRun(fx, s, es) && Run(fx, s, es) == Ok(r)
  }

  lemma WellNowhere(fx: Fixes, s: Board)
    ensures GoesWell(fx, s, [], s)
  {
  }

  lemma WellBy(fx: Fixes, s: Board, e: Event, m: Board, es: seq<Event>, r: Board)
    requires Possible(s, e) && Allowed(fx, s, e) && Step(fx, s, e) == Ok(m) && GoesWell(fx, m, es, r)
    ensures GoesWell(fx, s, [e] + es, r)
  {
    hide Possible, Allowed, Step;
    assert ([e] + es)[0] == e && ([e] + es)[1..] == es;
  }

  lemma WellOnce(fx: Fixes, s: Board, e: Event, r: Board)
    requires Possible(s, e) && Allowed(fx, s, e) && Step(fx, s, e) == Ok(r)
    ensures GoesWell(fx, s, [e], r)
  {
    hide Possible, Allowed, Step, GoesWell;
    WellNowhere(fx, r);
    WellBy(fx, s, e, r, [], r);
    assert [e] + [] == [e];
  }

  lemma {:induction false} WellOn(fx: Fixes, s: Board, es: seq<Event>, m: Board, fs: seq<Event>, r: Board)
    requires GoesWell(fx, s, es, m) && GoesWell(fx, m, fs, r)
    ensures GoesWell(fx, s, es + fs, r)
    decreases |es|
  {
    hide Possible, Allowed, Step;
    if es == [] {
      assert es + fs == fs;
    } else {
      var s1 := Step(fx, s, es[0]).board;
      WellOn(fx, s1, es[1..], m, fs, r);
      WellBy(fx, s, es[0], s1, es[1..] + fs, r);
      assert [es[0]] + (es[1..] + fs) == es + fs;
    }
  }

  lemma {:induction false} GoodIsPossible(fx: Fixes, s: Board, es: seq<Event>)
    requires GoodRun(fx, s, es)
    ensures PossibleRun(fx, s, es)
    decreases |es|
  {
    hide Possible, Allowed, Step;
    if es != [] && Step(fx, s, es[0]).Ok? { GoodIsPossible(fx, Step(fx, s, es[0]).board, es[1..]); }
  }

  /** A message whose handler may be run. */
  lemma MessageGoesWell(fx: Fixes, s: Board, c: Id, m: seq<byte>, h: Handler, env: Env, r: Board)
    requires Around(s, c, env) && Frames(m, h) && m[0] != TPTWORK && h != Command && HandlerOk(fx, Unarm(s, c), c, h, m[1..], env)
    requires RunHandler(fx, Unarm(s, c), c, h, m[1..], env) == Ok(r)
    ensures GoesWell(fx, s, Sends(c, m, env), r)
  {
    hide RunHandler, Walks, GoodBatches, GoesWell, HandlerOk;
    var conn := Receiving(h, Scratch([m[0]] + ZeroBytes(CommandLength(h) - 1)), 0);
    var s1 := PutClient(s, c, s.clients[c].(conn := conn));
    CommandByteArms(fx, s, c, m[0], h, env);
    CommandByteAllowed(fx, s, c, m[0], h, env);
    assert Splice(conn.input.bytes, 0, m[1..]) == m[1..];
    assert Unarm(s1, c).clients == Unarm(s, c).clients;
    UnarmJudges(fx, s1, c, h, m[1..], env);
    WellOnce(fx, s1, Read(c, m[1..], env), r);
    WellBy(fx, s, Read(c, [m[0]], env), s1, [Read(c, m[1..], env)], r);
    assert [Read(c, [m[0]], env)] + [Read(c, m[1..], env)] == Sends(c, m, env);
  }

  lemma CommandByteAllowed(fx: Fixes, s: Board, c: Id, b: byte, h: Handler, env: Env)
    requires Around(s, c, env) && CommandHandler(b) == Some(h) && h != Command && Possible(s, Read(c, [b], env))
    ensures Allowed(fx, s, Read(c, [b], env))
  {
    hide Walks, GoodBatches;
    assert Splice(ZeroBytes(1), 0, [b]) == [b];
  }

  lemma WorkGoesWell(fx: Fixes, s: Board, c: Id, env: Env, r: Board)
    requires Around(s, c, env) && WorkOk(fx, s, c) && SvrService(fx, Unarm(s, c), c, env) == Ok(r)
    ensures GoesWell(fx, s, [Read(c, [TPTWORK], env)], r)
  {
    hide Walks, GoodBatches, SvrService, GoesWell, WorkOk;
    assert Splice(ZeroBytes(1), 0, [TPTWORK]) == [TPTWORK];
    WellOnce(fx, s, Read(c, [TPTWORK], env), r);
  }

  // ---------- a caller leaves while its worker sends the reply ----------

  lemma ArriveWell(fx: Fixes)
    ensures GoesWell(fx, EMPTY, [Arrive, Arrive], TWO)
  {
    var one := Board(map[0 := FRESH], map[], map[], map[], FIRST_POOL, 1, []);
    assert Connect(EMPTY).board.clients == one.clients;
    assert Connect(one).board.clients == TWO.clients;
    hide GoesWell;
    WellOnce(fx, one, Arrive, TWO);
    WellBy(fx, EMPTY, Arrive, one, [Arrive], TWO);
    assert [Arrive] + [Arrive] == [Arrive, Arrive];
  }

  lemma OffersWell(fx: Fixes)
    ensures GoesWell(fx, TWO, OFFERING, OFFERED)
  {
    hide Around, CutName, GoesWell, RunHandler, EncodeAdvertise;
    AdvertisesA(fx);
    WalksNothing(TWO, 0);
    MessageGoesWell(fx, TWO, 0, EncodeAdvertise(FIELD_A, 7), Advertise, QUIET, OFFERED);
  }

  lemma OfferedWell(fx: Fixes)
    ensures GoesWell(fx, EMPTY, [Arrive, Arrive] + OFFERING, OFFERED)
  {
    hide GoesWell, Sends;
    ArriveWell(fx);
    OffersWell(fx);
    WellOn(fx, EMPTY, [Arrive, Arrive], TWO, OFFERING, OFFERED);
  }

  lemma IdlesWell(fx: Fixes)
    ensures GoesWell(fx, OFFERED, ASKING, IDLE)
  {
    hide Around, GoesWell, SvrService;
    ParksWorker(fx);
    WalksOne(OFFERED, 0);
    assert WorkOk(fx, OFFERED, 0);
    WorkGoesWell(fx, OFFERED, 0, OFFERS, IDLE);
  }

  lemma DrawsWellFirst()
    ensures DrawsWell(FIRST_POOL, {}, [BATCH])
  {
    assert FirstFree(Zeros(NUM_FREE_CD), 0) == NUM_FREE_CD;
    var p := Prune(BATCH, {});
    assert p[0] == 5 && FirstFree(p, 0) == 0;
    assert Unrepeated(p, 0);
    assert DrawsWell(Pool(p, 0), {}, [BATCH][1..]);
  }

  /** The header of a call, with whatever length, may be handled. */
  lemma CallAllowed(fx: Fixes, s: Board, m: seq<byte>)
    requires s.calls == map[] && s.pool == FIRST_POOL && |m| == CommandLength(Acall)
    ensures HandlerOk(fx, s, 1, Acall, m, DRAWS)
  {
    hide DrawsWell, LiveCds, CutName, ToLong;
    NoCds();
    DrawsWellFirst();
  }

  lemma CallsWell(fx: Fixes)
    ensures GoesWell(fx, IDLE, CALLING, SERVED)
  {
    hide Around, CutName, GoesWell, RunHandler, SvrAcall, EncodeCall, HandlerOk;
    CutsA();
    CallArrives(fx, Unarm(IDLE, 1), 1, DRAWS, FIELD_A, 0, 0);
    CallServes(fx);
    WalksNothing(IDLE, 1);
    CallAllowed(fx, Unarm(IDLE, 1), EncodeCall(FIELD_A, 0, 0)[1..]);
    MessageGoesWell(fx, IDLE, 1, EncodeCall(FIELD_A, 0, 0), Acall, DRAWS, SERVED);
  }

  const REPLYING := WORKER.(conn := Receiving(ReturnBody, DataOf(3), 0), wait4 := For(3))

  /** The worker has announced a reply of one byte. */
  const SENDING := SERVED.(
    clients := map[0 := REPLYING, 1 := CALLER],
    calls := map[3 := CALL.(executor := Some(0), rval := TPSUCCESS, data := [0])])

  /** The caller has gone; the worker's connection is armed with the freed buffer. */
  const ORPHAN := SERVED.(clients := map[0 := REPLYING.(wait4 := Nothing)], calls := map[])

  /** The header of the return, without its body. */
  const HEADER := EncodeReturn(TPSUCCESS, 0, [9])[..1 + CommandLength(Return)]
  const ANNOUNCING := Sends(0, HEADER, OFFERS)

  lemma Announces()
    ensures SvrReturn(Unarm(SERVED, 0), 0, TPSUCCESS, 0, 1) == Ok(SENDING)
  {
    assert Resize([], 1) == [0];
    var r := SvrReturn(Unarm(SERVED, 0), 0, TPSUCCESS, 0, 1).board;
    assert r.clients[0] == REPLYING;
    assert r.clients == SENDING.clients;
    assert r.calls == SENDING.calls;
  }

  lemma AnnouncesWell(fx: Fixes)
    ensures GoesWell(fx, SERVED, ANNOUNCING, SENDING)
  {
    hide Around, GoesWell, RunHandler, SvrReturn, EncodeReturn, ToLong;
    ReturnArrives(fx, Unarm(SERVED, 0), 0, OFFERS, TPSUCCESS, 0, [9]);
    Announces();
    WalksOne(SERVED, 0);
    LengthOfHeader();
    assert HandlerOk(fx, Unarm(SERVED, 0), 0, Return, HEADER[1..], OFFERS);
    MessageGoesWell(fx, SERVED, 0, HEADER, Return, OFFERS, SENDING);
  }

  lemma LengthOfHeader()
    ensures |HEADER| == 1 + CommandLength(Return) && ToLong(HEADER[1..], 1 + IOLONG) == 1
  {
    hide ToLong, Long;
    var b := HEADER[1..];
    assert b == [TPSUCCESS] + Long(0) + Long(1);
    assert b[1 + IOLONG..1 + IOLONG + IOLONG] == Long(1);
    LongRoundTrip(b, 1 + IOLONG, 1);
  }

  lemma CallGoes()
    ensures DelCall(SENDING, 3) == ORPHAN.(clients := map[0 := REPLYING.(wait4 := Nothing), 1 := FRESH])
  {
    assert Without<Id>([3], 3) == [] && Without<Id>([], 3) == [] && Without<Node>([], CallNode(3)) == [];
    hide Without;
    var r := DelCall(SENDING, 3);
    assert r.clients[0] == REPLYING.(wait4 := Nothing) && r.clients[1] == FRESH && r.services[2] == ORPHAN.services[2];
    assert r.clients == map[0 := REPLYING.(wait4 := Nothing), 1 := FRESH];
    assert r.services == ORPHAN.services;
    assert r.calls == map[];
  }

  lemma CallerGoes(fx: Fixes)
    ensures DelClient(fx, SENDING, 1, []) == Ok(ORPHAN)
  {
    hide DelCall;
    CallGoes();
    var s1 := DelCall(SENDING, 3);
    assert DelRequests(s1, 1) == Ok(s1) && DelReplies(s1, 1) == Ok(s1);
    assert DelRequests(SENDING, 1) == Ok(s1);
    assert s1.clients - {1} == ORPHAN.clients;
  }

  lemma LeavesWell(fx: Fixes)
    ensures GoesWell(fx, SENDING, [Leave(1, [])], ORPHAN)
  {
    hide GoesWell, DelClient;
    CallerGoes(fx);
    assert SENDING.clients[1].adverts.Keys == {};
    WellOnce(fx, SENDING, Leave(1, []), ORPHAN);
  }

  /** The worker waits and is called; it announces a reply of one byte; the caller leaves. */
  const ORPHANING := [Arrive, Arrive] + OFFERING + ASKING + CALLING + ANNOUNCING + [Leave(1, [])]

  /** A run in which every event is allowed leaves a connection that no later event of it survives, whatever the repairs. */
  lemma WorkerIsOrphaned(fx: Fixes)
    ensures GoodRun(fx, EMPTY, ORPHANING) && PossibleRun(fx, EMPTY, ORPHANING) && Run(fx, EMPTY, ORPHANING) == Ok(ORPHAN)
    ensures DeadInput(ORPHAN, 0) && Unservable(fx, ORPHAN, 0)
    ensures Step(fx, ORPHAN, Leave(0, [2])) == Fault(UseAfterFree)
  {
    hide GoesWell, Sends, Run, GoodRun, PossibleRun, Unservable;
    OfferedWell(fx);
    IdlesWell(fx);
    CallsWell(fx);
    AnnouncesWell(fx);
    LeavesWell(fx);
    var es := [Arrive, Arrive] + OFFERING;
    WellOn(fx, EMPTY, es, OFFERED, ASKING, IDLE);
    WellOn(fx, EMPTY, es + ASKING, IDLE, CALLING, SERVED);
    WellOn(fx, EMPTY, es + ASKING + CALLING, SERVED, ANNOUNCING, SENDING);
    WellOn(fx, EMPTY, es + ASKING + CALLING + ANNOUNCING, SENDING, [Leave(1, [])], ORPHAN);
    WellMeans(fx, EMPTY, ORPHANING, ORPHAN);
    GoodIsPossible(fx, EMPTY, ORPHANING);
    DeadFaults(fx, ORPHAN, 0);
  }

  lemma WellMeans(fx: Fixes, s: Board, es: seq<Event>, r: Board)
    requires GoesWell(fx, s, es, r)
    ensures GoodRun(fx, s, es) && Run(fx, s, es) == Ok(r)
  {
  }

  // ---------- a service goes while the body of a call to it arrives ----------

  const WRITING := Client(Receiving(CallBody, DataOf(3), 0), Nothing, map[], [3], [])

  /** The caller has announced a body of one byte. */
  const ARRIVING := Board(
    map[0 := WORKER, 1 := WRITING], OFFERED.services, OFFERED.index, map[3 := CALL.(data := [0])], POOL, 4,
    [Status(0, 0), Accepted(1, 3, 5, 2, 0)])

  /** The only advertiser has gone, and the service with it. */
  const UNSERVED := ARRIVING.(clients := map[1 := WRITING], services := map[], index := map[])

  const STARTING := Sends(1, EncodeCall(FIELD_A, 1, 0), DRAWS)

  lemma Starts(fx: Fixes)
    ensures SvrAcall(fx, Unarm(OFFERED, 1), 1, NAME_A, 1, 0, DRAWS) == Ok(ARRIVING)
  {
    hide Take, LiveCds;
    var s := Unarm(OFFERED, 1);
    NoCds();
    DrawsFive();
    assert ZeroBytes(1) == [0];
    assert FRESH.requests + [3] == [3];
    var r := SvrAcall(fx, s, 1, NAME_A, 1, 0, DRAWS).board;
    assert r.clients[1] == WRITING;
    assert r.clients == ARRIVING.clients;
    assert r.calls == ARRIVING.calls;
    assert r.log == ARRIVING.log;
  }

  lemma StartsWell(fx: Fixes)
    ensures GoesWell(fx, OFFERED, STARTING, ARRIVING)
  {
    hide Around, CutName, GoesWell, RunHandler, SvrAcall, EncodeCall, HandlerOk;
    CutsA();
    CallArrives(fx, Unarm(OFFERED, 1), 1, DRAWS, FIELD_A, 1, 0);
    Starts(fx);
    WalksNothing(OFFERED, 1);
    CallAllowed(fx, Unarm(OFFERED, 1), EncodeCall(FIELD_A, 1, 0)[1..]);
    MessageGoesWell(fx, OFFERED, 1, EncodeCall(FIELD_A, 1, 0), Acall, DRAWS, ARRIVING);
  }

  lemma AdvertiserGoes(fx: Fixes)
    ensures DelClient(fx, ARRIVING, 0, [2]) == Ok(UNSERVED)
  {
    hide DelAdverts, DelRequests, DelReplies;
    CleansUp(ARRIVING, UNSERVED);
  }

  lemma AdvertiserGoesWell(fx: Fixes)
    ensures GoesWell(fx, ARRIVING, [Leave(0, [2])], UNSERVED)
  {
    hide GoesWell, DelClient;
    AdvertiserGoes(fx);
    assert ARRIVING.clients[0].adverts.Keys == {2};
    WellOnce(fx, ARRIVING, Leave(0, [2]), UNSERVED);
  }

  lemma BodyFindsNothing(fx: Fixes)
    ensures Possible(UNSERVED, Read(1, [9], QUIET)) && Step(fx, UNSERVED, Read(1, [9], QUIET)) == Fault(UseAfterFree)
  {
    assert UNSERVED.clients[1].adverts.Keys == {};
  }

  /** A service is offered and called; its only advertiser leaves before the body is there; the body comes. */
  const COMING := [Arrive, Arrive] + OFFERING + STARTING + [Leave(0, [2])]

  lemma {:induction false} ThenFaults(fx: Fixes, s: Board, es: seq<Event>, r: Board, e: Event, why: Why)
    requires GoesWell(fx, s, es, r) && Possible(r, e) && Step(fx, r, e) == Fault(why)
    ensures PossibleRun(fx, s, es + [e]) && Run(fx, s, es + [e]) == Fault(why)
    decreases |es|
  {
    hide Possible, Allowed, Step;
    if es == [] {
      assert es + [e] == [e];
    } else {
      assert (es + [e])[0] == es[0] && (es + [e])[1..] == es[1..] + [e];
      ThenFaults(fx, Step(fx, s, es[0]).board, es[1..], r, e, why);
    }
  }

  /** Every event but the last is allowed; the last byte of the body finds the service freed, whatever the repairs. */
  lemma ServiceIsGone(fx: Fixes)
    ensures GoodRun(fx, EMPTY, COMING) && Run(fx, EMPTY, COMING) == Ok(UNSERVED)
    ensures PossibleRun(fx, EMPTY, COMING + [Read(1, [9], QUIET)])
    ensures Run(fx, EMPTY, COMING + [Read(1, [9], QUIET)]) == Fault(UseAfterFree)
  {
    hide GoesWell, Sends, Run, GoodRun, PossibleRun, Possible, Step;
    OfferedWell(fx);
    StartsWell(fx);
    AdvertiserGoesWell(fx);
    var es := [Arrive, Arrive] + OFFERING;
    WellOn(fx, EMPTY, es, OFFERED, STARTING, ARRIVING);
    WellOn(fx, EMPTY, es + STARTING, ARRIVING, [Leave(0, [2])], UNSERVED);
    WellMeans(fx, EMPTY, COMING, UNSERVED);
    BodyFindsNothing(fx);
    ThenFaults(fx, EMPTY, COMING, UNSERVED, Read(1, [9], QUIET), UseAfterFree);
  }

  // ---------- a service goes while the caller waits for the reply ----------

  /** The caller waits for the call that is queued. */
  const PENDING := QUEUED.(clients := map[0 := WORKER, 1 := Client(AwaitReply, For(3), map[], [3], [])])

  /** The only advertiser has gone, and the call with the service; the caller still waits. */
  const FORGOTTEN := PENDING.(
    clients := map[1 := Client(AwaitReply, Nothing, map[], [], [])], services := map[], index := map[], calls := map[])

  const GETTING := Sends(1, EncodeGetReply(5, 0), QUIET)

  lemma QueuesWell(fx: Fixes)
    ensures GoesWell(fx, OFFERED, CALLING, QUEUED)
  {
    hide Around, CutName, GoesWell, RunHandler, SvrAcall, EncodeCall, HandlerOk;
    CutsA();
    CallArrives(fx, Unarm(OFFERED, 1), 1, DRAWS, FIELD_A, 0, 0);
    CallQueues(fx);
    WalksNothing(OFFERED, 1);
    CallAllowed(fx, Unarm(OFFERED, 1), EncodeCall(FIELD_A, 0, 0)[1..]);
    MessageGoesWell(fx, OFFERED, 1, EncodeCall(FIELD_A, 0, 0), Acall, DRAWS, QUEUED);
  }

  lemma WaitsForThree()
    ensures SvrGetReply(Unarm(QUEUED, 1), 1, 5, 0) == Ok(PENDING)
  {
    var s := Unarm(QUEUED, 1);
    assert !FlagSet(0, TPGETANY) && !FlagSet(0, TPNOBLOCK);
    assert FindCd(s.calls, [], 5) == None;
    assert FindCd(s.calls, [3], 5) == Some(3);
    var r := SvrGetReply(s, 1, 5, 0).board;
    assert r.clients == PENDING.clients;
  }

  lemma GetsWell(fx: Fixes)
    ensures GoesWell(fx, QUEUED, GETTING, PENDING)
  {
    hide Around, GoesWell, RunHandler, SvrGetReply, EncodeGetReply, ToLong;
    ShortValue(5);
    GetReplyArrives(fx, Unarm(QUEUED, 1), 1, QUIET, 5, 0);
    WaitsForThree();
    WalksNothing(QUEUED, 1);
    assert HandlerOk(fx, Unarm(QUEUED, 1), 1, GetReply, EncodeGetReply(5, 0)[1..], QUIET);
    MessageGoesWell(fx, QUEUED, 1, EncodeGetReply(5, 0), GetReply, QUIET, PENDING);
  }

  const DROPPED := PENDING.(clients := map[0 := WORKER.(adverts := map[]), 1 := PENDING.clients[1]])
  const DRAINED := DROPPED.(
    clients := map[0 := WORKER.(adverts := map[]), 1 := FORGOTTEN.clients[1]], services := map[2 := Service(NAME_A, [], true)], calls := map[])

  lemma Drops()
    ensures DropAdvert(PENDING, 0, 2) == DROPPED && !SomeoneAdvertises(DROPPED, 2)
  {
    assert Without<Node>([CallNode(3)], WorkerNode(0)) == [CallNode(3)] by { assert [CallNode(3)][1..] == []; }
    hide Without;
    var r := DropAdvert(PENDING, 0, 2);
    assert WORKER.adverts - {2} == map[];
    assert r.clients == DROPPED.clients;
    assert r.services[2] == PENDING.services[2] && r.services == PENDING.services;
  }

  lemma Drains()
    ensures Drain(DROPPED, 2) == Ok(DRAINED)
  {
    hide DelCall;
    DeletesThree();
    assert Drain(DRAINED, 2) == Ok(DRAINED);
  }

  lemma DeletesThree()
    ensures DelCall(DROPPED, 3) == DRAINED
  {
    assert [CallNode(3)][1..] == [] && [3][1..] == [];
    assert Without<Node>([CallNode(3)], CallNode(3)) == [] && Without<Id>([3], 3) == [] && Without<Id>([], 3) == [];
    hide Without;
    var r := DelCall(DROPPED, 3);
    assert r.clients[0] == DRAINED.clients[0] && r.clients[1] == DRAINED.clients[1];
    assert r.clients == DRAINED.clients;
    assert r.services[2] == DRAINED.services[2] && r.services == DRAINED.services;
    assert r.calls == map[];
  }

  lemma AdvertiserLeaves(fx: Fixes)
    ensures DelClient(fx, PENDING, 0, [2]) == Ok(FORGOTTEN)
  {
    hide DropAdvert, Drain;
    Drops();
    Drains();
    var s2 := DRAINED.(services := map[], index := map[]);
    assert DRAINED.services - {2} == map[] && DRAINED.index - {NAME_A} == map[];
    assert DelAdvert(PENDING, 0, 2) == Ok(s2);
    assert [2][1..] == [] && DelAdverts(s2, 0, []) == Ok(s2);
    assert DelAdverts(PENDING, 0, [2]) == Ok(s2);
    assert DelRequests(s2, 0) == Ok(s2) && DelReplies(s2, 0) == Ok(s2);
    assert s2.clients - {0} == FORGOTTEN.clients;
  }

  lemma AdvertiserLeavesWell(fx: Fixes)
    ensures GoesWell(fx, PENDING, [Leave(0, [2])], FORGOTTEN)
  {
    hide GoesWell, DelClient;
    AdvertiserLeaves(fx);
    assert PENDING.clients[0].adverts.Keys == {2};
    WellOnce(fx, PENDING, Leave(0, [2]), FORGOTTEN);
  }

  /** A service is offered and called; the caller waits for the reply; the only advertiser leaves. */
  const FORGETTING := [Arrive, Arrive] + OFFERING + CALLING + GETTING + [Leave(0, [2])]

  /** A run of allowed events leaves a client waiting for a reply that cannot come, whatever the repairs. */
  lemma CallerIsForgotten(fx: Fixes)
    ensures GoodRun(fx, EMPTY, FORGETTING) && PossibleRun(fx, EMPTY, FORGETTING) && Run(fx, EMPTY, FORGETTING) == Ok(FORGOTTEN)
    ensures Hopeless(FORGOTTEN, 1)
  {
    hide GoesWell, Sends, Run, GoodRun, PossibleRun;
    OfferedWell(fx);
    QueuesWell(fx);
    GetsWell(fx);
    AdvertiserLeavesWell(fx);
    var es := [Arrive, Arrive] + OFFERING;
    WellOn(fx, EMPTY, es, OFFERED, CALLING, QUEUED);
    WellOn(fx, EMPTY, es + CALLING, QUEUED, GETTING, PENDING);
    WellOn(fx, EMPTY, es + CALLING + GETTING, PENDING, [Leave(0, [2])], FORGOTTEN);
    WellMeans(fx, EMPTY, FORGETTING, FORGOTTEN);
    GoodIsPossible(fx, EMPTY, FORGETTING);
  }
}
