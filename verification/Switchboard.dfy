/** The switchboard as the program keeps it: tables and lists that handlers update in place. */
module Switchboard {
  import opened Sequences
  import opened Wire
  import opened Board
  import B = Board
  import opened CdPool
  import opened Departure
  import opened Invariant
  import opened Handlers
  import opened Steps
  import opened Runs

  lemma CastsHoldTail(s: Board, order: seq<Id>)
    requires order != [] && CastsHold(s, order)
    ensures CastsHold(s, order[1..])
  {
    assert forall i :: 0 <= i < |order| - 1 ==> order[1..][i] == order[i + 1];
  }

  /** What `select` and `read` report for a connection. */
  datatype Input = EndOfFile(order: seq<Id>) | Bytes(chunk: seq<byte>, env: Env)

  function EventOf(c: Id, i: Input): Event {
    match i
    case EndOfFile(order) => Leave(c, order)
    case Bytes(chunk, env) => Read(c, chunk, env)
  }

  /** The events of one round over `list`. */
  function RoundEvents(list: seq<Id>, ready: map<Id, Input>): seq<Event> {
    if list == [] then []
    else (if list[0] in ready then [EventOf(list[0], ready[list[0]])] else []) + RoundEvents(list[1..], ready)
  }

  class Switchboard {
    const fx: Fixes
    const cds: CdPool
    var tpclients: seq<Id>            // all connections, oldest first
    var tptransactions: seq<Id>       // all live calls, oldest first
    var clients: map<Id, Client>
    var services: map<Id, Service>
    var index: map<Name, Id>
    var calls: map<Id, Call>
    var next: Id
    var log: seq<Entry>

    ghost predicate Valid()
      reads this, cds
    {
      Walks(tpclients, clients.Keys) && Walks(tptransactions, calls.Keys) && cds.Valid()
    }

    ghost function State(): Board
      reads this, cds, cds.free
    {
      Board(clients, services, index, calls, cds.Value(), next, log)
    }

    constructor (fx: Fixes)
      ensures Valid() && State() == EMPTY && this.fx == fx && fresh(cds) && fresh(cds.free)
    {
      this.fx := fx;
      cds := new CdPool();
      tpclients, tptransactions := [], [];
      clients, services, index, calls := map[], map[], map[], map[];
      next, log := 0, [];
    }

    // ---------- connections ----------

    method Write(e: Entry)
      requires Valid()
      modifies this
      ensures Valid() && State() == Say(old(State()), e) && tpclients == old(tpclients)
    {
      log := log + [e];
    }

    method SvrIoWait(c: Id, h: Handler, input: Buffer)
      requires Valid() && Arm(State(), c, h, input).Ok?
      modifies this
      ensures Valid() && State() == Arm(old(State()), c, h, input).board && tpclients == old(tpclients)
    {
      assert !clients[c].conn.Receiving?;     // the assertion in svriowait
      clients := clients[c := clients[c].(conn := Receiving(h, input, 0))];
    }

    method SvrNextCommand(c: Id)
      requires Valid() && NextCommand(State(), c).Ok?
      modifies this
      ensures Valid() && State() == NextCommand(old(State()), c).board && tpclients == old(tpclients)
    {
      SvrIoWait(c, Command, Scratch(ZeroBytes(1)));
    }

    // ---------- transactions ----------

    method DelTransaction(t: Id)
      requires Valid() && t in calls
      modifies this
      ensures Valid() && State() == DelCall(old(State()), t) && tpclients == old(tpclients)
    {
      var k := calls[t];
      clients := map c | c in clients :: ForgetCall(clients[c], t, c == k.client || k.executor == Some(c));
      services := Unlinked(services, CallNode(t));
      calls := calls - {t};
      tptransactions := Without(tptransactions, t);
    }

    method NewTransaction(c: Id, svc: Id, len: nat, flags: int, env: Env) returns (ok: bool)
      requires Valid() && c in clients && next !in calls && GoodBatches(env.batches)
      modifies this, cds, cds.free
      ensures ok == NewCall(old(State()), c, svc, len, flags, env).Ok?
      ensures ok ==> Valid() && State() == NewCall(old(State()), c, svc, len, flags, env).board && tpclients == old(tpclients)
    {
      var live := seq(|tptransactions|, i requires 0 <= i < |tptransactions| && tptransactions[i] in calls reads this => calls[tptransactions[i]].cd);
      LiveList(live);
      ghost var before := cds.Value();
      PastEndMatters(before, LiveCds(calls), env.batches, 0);
      var cd := cds.Next(live, env.batches, 0);
      if cd.None? { return false; }
      var t := next;
      calls := calls[t := Call(c, svc, env.now, flags, cd.value, None, ZeroBytes(len), 0, 0)];
      tptransactions := tptransactions + [t];
      clients := clients[c := clients[c].(requests := clients[c].requests + [t])];
      next := t + 1;
      ok := true;
    }

    lemma LiveList(live: seq<Short>)
      requires Valid() && |live| == |tptransactions|
      requires forall i :: 0 <= i < |live| ==> tptransactions[i] in calls && live[i] == calls[tptransactions[i]].cd
      ensures Elements(live) == LiveCds(calls)
    {
      forall t | t in calls ensures calls[t].cd in Elements(live) {
        var i :| 0 <= i < |tptransactions| && tptransactions[i] == t;
        assert live[i] == calls[t].cd;
      }
    }

    // ---------- dispatch ----------

    /** The walk with `remove_from_waitq`. */
    method RemoveFromWaitqs(w: Id)
      requires w in clients
      modifies this`services
      ensures services == WorkerLeaves(old(services), clients[w].adverts, w)
    {
      hide Without, Distinct;
      var todo := clients[w].adverts.Keys;
      ghost var goal := WorkerLeaves(services, clients[w].adverts, w);
      while todo != {}
        invariant todo <= clients[w].adverts.Keys && services.Keys == old(services).Keys
        invariant forall v :: v in services ==> services[v] == (if v in todo then old(services)[v] else goal[v])
        decreases todo
      {
        var v :| v in todo;
        if v in services {
          services := services[v := services[v].(waitq := Without(services[v].waitq, WorkerNode(w)))];
        }
        todo := todo - {v};
      }
    }

    method SendToServer(w: Id, t: Id)
      requires Valid() && B.SendToServer(fx, State(), w, t).Ok?
      modifies this
      ensures Valid() && State() == B.SendToServer(fx, old(State()), w, t).board && tpclients == old(tpclients)
    {
      hide Without, Distinct, WorkerLeaves, Unlinked, Walks;
      var cl, k := clients[w], calls[t];
      var name := services[k.svc].name;
      RemoveFromWaitqs(w);
      if fx.unlink {
        services := Unlinked(services, CallNode(t));      // the repaired line
      }
      clients := clients[w := cl.(wait4 := For(t))];
      calls := calls[t := k.(executor := Some(w))];
      assert clients.Keys == old(clients.Keys) && calls.Keys == old(calls.Keys);
      Write(Handed(w, t, k.svc, cl.adverts[k.svc], name, k.flags, k.cd, k.data));
      SvrNextCommand(w);
    }

    /** The walk with `find_earliest`. */
    method FindEarliest(order: seq<Id>) returns (earliest: Option<Id>)
      requires CastsHold(State(), order)
      ensures earliest == B.FindEarliest(fx, State(), order, None)
    {
      earliest := None;
      var i := 0;
      ghost var s := State();
      assert order[0..] == order;
      while i < |order|
        invariant 0 <= i <= |order|
        invariant CastsHold(s, order[i..])
        invariant earliest.Some? ==> CallsWaiting(s, earliest.value) && HeadIsCall(s, earliest.value)
        invariant B.FindEarliest(fx, s, order, None) == B.FindEarliest(fx, s, order[i..], earliest)
      {
        var v := order[i];
        assert order[i..][0] == v && order[i..][1..] == order[i + 1..];
        CastsHoldTail(s, order[i..]);
        if v in services && services[v].holdsCalls && services[v].waitq != [] {
          assert CallsWaiting(s, order[i..][0]);
          if earliest.None? {
            earliest := Some(v);
          } else {
            var kept := calls[services[earliest.value].waitq[0].call].arrival;
            var seen := calls[services[v].waitq[0].call].arrival;
            if Replaces(fx, kept, seen) { earliest := Some(v); }
          }
        }
        i := i + 1;
      }
    }

    /** The walk with `add_to_waitq`. */
    method AddToWaitqs(c: Id)
      requires c in clients
      modifies this`services
      ensures services == WorkerJoins(old(services), clients[c].adverts, c)
    {
      var todo := clients[c].adverts.Keys;
      ghost var goal := WorkerJoins(services, clients[c].adverts, c);
      while todo != {}
        invariant todo <= clients[c].adverts.Keys && services.Keys == old(services).Keys
        invariant forall v :: v in services ==> services[v] == (if v in todo then old(services)[v] else goal[v])
        decreases todo
      {
        var v :| v in todo;
        if v in services {
          services := services[v := services[v].(waitq := services[v].waitq + [WorkerNode(c)], holdsCalls := false)];
        }
        todo := todo - {v};
      }
    }

    method SvrService(c: Id, env: Env)
      requires Valid() && B.SvrService(fx, State(), c, env).Ok?
      modifies this
      ensures Valid() && State() == B.SvrService(fx, old(State()), c, env).board && tpclients == old(tpclients)
    {
      var earliest := FindEarliest(env.order);
      if earliest.Some? {
        SendToServer(c, services[earliest.value].waitq[0].call);
      } else {
        AddToWaitqs(c);
        clients := clients[c := clients[c].(conn := IdleWorker)];
      }
    }

    // ---------- calls ----------

    method SendToWorker(c: Id)
      requires Valid() && B.SendToWorker(fx, State(), c).Ok?
      modifies this
      ensures Valid() && State() == B.SendToWorker(fx, old(State()), c).board && tpclients == old(tpclients)
    {
      SvrNextCommand(c);
      var t := Last(clients[c].requests);
      var svc := services[calls[t].svc];
      if svc.waitq != [] && !svc.holdsCalls {
        SendToServer(svc.waitq[0].client, t);
      } else {
        services := services[calls[t].svc := svc.(waitq := svc.waitq + [CallNode(t)], holdsCalls := true)];
      }
    }

    method SvrAcall(c: Id, name: Name, len: int, flags: int, env: Env)
      requires Valid() && next !in calls && GoodBatches(env.batches) && B.SvrAcall(fx, State(), c, name, len, flags, env).Ok?
      modifies this, cds, cds.free
      ensures Valid() && State() == B.SvrAcall(fx, old(State()), c, name, len, flags, env).board && tpclients == old(tpclients)
    {
      if name !in index || len < 0 {
        Write(Refused(c, TPENOENT));
        SvrNextCommand(c);
      } else {
        var t := next;
        var ok := NewTransaction(c, index[name], len, flags, env);
        Write(AcceptEntry(calls[t], t));
        if len > 0 {
          SvrIoWait(c, CallBody, DataOf(t));
        } else {
          Write(Submitted(c, t, []));
          SendToWorker(c);
        }
      }
    }

    // ---------- returns and replies ----------

    method SndReply(t: Id)
      requires Valid() && B.SndReply(State(), t).Ok?
      modifies this
      ensures Valid() && State() == B.SndReply(old(State()), t).board && tpclients == old(tpclients)
    {
      hide Without, Distinct, DelCall;
      var k := calls[t];
      Write(Replied(k.client, t, k.rval, k.cd, k.rcode, k.data));
      SvrNextCommand(k.client);
      clients := clients[k.client := clients[k.client].(wait4 := Nothing)];
      DelTransaction(t);
    }

    /** The end of `part2`, and of the part of `del_client` that fails the call of a departing worker. */
    method Finish(c: Id, t: Id, seesAny: bool)
      requires Valid() && B.Finish(State(), c, t, seesAny).Ok?
      modifies this
      ensures Valid() && State() == B.Finish(old(State()), c, t, seesAny).board && tpclients == old(tpclients)
    {
      hide Without, Distinct, B.SndReply;
      clients := clients[c := clients[c].(wait4 := Nothing)];
      calls := calls[t := calls[t].(executor := None)];
      var to := calls[t].client;
      if clients[to].wait4 == For(t) || (seesAny && clients[to].wait4 == AnyReply) {
        SndReply(t);
      } else {
        var cl := clients[to];
        clients := clients[to := cl.(requests := Without(cl.requests, t), replies := Without(cl.replies, t) + [t])];
      }
    }

    method Part2(c: Id)
      requires Valid() && B.Part2(State(), c).Ok?
      modifies this
      ensures Valid() && State() == B.Part2(old(State()), c).board && tpclients == old(tpclients)
    {
      hide B.Finish;
      SvrNextCommand(c);
      Finish(c, clients[c].wait4.call, true);
    }

    method SvrReturn(c: Id, rval: byte, rcode: int, len: int)
      requires Valid() && B.SvrReturn(State(), c, rval, rcode, len).Ok?
      modifies this
      ensures Valid() && State() == B.SvrReturn(old(State()), c, rval, rcode, len).board && tpclients == old(tpclients)
    {
      hide B.Part2;
      var t := clients[c].wait4.call;
      calls := calls[t := calls[t].(rval := rval, rcode := rcode, data := Resize(calls[t].data, len))];
      if len > 0 {
        SvrIoWait(c, ReturnBody, DataOf(t));
      } else {
        Write(Returned(c, t, rval, rcode, []));
        Part2(c);
      }
    }

    /** The search loops of `svrgetrply`. */
    method FindByCd(q: seq<Id>, cd: Short) returns (r: Option<Id>)
      ensures r == FindCd(calls, q, cd)
    {
      var i := 0;
      assert q[0..] == q;
      while i < |q|
        invariant 0 <= i <= |q| && FindCd(calls, q, cd) == FindCd(calls, q[i..], cd)
      {
        assert q[i..][0] == q[i] && q[i..][1..] == q[i + 1..];
        if q[i] in calls && calls[q[i]].cd == cd { return Some(q[i]); }
        i := i + 1;
      }
      r := None;
    }

    method SvrGetReply(c: Id, cd: Short, flags: int)
      requires Valid() && B.SvrGetReply(State(), c, cd, flags).Ok?
      modifies this
      ensures Valid() && State() == B.SvrGetReply(old(State()), c, cd, flags).board && tpclients == old(tpclients)
    {
      hide B.SndReply, FlagSet;
      var any := FlagSet(flags, TPGETANY);
      var ready: Option<Id> := None;
      if !any {
        ready := FindByCd(clients[c].replies, cd);
      } else if clients[c].replies != [] {
        ready := Some(clients[c].replies[0]);
      }
      if ready.Some? {
        SndReply(ready.value);
      } else {
        var target := AnyReply;
        if !any {
          var request := FindByCd(clients[c].requests, cd);
          target := if request.Some? then For(request.value) else Nothing;
        }
        if target == Nothing {
          Write(NoReply(c, TPEBADDESC));
          SvrNextCommand(c);
        } else if FlagSet(flags, TPNOBLOCK) {
          Write(NoReply(c, TPEBLOCK));
          SvrNextCommand(c);
        } else {
          clients := clients[c := clients[c].(conn := AwaitReply, wait4 := target)];
        }
      }
    }

    // ---------- services ----------

    method SvrAdvertise(c: Id, name: Name, opaqueValue: int)
      requires Valid() && B.SvrAdvertise(State(), c, name, opaqueValue).Ok?
      modifies this
      ensures Valid() && State() == B.SvrAdvertise(old(State()), c, name, opaqueValue).board && tpclients == old(tpclients)
    {
      if name !in index {
        services := services[next := Service(name, [], false)];
        index := index[name := next];
        next := next + 1;
      }
      var v, cl := index[name], clients[c];
      if v in cl.adverts && cl.adverts[v] != opaqueValue {
        Write(Status(c, TPEMATCH));
      } else {
        clients := clients[c := cl.(adverts := cl.adverts[v := opaqueValue])];
        Write(Status(c, 0));
      }
      SvrNextCommand(c);
    }

    /** The loop over `tpclients` in `del_advertisement`. */
    method Scan(v: Id) returns (found: bool)
      requires Valid()
      ensures found == SomeoneAdvertises(State(), v)
    {
      found := false;
      var q := 0;
      while q < |tpclients|
        invariant 0 <= q <= |tpclients|
        invariant forall i :: 0 <= i < q ==> v !in clients[tpclients[i]].adverts
      {
        if v in clients[tpclients[q]].adverts {
          assert tpclients[q] in clients;
          return true;
        }
        q := q + 1;
      }
      forall c | c in clients ensures v !in clients[c].adverts {
        var i :| 0 <= i < |tpclients| && tpclients[i] == c;
      }
    }

    method DelService(v: Id)
      requires Valid() && B.DelService(State(), v).Ok?
      modifies this
      ensures Valid() && State() == B.DelService(old(State()), v).board && tpclients == old(tpclients)
    {
      hide Without, Distinct, DelCall;
      while v in services && services[v].waitq != []
        invariant Valid() && tpclients == old(tpclients) && Drain(State(), v) == Drain(old(State()), v)
        decreases if v in services then |services[v].waitq| else 0
      {
        ghost var s := State();
        DelTransaction(services[v].waitq[0].call);
        Shrinks(s, services[v].waitq, v, s.services[v].waitq[0].call);
      }
      index := index - {services[v].name};
      services := services - {v};
    }

    /** What `del_transaction` leaves of a queue it was called for. */
    lemma Shrinks(s: Board, q: seq<Node>, v: Id, t: Id)
      requires t in s.calls && v in s.services && CallNode(t) in s.services[v].waitq && q == DelCall(s, t).services[v].waitq
      ensures |q| < |s.services[v].waitq|
    {
      hide Without, Distinct;
    }

    method DelAdvertisement(c: Id, v: Id)
      requires Valid() && DelAdvert(State(), c, v).Ok?
      modifies this
      ensures Valid() && State() == DelAdvert(old(State()), c, v).board && tpclients == old(tpclients)
    {
      hide Without, Distinct, B.DelService;
      if v in services {
        services := services[v := services[v].(waitq := Without(services[v].waitq, WorkerNode(c)))];
      }
      clients := clients[c := clients[c].(adverts := clients[c].adverts - {v})];
      assert State() == DropAdvert(old(State()), c, v);
      var found := Scan(v);
      if !found { DelService(v); }
    }

    method SvrUnadvertise(c: Id, name: Name)
      requires Valid() && B.SvrUnadvertise(State(), c, name).Ok?
      modifies this
      ensures Valid() && State() == B.SvrUnadvertise(old(State()), c, name).board && tpclients == old(tpclients)
    {
      hide DelAdvert;
      if name !in index || index[name] !in clients[c].adverts {
        Write(Status(c, TPENOENT));
      } else {
        DelAdvertisement(c, index[name]);
        Write(Status(c, 0));
      }
      SvrNextCommand(c);
    }

    // ---------- clients ----------

    method Accept()
      requires Valid() && next !in clients
      modifies this
      ensures Valid() && Connect(old(State())) == Ok(State()) && tpclients == old(tpclients) + [old(next)]
    {
      clients := clients[next := Client(Running, Nothing, map[], [], [])];
      tpclients := tpclients + [next];
      next := next + 1;
      SvrNextCommand(next - 1);
    }

    /** The part of `del_client` before the loops. */
    method AbandonTransaction(c: Id)
      requires Valid() && c in clients && AbandonWork(fx, State(), c).Ok?
      modifies this
      ensures Valid() && State() == AbandonWork(fx, old(State()), c).board && tpclients == old(tpclients)
    {
      hide B.Finish;
      match clients[c].wait4
      case For(t) =>
        if calls[t].executor == Some(c) {
          calls := calls[t := calls[t].(rval := TPERRNO, rcode := TPESVCERR)];
          Write(Abandoned(c, t));
          Finish(c, t, fx.wakeAny);
        }
      case _ =>
    }

    method DropAdvertisements(c: Id, order: seq<Id>)
      requires Valid() && DelAdverts(State(), c, order).Ok?
      modifies this
      ensures Valid() && State() == DelAdverts(old(State()), c, order).board && tpclients == old(tpclients)
    {
      hide DelAdvert, Walks;
      var i := 0;
      assert order[0..] == order;
      while i < |order|
        invariant 0 <= i <= |order| && Valid() && tpclients == old(tpclients)
        invariant DelAdverts(State(), c, order[i..]) == DelAdverts(old(State()), c, order)
      {
        assert order[i..][0] == order[i] && order[i..][1..] == order[i + 1..];
        DelAdvertisement(c, order[i]);
        i := i + 1;
      }
    }

    method DropRequests(c: Id)
      requires Valid() && DelRequests(State(), c).Ok?
      modifies this
      ensures Valid() && State() == DelRequests(old(State()), c).board && tpclients == old(tpclients)
    {
      hide Without, Walks;
      while clients[c].requests != []
        invariant Valid() && c in clients && tpclients == old(tpclients)
        invariant DelRequests(State(), c) == DelRequests(old(State()), c)
        decreases |clients[c].requests|
      {
        DelTransaction(clients[c].requests[0]);
      }
    }

    method DropReplies(c: Id)
      requires Valid() && DelReplies(State(), c).Ok?
      modifies this
      ensures Valid() && State() == DelReplies(old(State()), c).board && tpclients == old(tpclients)
    {
      hide Without, Walks;
      while clients[c].replies != []
        invariant Valid() && c in clients && tpclients == old(tpclients)
        invariant DelReplies(State(), c) == DelReplies(old(State()), c)
        decreases |clients[c].replies|
      {
        DelTransaction(clients[c].replies[0]);
      }
    }

    method DelClient(c: Id, order: seq<Id>)
      requires Valid() && B.DelClient(fx, State(), c, order).Ok?
      modifies this
      ensures Valid() && State() == B.DelClient(fx, old(State()), c, order).board && tpclients == Without(old(tpclients), c)
    {
      hide AbandonWork, DelAdverts, DelRequests, DelReplies, Without, Distinct;
      AbandonTransaction(c);
      DropAdvertisements(c, order);
      DropRequests(c);
      DropReplies(c);
      clients := clients - {c};
      tpclients := Without(tpclients, c);
    }

    // ---------- the event loop ----------

    method RunCommand(c: Id, b: byte, env: Env)
      requires Valid() && B.RunCommand(fx, State(), c, b, env).Ok?
      modifies this
      ensures Valid() && State() == B.RunCommand(fx, old(State()), c, b, env).board
      ensures tpclients == old(tpclients) || tpclients == Without(old(tpclients), c)
    {
      hide B.SvrService, B.DelClient, Without, Walks;
      if b == TPTWORK {
        SvrService(c, env);
      } else {
        var h := CommandHandler(b);
        if h.Some? {
          SvrIoWait(c, h.value, Scratch([b] + ZeroBytes(CommandLength(h.value) - 1)));
        } else {
          DelClient(c, env.order);
        }
      }
    }

    /** A full buffer of the connection's own is passed to its handler. */
    method Handle(c: Id, h: Handler, b: seq<byte>, env: Env)
      requires Valid() && next !in calls && GoodBatches(env.batches) && !h.CallBody? && !h.ReturnBody? && |b| == CommandLength(h)
      requires RunHandler(fx, State(), c, h, b, env).Ok?
      modifies this, cds, cds.free
      ensures Valid() && State() == RunHandler(fx, old(State()), c, h, b, env).board
      ensures tpclients == old(tpclients) || tpclients == Without(old(tpclients), c)
    {
      hide Without, Walks, GoodBatches, CutName, ToLong, ToShort;
      hide B.RunCommand, B.SvrAcall, B.SvrGetReply, B.SvrAdvertise, B.SvrUnadvertise, B.SvrReturn;
      match h
      case Command => RunCommand(c, b[0], env);
      case Acall => SvrAcall(c, CutName(b), ToLong(b, NAME_LENGTH), ToLong(b, NAME_LENGTH + IOLONG), env);
      case GetReply => SvrGetReply(c, AsShort(ToShort(b, 0)), ToLong(b, IOSHORT));
      case Advertise => SvrAdvertise(c, CutName(b), ToLong(b, NAME_LENGTH));
      case Unadvertise => SvrUnadvertise(c, CutName(b));
      case Return => SvrReturn(c, b[0], ToLong(b, 1), ToLong(b, 1 + IOLONG));
    }

    /** A read into the connection's own buffer. */
    method ReadOwn(c: Id, chunk: seq<byte>, env: Env)
      requires Valid() && next !in calls && GoodBatches(env.batches)
      requires c in clients && clients[c].conn.Receiving? && clients[c].conn.input.Scratch?
      requires ReadScratch(fx, State(), c, chunk, env).Ok?
      modifies this, cds, cds.free
      ensures Valid() && State() == ReadScratch(fx, old(State()), c, chunk, env).board
      ensures tpclients == old(tpclients) || tpclients == Without(old(tpclients), c)
    {
      hide RunHandler, Without, GoodBatches;
      var Receiving(h, input, used) := clients[c].conn;
      var b := Splice(input.bytes, used, chunk);
      if used + |chunk| < |b| {
        clients := clients[c := clients[c].(conn := Receiving(h, Scratch(b), used + |chunk|))];
      } else {
        clients := clients[c := clients[c].(conn := Running)];
        Handle(c, h, b, env);
      }
    }

    /** A read into the data buffer of a call. */
    method ReadBody(c: Id, chunk: seq<byte>)
      requires Valid() && c in clients && clients[c].conn.Receiving? && clients[c].conn.input.DataOf?
      requires ReadData(fx, State(), c, chunk).Ok?
      modifies this
      ensures Valid() && State() == ReadData(fx, old(State()), c, chunk).board && tpclients == old(tpclients)
    {
      hide B.SendToWorker, B.Part2;
      var Receiving(h, input, used) := clients[c].conn;
      var t := input.call;
      var b := Splice(calls[t].data, used, chunk);
      calls := calls[t := calls[t].(data := b)];
      if used + |chunk| < |b| {
        clients := clients[c := clients[c].(conn := Receiving(h, input, used + |chunk|))];
      } else {
        clients := clients[c := clients[c].(conn := Running)];
        if h.CallBody? {
          Write(Submitted(c, t, b));
          SendToWorker(c);
        } else {
          Write(Returned(c, t, calls[t].rval, calls[t].rcode, b));
          Part2(c);
        }
      }
    }

    /** One turn: the state is good before and after, and moves as `Step` says. */
    method Turn(e: Event)
      requires Valid() && Inv(State()) && Possible(State(), e) && Allowed(fx, State(), e)
      modifies this, cds, cds.free
      ensures Valid() && Step(fx, old(State()), e) == Ok(State()) && Inv(State())
      ensures match e
        case Arrive => tpclients == old(tpclients) + [old(next)]
        case Leave(c, _) => tpclients == Without(old(tpclients), c)
        case Read(c, _, _) => tpclients == old(tpclients) || tpclients == Without(old(tpclients), c)
    {
      hide InvX, Allowed, ReadScratch, ReadData, Without, Walks, B.DelClient;
      StepKeeps(fx, State(), e);
      assert next !in calls && next !in clients by { InvIndexed(State(), TIGHT); }
      match e
      case Arrive => Accept();
      case Leave(c, order) => DelClient(c, order);
      case Read(c, chunk, env) =>
        if !clients[c].conn.Receiving? {
          DelClient(c, env.order);
        } else if clients[c].conn.input.Scratch? {
          ReadOwn(c, chunk, env);
        } else {
          ReadBody(c, chunk);
        }
    }

    /** One client of a round, the first of `tail`. */
    method Visit(c: Id, ready: map<Id, Input>, ghost tail: seq<Id>)
      requires Valid() && Inv(State()) && tail != [] && tail[0] == c && GoodRun(fx, State(), RoundEvents(tail, ready))
      modifies this, cds, cds.free
      ensures Valid() && Inv(State()) && GoodRun(fx, State(), RoundEvents(tail[1..], ready))
      ensures Run(fx, State(), RoundEvents(tail[1..], ready)) == Run(fx, old(State()), RoundEvents(tail, ready))
      ensures tpclients == old(tpclients) || tpclients == Without(old(tpclients), c)
    {
      hide Inv, Possible, Allowed, Step, Without, Walks;
      if c in ready {
        assert RoundEvents(tail, ready)[0] == EventOf(c, ready[c]);
        assert RoundEvents(tail, ready)[1..] == RoundEvents(tail[1..], ready);
        Turn(EventOf(c, ready[c]));
      } else {
        assert RoundEvents(tail, ready) == RoundEvents(tail[1..], ready);
      }
    }

    /**
     One round of `Iowait` over the connected clients. `left` counts the list members from the saved
     successor on: they stay members whatever the current client's turn does, so each client that was
     connected at the start is visited once.
     */
    method Round(ready: map<Id, Input>) returns (visited: seq<Id>)
      requires Valid() && Inv(State()) && GoodRun(fx, State(), RoundEvents(tpclients, ready))
      modifies this, cds, cds.free
      ensures visited == old(tpclients)
      ensures Valid() && Run(fx, old(State()), RoundEvents(old(tpclients), ready)) == Ok(State()) && Inv(State())
    {
      hide Inv, GoodRun, Without, Distinct, RoundEvents, Tail, InRound, Run;
      ghost var start, all := tpclients, Run(fx, State(), RoundEvents(tpclients, ready));
      visited := [];
      var left := |tpclients|;
      RoundStarts(start);
      while left > 0
        invariant Valid() && Inv(State()) && 0 <= left && InRound(start, tpclients, left, visited)
        invariant GoodRun(fx, State(), RoundEvents(Tail(start, left), ready))
        invariant Run(fx, State(), RoundEvents(Tail(start, left), ready)) == all
      {
        RoundAt(start, tpclients, left, visited);
        var c := tpclients[|tpclients| - left];
        ghost var list := tpclients;
        Visit(c, ready, Tail(start, left));
        RoundOn(start, list, left, visited, tpclients);
        visited := visited + [c];
        left := left - 1;
      }
      RoundEnds(start, tpclients, visited);
      NoEvents(ready);
      EmptyRun(fx, State());
    }
  }

  lemma EmptyRun(fx: Fixes, s: Board)
    ensures Run(fx, s, []) == Ok(s)
  {
  }

  // ---------- the list of clients during a round ----------

  /** The last `left` elements. */
  function Tail(start: seq<Id>, left: nat): seq<Id> {
    if left <= |start| then start[|start| - left..] else []
  }

  /** The list ends in the `left` clients that are still to be visited, and the others have been. */
  predicate InRound(start: seq<Id>, list: seq<Id>, left: nat, visited: seq<Id>) {
    && left <= |list| && left <= |start|
    && list[|list| - left..] == start[|start| - left..] && visited == start[..|start| - left]
  }

  lemma RoundStarts(start: seq<Id>)
    ensures InRound(start, start, |start|, []) && Tail(start, |start|) == start
  {
  }

  lemma RoundAt(start: seq<Id>, list: seq<Id>, left: nat, visited: seq<Id>)
    requires InRound(start, list, left, visited) && left > 0
    ensures left <= |list| && Tail(start, left) != [] && Tail(start, left)[0] == list[|list| - left]
    ensures Tail(start, left)[1..] == Tail(start, left - 1)
  {
    TailsShrink(list, start, left);
  }

  /** A turn takes off the list at most the client whose turn it is. */
  lemma RoundOn(start: seq<Id>, list: seq<Id>, left: nat, visited: seq<Id>, list': seq<Id>)
    requires InRound(start, list, left, visited) && left > 0 && Distinct(list)
    requires list' == list || list' == Without(list, list[|list| - left])
    ensures InRound(start, list', left - 1, visited + [list[|list| - left]])
  {
    hide Without, Distinct;
    TailsShrink(list, start, left);
    TailKept(list, left, list');
    assert list'[|list'| - (left - 1)..] == start[|start| - (left - 1)..];
  }

  lemma RoundEnds(start: seq<Id>, list: seq<Id>, visited: seq<Id>)
    requires InRound(start, list, 0, visited)
    ensures visited == start && Tail(start, 0) == []
  {
  }

  /** Two lists end in the same `left` elements, and so in the same ones but the first of these. */
  lemma TailsShrink(list: seq<Id>, start: seq<Id>, left: nat)
    requires 0 < left <= |list| && left <= |start| && list[|list| - left..] == start[|start| - left..]
    ensures start[|start| - left..][0] == list[|list| - left]
    ensures start[|start| - left..][1..] == start[|start| - (left - 1)..] == list[|list| - left + 1..]
    ensures start[..|start| - left] + [list[|list| - left]] == start[..|start| - (left - 1)]
  {
    assert list[|list| - left..][0] == list[|list| - left];
    assert list[|list| - left..][1..] == list[|list| - left + 1..];
  }

  lemma NoEvents(ready: map<Id, Input>)
    ensures RoundEvents([], ready) == []
  {
  }

  lemma TailKept(list: seq<Id>, left: nat, list': seq<Id>)
    requires Distinct(list) && 0 < left <= |list| && (list' == list || list' == Without(list, list[|list| - left]))
    ensures left - 1 <= |list'| && list'[|list'| - (left - 1)..] == list[|list| - left + 1..]
  {
    hide Without, Distinct;
    WithoutAt(list, |list| - left);
  }
}
