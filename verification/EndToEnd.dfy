/** From the bytes one program sends to the bytes another one reads, over any run of the switchboard between them. */
module EndToEnd {
  import opened Sequences
  import opened Wire
  import opened Descriptors
  import opened Board
  import opened Codec
  import opened Session
  import opened Runs
  import opened Traces
  import opened Messages
  import opened Offering

  // ---------- every number that is kept or sent fits its field ----------

  predicate SizedCall(k: Call) {
    FitsLong(k.flags) && FitsLong(k.rcode) && |k.data| < 0x8000_0000
  }

  predicate SizedAdverts(cl: Client) {
    forall v :: v in cl.adverts ==> FitsLong(cl.adverts[v])
  }

  predicate SizedEntry(e: Entry) {
    match e
    case Handed(_, _, _, o, _, flags, _, data) => FitsLong(o) && FitsLong(flags) && |data| < 0x8000_0000
    case Replied(_, _, _, _, rcode, data) => FitsLong(rcode) && |data| < 0x8000_0000
    case Refused(_, errno) => 0 <= errno < 0x1_0000
    case NoReply(_, errno) => 0 <= errno < 0x1_0000
    case Status(_, errno) => 0 <= errno < 0x1_0000
    case _ => true
  }

  ghost predicate Sized(s: Board) {
    && (forall t :: t in s.calls ==> SizedCall(s.calls[t]))
    && (forall c :: c in s.clients ==> SizedAdverts(s.clients[c]))
    && (forall i :: 0 <= i < |s.log| ==> SizedEntry(s.log[i]))
  }

  ghost predicate SizedAfter(o: Outcome) {
    o.Ok? ==> Sized(o.board)
  }

  lemma SaySized(s: Board, e: Entry)
    requires Sized(s) && SizedEntry(e)
    ensures Sized(Say(s, e))
  {
  }

  lemma PutClientSized(s: Board, c: Id, cl: Client)
    requires Sized(s) && SizedAdverts(cl)
    ensures Sized(PutClient(s, c, cl))
  {
  }

  lemma PutCallSized(s: Board, t: Id, k: Call)
    requires Sized(s) && SizedCall(k)
    ensures Sized(PutCall(s, t, k))
  {
  }

  lemma NextCommandSized(s: Board, c: Id)
    requires Sized(s)
    ensures SizedAfter(NextCommand(s, c))
    ensures NextCommand(s, c).Ok? ==> c in NextCommand(s, c).board.clients && NextCommand(s, c).board.calls == s.calls
  {
  }

  lemma DelCallSized(s: Board, t: Id)
    requires Sized(s) && t in s.calls
    ensures Sized(DelCall(s, t))
  {
  }

  lemma SendToServerSized(fx: Fixes, s: Board, w: Id, t: Id)
    requires Sized(s)
    ensures SizedAfter(SendToServer(fx, s, w, t))
  {
    hide NextCommand, WorkerLeaves, Unlinked, SizedAdverts, FitsLong;
    if SendToServer(fx, s, w, t).Ok? {
      var cl, k := s.clients[w], s.calls[t];
      var e := Handed(w, t, k.svc, cl.adverts[k.svc], s.services[k.svc].name, k.flags, k.cd, k.data);
      assert SizedEntry(e) by { AdvertFits(cl, k.svc); }
      var services := WorkerLeaves(s.services, cl.adverts, w);
      var s1 := s.(clients := s.clients[w := cl.(wait4 := For(t))],
                   services := if fx.unlink then Unlinked(services, CallNode(t)) else services,
                   calls := s.calls[t := k.(executor := Some(w))]);
      assert Sized(s1) by { SameAdverts(cl, cl.(wait4 := For(t))); }
      SaySized(s1, e);
      NextCommandSized(Say(s1, e), w);
    }
  }

  lemma AdvertFits(cl: Client, v: Id)
    requires SizedAdverts(cl) && v in cl.adverts
    ensures FitsLong(cl.adverts[v])
  {
  }

  lemma SameAdverts(cl: Client, cl': Client)
    requires SizedAdverts(cl) && cl'.adverts == cl.adverts
    ensures SizedAdverts(cl')
  {
  }

  lemma SvrServiceSized(fx: Fixes, s: Board, c: Id, env: Env)
    requires Sized(s)
    ensures SizedAfter(SvrService(fx, s, c, env))
  {
    hide SendToServer, FindEarliest;
    if SvrService(fx, s, c, env).Ok? {
      match FindEarliest(fx, s, env.order, None)
      case Some(v) => SendToServerSized(fx, s, c, FirstCall(s, v));
      case None =>
    }
  }

  lemma SendToWorkerSized(fx: Fixes, s: Board, c: Id)
    requires Sized(s)
    ensures SizedAfter(SendToWorker(fx, s, c))
  {
    hide SendToServer, NextCommand;
    NextCommandSized(s, c);
    if SendToWorker(fx, s, c).Ok? {
      var s1 := NextCommand(s, c).board;
      var t := Last(s1.clients[c].requests);
      var svc := s1.services[s1.calls[t].svc];
      if svc.waitq != [] && !svc.holdsCalls { SendToServerSized(fx, s1, svc.waitq[0].client, t); }
    }
  }

  lemma SvrAcallSized(fx: Fixes, s: Board, c: Id, name: Name, len: int, flags: int, env: Env)
    requires Sized(s) && FitsLong(len) && FitsLong(flags)
    ensures SizedAfter(SvrAcall(fx, s, c, name, len, flags, env))
  {
    hide SendToWorker, NextCommand, Take, LiveCds;
    if SvrAcall(fx, s, c, name, len, flags, env).Ok? {
      if name !in s.index || len < 0 {
        SaySized(s, Refused(c, TPENOENT));
        NextCommandSized(Say(s, Refused(c, TPENOENT)), c);
      } else {
        var s1 := NewCall(s, c, s.index[name], len, flags, env).board;
        assert Sized(s1) by { SameAdverts(s.clients[c], s1.clients[c]); }
        var s2 := Say(s1, AcceptEntry(s1.calls[s.next], s.next));
        SaySized(s1, AcceptEntry(s1.calls[s.next], s.next));
        if len == 0 {
          SaySized(s2, Submitted(c, s.next, []));
          SendToWorkerSized(fx, Say(s2, Submitted(c, s.next, [])), c);
        }
      }
    }
  }

  lemma SndReplySized(s: Board, t: Id)
    requires Sized(s)
    ensures SizedAfter(SndReply(s, t))
  {
    hide NextCommand, DelCall, FitsLong;
    if SndReply(s, t).Ok? {
      var k := s.calls[t];
      var e := Replied(k.client, t, k.rval, k.cd, k.rcode, k.data);
      SaySized(s, e);
      NextCommandSized(Say(s, e), k.client);
      var s1 := NextCommand(Say(s, e), k.client).board;
      var cl := s1.clients[k.client].(wait4 := Nothing);
      SameAdverts(s1.clients[k.client], cl);
      PutClientSized(s1, k.client, cl);
      DelCallSized(PutClient(s1, k.client, cl), t);
    }
  }

  lemma FinishSized(s: Board, c: Id, t: Id, seesAny: bool)
    requires Sized(s)
    ensures SizedAfter(Finish(s, c, t, seesAny))
  {
    hide SndReply, SizedAdverts, FitsLong, Without;
    if Finish(s, c, t, seesAny).Ok? {
      var cl := s.clients[c].(wait4 := Nothing);
      SameAdverts(s.clients[c], cl);
      PutClientSized(s, c, cl);
      var s1 := PutCall(PutClient(s, c, cl), t, s.calls[t].(executor := None));
      PutCallSized(PutClient(s, c, cl), t, s.calls[t].(executor := None));
      SndReplySized(s1, t);
      var to := s.calls[t].client;
      var kept := KeepReply(s1, t);
      SameAdverts(s1.clients[to], kept.clients[to]);
      PutClientSized(s1, to, kept.clients[to]);
    }
  }

  lemma Part2Sized(s: Board, c: Id)
    requires Sized(s)
    ensures SizedAfter(Part2(s, c))
  {
    hide Finish, NextCommand;
    NextCommandSized(s, c);
    if Part2(s, c).Ok? {
      var s1 := NextCommand(s, c).board;
      FinishSized(s1, c, s1.clients[c].wait4.call, true);
    }
  }

  lemma SvrReturnSized(s: Board, c: Id, rval: byte, rcode: int, len: int)
    requires Sized(s) && FitsLong(rcode) && FitsLong(len)
    ensures SizedAfter(SvrReturn(s, c, rval, rcode, len))
  {
    hide Part2, SizedAdverts;
    if SvrReturn(s, c, rval, rcode, len).Ok? {
      var t := s.clients[c].wait4.call;
      var k := s.calls[t].(rval := rval, rcode := rcode, data := Resize(s.calls[t].data, len));
      PutCallSized(s, t, k);
      var s1 := PutCall(s, t, k);
      if len > 0 {
        var cl := s.clients[c].(conn := Receiving(ReturnBody, DataOf(t), 0));
        SameAdverts(s.clients[c], cl);
        PutClientSized(s1, c, cl);
      } else {
        SaySized(s1, Returned(c, t, rval, rcode, []));
        Part2Sized(Say(s1, Returned(c, t, rval, rcode, [])), c);
      }
    }
  }

  lemma SvrGetReplySized(s: Board, c: Id, cd: Wire.Short, flags: int)
    requires Sized(s)
    ensures SizedAfter(SvrGetReply(s, c, cd, flags))
  {
    hide SndReply, NextCommand, ReplyReady, WaitTarget, SizedAdverts;
    if c in s.clients {
      var cl := s.clients[c];
      match ReplyReady(s.calls, cl.replies, cd, flags)
      case Some(t) => SndReplySized(s, t);
      case None =>
        forall e | e == NoReply(c, TPEBADDESC) || e == NoReply(c, TPEBLOCK)
          ensures SizedAfter(NextCommand(Say(s, e), c))
        {
          SaySized(s, e);
          NextCommandSized(Say(s, e), c);
        }
        var cl' := cl.(conn := AwaitReply, wait4 := WaitTarget(s.calls, cl.requests, cd, flags));
        SameAdverts(cl, cl');
        PutClientSized(s, c, cl');
    }
  }

  lemma SvrAdvertiseSized(s: Board, c: Id, name: Name, o: int)
    requires Sized(s) && FitsLong(o)
    ensures SizedAfter(SvrAdvertise(s, c, name, o))
  {
    hide NextCommand, FitsLong;
    if c in s.clients {
      var s1 := NewService(s, name);
      var v, cl := s1.index[name], s1.clients[c];
      var cl' := cl.(adverts := cl.adverts[v := o]);
      assert Sized(s1);
      PutClientSized(s1, c, cl');
      var s2 := PutClient(s1, c, cl');
      SaySized(s2, Status(c, 0));
      NextCommandSized(Say(s2, Status(c, 0)), c);
      SaySized(s1, Status(c, TPEMATCH));
      NextCommandSized(Say(s1, Status(c, TPEMATCH)), c);
    }
  }

  lemma {:induction false} DrainSized(s: Board, v: Id)
    requires Sized(s)
    ensures SizedAfter(Drain(s, v))
    decreases if v in s.services then |s.services[v].waitq| else 0
  {
    hide Sized;
    if v in s.services && s.services[v].waitq != [] && s.services[v].holdsCalls && s.services[v].waitq[0].CallNode? {
      var t := s.services[v].waitq[0].call;
      if t in s.calls {
        DelCallSized(s, t);
        DrainSized(DelCall(s, t), v);
      }
    }
  }

  lemma DelAdvertSized(s: Board, c: Id, v: Id)
    requires Sized(s)
    ensures SizedAfter(DelAdvert(s, c, v))
  {
    hide Drain, Unlink1, FitsLong, SizedEntry;
    if DelAdvert(s, c, v).Ok? {
      var s1 := DropAdvert(s, c, v);
      assert Sized(s1);
      DrainSized(s1, v);
    }
  }

  lemma SvrUnadvertiseSized(s: Board, c: Id, name: Name)
    requires Sized(s)
    ensures SizedAfter(SvrUnadvertise(s, c, name))
  {
    hide DelAdvert, NextCommand, Sized;
    if SvrUnadvertise(s, c, name).Ok? {
      SaySized(s, Status(c, TPENOENT));
      NextCommandSized(Say(s, Status(c, TPENOENT)), c);
      if name in s.index && DelAdvert(s, c, s.index[name]).Ok? {
        DelAdvertSized(s, c, s.index[name]);
        var s1 := DelAdvert(s, c, s.index[name]).board;
        SaySized(s1, Status(c, 0));
        NextCommandSized(Say(s1, Status(c, 0)), c);
      }
    }
  }

  lemma {:induction false} DelAdvertsSized(s: Board, c: Id, order: seq<Id>)
    requires Sized(s)
    ensures SizedAfter(DelAdverts(s, c, order))
    decreases |order|
  {
    hide Sized, DelAdvert;
    if order != [] && DelAdvert(s, c, order[0]).Ok? {
      DelAdvertSized(s, c, order[0]);
      DelAdvertsSized(DelAdvert(s, c, order[0]).board, c, order[1..]);
    }
  }

  lemma {:induction false} DelRequestsSized(s: Board, c: Id)
    requires Sized(s)
    ensures SizedAfter(DelRequests(s, c))
    decreases if c in s.clients then |s.clients[c].requests| else 0
  {
    hide Sized;
    if c in s.clients && s.clients[c].requests != [] && s.clients[c].requests[0] in s.calls {
      DelCallSized(s, s.clients[c].requests[0]);
      DelRequestsSized(DelCall(s, s.clients[c].requests[0]), c);
    }
  }

  lemma {:induction false} DelRepliesSized(s: Board, c: Id)
    requires Sized(s)
    ensures SizedAfter(DelReplies(s, c))
    decreases if c in s.clients then |s.clients[c].replies| else 0
  {
    hide Sized;
    if c in s.clients && s.clients[c].replies != [] && s.clients[c].replies[0] in s.calls {
      DelCallSized(s, s.clients[c].replies[0]);
      DelRepliesSized(DelCall(s, s.clients[c].replies[0]), c);
    }
  }

  lemma AbandonWorkSized(fx: Fixes, s: Board, c: Id)
    requires Sized(s) && c in s.clients
    ensures SizedAfter(AbandonWork(fx, s, c))
  {
    hide Finish, SizedAdverts;
    if s.clients[c].wait4.For? && s.clients[c].wait4.call in s.calls {
      var t := s.clients[c].wait4.call;
      var k := s.calls[t].(rval := TPERRNO, rcode := TPESVCERR);
      PutCallSized(s, t, k);
      SaySized(PutCall(s, t, k), Abandoned(c, t));
      FinishSized(Failed(s, c, t), c, t, fx.wakeAny);
    }
  }

  lemma DelClientSized(fx: Fixes, s: Board, c: Id, order: seq<Id>)
    requires Sized(s)
    ensures SizedAfter(DelClient(fx, s, c, order))
  {
    hide AbandonWork, DelAdverts, DelRequests, DelReplies, SizedAdverts, SizedCall, SizedEntry;
    if DelClient(fx, s, c, order).Ok? {
      AbandonWorkSized(fx, s, c);
      var s1 := AbandonWork(fx, s, c).board;
      DelAdvertsSized(s1, c, order);
      var s2 := DelAdverts(s1, c, order).board;
      DelRequestsSized(s2, c);
      DelRepliesSized(DelRequests(s2, c).board, c);
    }
  }

  lemma RunHandlerSized(fx: Fixes, s: Board, c: Id, h: Handler, b: seq<byte>, env: Env)
    requires Sized(s) && !h.CallBody? && !h.ReturnBody? && |b| == CommandLength(h)
    ensures SizedAfter(RunHandler(fx, s, c, h, b, env))
  {
    hide SvrService, SvrAcall, SvrGetReply, SvrAdvertise, SvrUnadvertise, SvrReturn, DelClient, CutName, ToLong, ToShort;
    match h
    case Command =>
      SvrServiceSized(fx, s, c, env);
      DelClientSized(fx, s, c, env.order);
    case Acall =>
      ToLongFits(b, NAME_LENGTH);
      ToLongFits(b, NAME_LENGTH + IOLONG);
      SvrAcallSized(fx, s, c, CutName(b), ToLong(b, NAME_LENGTH), ToLong(b, NAME_LENGTH + IOLONG), env);
    case GetReply => SvrGetReplySized(s, c, AsShort(ToShort(b, 0)), ToLong(b, IOSHORT));
    case Advertise =>
      ToLongFits(b, NAME_LENGTH);
      SvrAdvertiseSized(s, c, CutName(b), ToLong(b, NAME_LENGTH));
    case Unadvertise => SvrUnadvertiseSized(s, c, CutName(b));
    case Return =>
      ToLongFits(b, 1);
      ToLongFits(b, 1 + IOLONG);
      SvrReturnSized(s, c, b[0], ToLong(b, 1), ToLong(b, 1 + IOLONG));
  }

  lemma ToLongFits(b: seq<byte>, at: nat)
    requires at + IOLONG <= |b|
    ensures FitsLong(ToLong(b, at))
  {
  }

  lemma ReadScratchSized(fx: Fixes, s: Board, c: Id, chunk: seq<byte>, env: Env)
    requires Sized(s) && c in s.clients && s.clients[c].conn.Receiving? && s.clients[c].conn.input.Scratch?
    ensures SizedAfter(ReadScratch(fx, s, c, chunk, env))
  {
    hide RunHandler, Splice;
    var Receiving(h, input, used) := s.clients[c].conn;
    if ReadScratch(fx, s, c, chunk, env).Ok? && used + |chunk| == |input.bytes| {
      SameAdverts(s.clients[c], s.clients[c].(conn := Running));
      PutClientSized(s, c, s.clients[c].(conn := Running));
      RunHandlerSized(fx, Unarm(s, c), c, h, Splice(input.bytes, used, chunk), env);
    }
  }

  lemma ReadDataSized(fx: Fixes, s: Board, c: Id, chunk: seq<byte>)
    requires Sized(s) && c in s.clients && s.clients[c].conn.Receiving? && s.clients[c].conn.input.DataOf?
    ensures SizedAfter(ReadData(fx, s, c, chunk))
  {
    hide SendToWorker, Part2, Splice, SizedAdverts, FitsLong;
    var Receiving(h, input, used) := s.clients[c].conn;
    var t := input.call;
    if t in s.calls && used + |chunk| <= |s.calls[t].data| {
      var b := Splice(s.calls[t].data, used, chunk);
      var k := s.calls[t].(data := b);
      PutCallSized(s, t, k);
      var s1 := PutCall(s, t, k);
      var more := s.clients[c].(conn := Receiving(h, input, used + |chunk|));
      SameAdverts(s.clients[c], more);
      PutClientSized(s1, c, more);
      SameAdverts(s.clients[c], s.clients[c].(conn := Running));
      PutClientSized(s1, c, s.clients[c].(conn := Running));
      var s2 := Unarm(s1, c);
      SaySized(s2, Submitted(c, t, b));
      SendToWorkerSized(fx, Say(s2, Submitted(c, t, b)), c);
      SaySized(s2, Returned(c, t, k.rval, k.rcode, b));
      Part2Sized(Say(s2, Returned(c, t, k.rval, k.rcode, b)), c);
    }
  }

  lemma StepSized(fx: Fixes, s: Board, e: Event)
    requires Sized(s)
    ensures SizedAfter(Step(fx, s, e))
  {
    hide DelClient, ReadScratch, ReadData, FitsLong;
    match e
    case Arrive =>
    case Leave(c, order) => DelClientSized(fx, s, c, order);
    case Read(c, chunk, env) =>
      if c in s.clients {
        if !s.clients[c].conn.Receiving? { DelClientSized(fx, s, c, env.order); }
        else if s.clients[c].conn.input.Scratch? { ReadScratchSized(fx, s, c, chunk, env); }
        else { ReadDataSized(fx, s, c, chunk); }
      }
  }

  lemma {:induction false} RunSized(fx: Fixes, s: Board, es: seq<Event>)
    requires Sized(s)
    ensures SizedAfter(Run(fx, s, es))
    decreases |es|
  {
    hide Sized, Step;
    if es != [] && Step(fx, s, es[0]).Ok? {
      StepSized(fx, s, es[0]);
      RunSized(fx, Step(fx, s, es[0]).board, es[1..]);
    }
  }

  /** Whatever a reachable switchboard has written, its numbers fit the fields they are written to. */
  lemma WritesFit(fx: Fixes, s: Board, j: nat)
    requires Reachable(fx, s) && j < |s.log|
    ensures SizedEntry(s.log[j])
  {
    hide GoodRun, Run, SizedEntry;
    var es :| GoodRun(fx, EMPTY, es) && Run(fx, EMPTY, es) == Ok(s);
    RunSized(fx, EMPTY, es);
  }

  // ---------- end to end ----------

  /** Some client had delivered the call in full, as `tpacall` sends it, and had been given this descriptor for it. */
  ghost predicate CameFromCaller(es: seq<Event>, before: seq<Entry>, t: Id, w: Work)
    requires w.WorkGot? && 0 <= w.cd < 0x1_0000
  {
    exists c, n, v :: 0 <= n <= |es| && SentCall(Delivered(es, n, c), CutName(w.name), w.flags, w.data)
      && Accepted(c, t, AsShort(w.cd), v, w.flags) in before
  }

  /** Before entry `j` was written, its worker had delivered this advertisement, as `tpadvertise` sends it, and has not withdrawn it. */
  ghost predicate WasAdvertised(ss: seq<Board>, es: seq<Event>, j: nat, worker: Id, w: Work)
    requires w.WorkGot? && |es| < |ss|
  {
    exists n :: 0 <= n < |es| && |ss[n].log| <= j < |ss[n + 1].log| && OfferStands(ss, es, n, worker, CutName(w.name), w.opaqueValue)
  }

  /**
   Over any good run: the bytes a worker gets are read by `tpservice` as a service name, flags and a body that
   one client delivered together, the descriptor that this client was given, and the value that the worker
   itself advertised for that name and has not withdrawn; and nothing more is consumed.
   */
  lemma WorkerReadsWhatWasSent(fx: Fixes, ss: seq<Board>, es: seq<Event>, j: nat, rest: seq<byte>)
    requires Trace(fx, ss, es) && j < |ss[|es|].log| && ss[|es|].log[j].Handed?
    ensures var s := ss[|es|]; var w := ReadWork(Written(s.log[j]) + rest);
      && w.WorkGot? && w.rest == rest && 0 <= w.cd < 0x1_0000 && CameFromCaller(es, s.log[..j], s.log[j].call, w)
      && WasAdvertised(ss, es, j, s.log[j].to, w)
  {
    hide GoodRun, Run, Reachable, ReadWork, Written, CutName, AsShort, Trace, Delivered, SentCall, OfferStands;
    TraceStarts(fx, ss, es);
    TraceRuns(fx, ss, es);
    var s := ss[|es|];
    WritesFit(fx, s, j);
    var e := s.log[j];
    WorkRoundTrip(e.to, e.call, e.svc, e.opaqueValue, e.name, e.flags, e.cd, e.data, rest);
    var c, n := WorkWasDelivered(fx, ss, es, j);
    assert SentBy(c, s.log[..j], e);
    var p := HandedAsAdvertised(fx, ss, es, j);
  }

  /** The worker that was handed `t` had delivered this reply, as `tpreturn` sends it. */
  ghost predicate CameFromWorker(es: seq<Event>, before: seq<Entry>, t: Id, r: Reply)
    requires r.ReplyGot?
  {
    exists i, n :: 0 <= i < |before| && 0 <= n <= |es| && before[i].Handed? && before[i].call == t
      && SentReturn(Delivered(es, n, before[i].to), r.rval, r.rcode, r.data)
  }

  /**
   Over any good run: a reply with a regular return value is read by `tpgetrply` as what the worker that was
   handed the call delivered for it, under the descriptor this client was given; and nothing more is consumed.
   */
  lemma CallerReadsWhatWasReturned(fx: Fixes, ss: seq<Board>, es: seq<Event>, j: nat, rest: seq<byte>)
    requires Trace(fx, ss, es) && j < |ss[|es|].log| && ss[|es|].log[j].Replied?
    requires ss[|es|].log[j].rval == TPSUCCESS || ss[|es|].log[j].rval == TPFAIL
    ensures var s := ss[|es|]; var r := ReadReply(Written(s.log[j]) + rest);
      && r.ReplyGot? && r.rest == rest && r.len == |r.data| && CameFromWorker(es, s.log[..j], s.log[j].call, r)
      && (exists v, flags :: Accepted(s.log[j].to, s.log[j].call, AsShort(r.cd), v, flags) in s.log[..j])
  {
    hide GoodRun, Run, Reachable, ReadReply, Written, AsShort, Trace, Delivered, SentReturn;
    TraceStarts(fx, ss, es);
    TraceRuns(fx, ss, es);
    var s := ss[|es|];
    WritesFit(fx, s, j);
    ReplyIsWhatWasReturned(fx, s, j);
    var e := s.log[j];
    ReplyRoundTrip(e.to, e.call, e.rval, e.cd, e.rcode, e.data, rest);
    var before := s.log[..j];
    var i, k := RegularWasReturned(before, e);
    assert s.log[k] == before[k] && s.log[i] == before[i];
    var n := ReturnWasDelivered(fx, ss, es, k);
    assert s.log[..j][i] == s.log[i];
  }
}
