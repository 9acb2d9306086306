/** Every event keeps the log right. */
module HistorySteps {
  import opened Sequences
  import opened Wire
  import opened Descriptors
  import opened Board
  import opened Invariant
  import opened Touch
  import opened Answer
  import opened Dispatch
  import opened Departure
  import opened Handlers
  import opened Steps
  import opened History
  import opened Calmness

  // ---------- the stages exclude each other ----------

  /** A call is in exactly one place: its body arrives, or it is queued, or it executes, or its reply is kept. */
  ghost predicate InOnePlace(s: Board, t: Id) {
    && (Arriving(s, t) || Queued(s, t) || Executing(s, t) || Done(s, t))
    && !(Arriving(s, t) && Queued(s, t)) && !(Arriving(s, t) && Executing(s, t)) && !(Arriving(s, t) && Done(s, t))
    && !(Queued(s, t) && Executing(s, t)) && !(Queued(s, t) && Done(s, t)) && !(Executing(s, t) && Done(s, t))
  }

  lemma OnePlaceLists(s: Board, t: Id)
    requires Lists(s) && Queues(s) && t in s.calls
    ensures (Pending(s, t) || Done(s, t)) && !(Pending(s, t) && Done(s, t))
    ensures Queued(s, t) ==> Pending(s, t) && !Executing(s, t) && !Arriving(s, t)
    ensures Executing(s, t) ==> !Done(s, t)
  {
    hide Distinct, IdleQueued, QueuedWorkers;
  }

  lemma ArrivingIsPending(s: Board, t: Id)
    requires Inv(s) && Arriving(s, t)
    ensures Pending(s, t) && !Executing(s, t)
  {
    hide InvX, Distinct;
    InvFits(s, s.calls[t].client);
  }

  lemma InvLists(s: Board, k: Slack)
    requires InvX(s, k)
    ensures Lists(s) && Queues(s) && Phases(s, k.limbo)
  {
    hide Tables, Lists, Queues, Workers, Waiters, Buffers, Phases, Cds;
  }

  lemma InOnePlaceAlways(s: Board, t: Id)
    requires Inv(s) && t in s.calls
    ensures InOnePlace(s, t)
  {
    hide InvX, Lists, Queues;
    InvLists(s, TIGHT);
    OnePlaceLists(s, t);
    if Arriving(s, t) { ArrivingIsPending(s, t); }
  }

  // ---------- changes that concern no call ----------

  lemma MinorLog(s: Board, r: Board)
    requires LogInv(s) && Calm(s, r, {}) && s.next <= r.next
    requires r.log == s.log || (exists e :: r.log == s.log + [e] && !AboutCall(e))
    ensures LogInv(r)
  {
    hide Arriving, Queued, Done, CallLogged, Fair, Sound;
    if r.log != s.log {
      var e :| r.log == s.log + [e] && !AboutCall(e);
      MinorFair(s.log, e);
      SoundAppend(s.log, e);
    }
    forall u | u in r.calls ensures CallLogged(r, u) {
      assert StageKept(s, r, u);
      CallLoggedKept(s, r, u + 1, u);
    }
  }

  lemma MinorFair(log: seq<Entry>, e: Entry)
    requires !AboutCall(e)
    ensures Fair(log, e)
  {
  }

  // ---------- a call is handed over ----------

  /** The log lets `t` be handed to a worker. */
  ghost predicate MayHand(s: Board, t: Id) {
    t in s.calls && t < s.next && Sound(s.log)
    && AcceptEntry(s.calls[t], t) in s.log && Submitted(s.calls[t].client, t, s.calls[t].data) in s.log
    && !WasHanded(s.log, t) && !WasEnded(s.log, t) && !WasReplied(s.log, t)
  }

  lemma HandFair(s: Board, w: Id, t: Id)
    requires MayHand(s, t) && w in s.clients && s.calls[t].svc in s.services && s.calls[t].svc in s.clients[w].adverts
    ensures Fair(s.log, HandEntry(s, w, t))
  {
    hide Sound;
    assert AcceptEntry(s.calls[t], t) in s.log;
  }

  /** Adding one entry about `t` that is no reply and no return. */
  lemma AppendFacts(log: seq<Entry>, e: Entry, t: Id)
    ensures forall f :: f in log ==> f in log + [e]
    ensures WasReplied(log + [e], t) <==> WasReplied(log, t) || (e.Replied? && e.call == t)
    ensures WasEnded(log + [e], t) <==> WasEnded(log, t) || (Ends(e) && e.call == t)
    ensures WasSubmitted(log + [e], t) <==> WasSubmitted(log, t) || (e.Submitted? && e.call == t)
    ensures WasHanded(log, t) ==> WasHanded(log + [e], t)
    ensures WasHanded(log + [e], t) ==> WasHanded(log, t) || (e.Handed? && e.call == t)
    ensures e.Handed? && e.call == t ==> WasHandedTo(log + [e], t, e.to) && WasHanded(log + [e], t)
  {
    var r := log + [e];
    assert r[|log|] == e;
    if WasReplied(log, t) { var i :| 0 <= i < |log| && log[i].Replied? && log[i].call == t; assert r[i] == log[i]; }
    if WasEnded(log, t) { var i :| 0 <= i < |log| && Ends(log[i]) && log[i].call == t; assert r[i] == log[i]; }
    if WasSubmitted(log, t) { var i :| 0 <= i < |log| && log[i].Submitted? && log[i].call == t; assert r[i] == log[i]; }
    if WasHanded(log, t) { var i :| 0 <= i < |log| && log[i].Handed? && log[i].call == t; assert r[i] == log[i]; }
  }

  /** The executing call `t` is logged as it should be. */
  lemma ExecutingLogged(s: Board, t: Id)
    requires Inv(s) && Executing(s, t)
    requires AcceptEntry(s.calls[t], t) in s.log && !WasReplied(s.log, t)
    requires WasHandedTo(s.log, t, s.calls[t].executor.value) && !WasEnded(s.log, t)
    ensures CallLogged(s, t)
  {
    hide Inv, WasReplied, WasEnded, WasHanded, WasHandedTo, WasSubmitted;
    InOnePlaceAlways(s, t);
  }

  lemma HandLog(s: Board, s1: Board, r: Board, w: Id, t: Id)
    requires LogInv(s) && Calm(s, s1, {t}) && Adds(s, s1, t) && s.next <= s1.next && MayHand(s1, t)
    requires w in s1.clients && s1.calls[t].svc in s1.services && s1.calls[t].svc in s1.clients[w].adverts
    requires r == Say(Hand(s1, w, t), HandEntry(s1, w, t)) && Inv(r)
    ensures LogInv(r)
  {
    hide Inv, LogInv, Calm, Fair, Sound, Without, WasReplied, WasEnded, WasHanded, WasHandedTo, WasSubmitted;
    var e := HandEntry(s1, w, t);
    HandFair(s1, w, t);
    SoundAppend(s1.log, e);
    AppendFacts(s1.log, e, t);
    CalmHand(s1, w, t);
    CalmSay(Hand(s1, w, t), e);
    CalmWeaken(Hand(s1, w, t), r, {}, {t});
    CalmTransitive(s, s1, Hand(s1, w, t), {t});
    CalmTransitive(s, Hand(s1, w, t), r, {t});
    assert Adds(s, r, t);
    ExecutingLogged(r, t);
    LogInvAfter(s, r, t);
  }

  lemma QueuedMayHand(s: Board, t: Id)
    requires LogInv(s) && Queued(s, t) && t < s.next
    ensures MayHand(s, t)
  {
    hide Sound;
    assert CallLogged(s, t);
  }

  /** `svrservice`, called with the connection just unarmed. */
  lemma SvrServiceLog(fx: Fixes, s: Board, c: Id, env: Env)
    requires LogInv(s) && InHandler(s, c, {}) && Walks(env.order, s.clients[c].adverts.Keys) && WorkOk(fx, s, c)
    ensures SvrService(fx, s, c, env).Ok? && LogInv(SvrService(fx, s, c, env).board)
  {
    hide Inv, InvX, LogInv, Without, Distinct, CastsHold, SendToServer, Calm;
    SvrServiceKeeps(fx, s, c, env);
    InvQueues(s, TIGHT);
    InvIndexed(s, TIGHT);
    CallHeads(s, env.order);
    hide Queues, Workers;
    match FindEarliest(fx, s, env.order, None)
    case Some(v) =>
      var t := FirstCall(s, v);
      HeadReady(s, v);
      assert CallNode(t) == s.services[v].waitq[0];
      assert Queued(s, t);
      QueuedMayHand(s, t);
      SendToServerIs(fx, s, c, t);
      CalmReflexive(s);
      CalmWeaken(s, s, {}, {t});
      HandLog(s, s, SvrService(fx, s, c, env).board, c, t);
    case None =>
      CalmPark(s, c);
      MinorLog(s, Park(s, c));
  }

  // ---------- a call is submitted ----------

  lemma QueuedLogged(s: Board, t: Id)
    requires Inv(s) && Queued(s, t) && MayHand(s, t)
    ensures CallLogged(s, t)
  {
    hide Inv, WasReplied, WasEnded, WasHanded, WasHandedTo, WasSubmitted, Sound;
    InOnePlaceAlways(s, t);
  }

  lemma NextCommandCalm(s: Board, c: Id)
    requires NextCommand(s, c).Ok?
    ensures Calm(s, NextCommand(s, c).board, {}) && NextCommand(s, c).board.log == s.log && NextCommand(s, c).board.next == s.next
    ensures NextCommand(s, c).board.calls == s.calls
  {
    CalmTouch(s, c, s.clients[c].(conn := NEXT), {});
  }

  /** What the conditions of `SendToWorkerKeeps` make of `send_to_worker`. */
  ghost predicate SendsOn(s: Board, c: Id, t: Id) {
    && InHandler(s, c, {t}) && s.clients[c].requests != [] && Last(s.clients[c].requests) == t
    && Ready(s, t) && OnNoQueue(s, t) && s.calls[t].svc in s.services
  }

  predicate WorkerWaits(s: Board, t: Id) {
    t in s.calls && s.calls[t].svc in s.services
    && s.services[s.calls[t].svc].waitq != [] && !s.services[s.calls[t].svc].holdsCalls
    && s.services[s.calls[t].svc].waitq[0].WorkerNode?
    && Advertises(s, s.services[s.calls[t].svc].waitq[0].client, s.calls[t].svc)
  }

  lemma SentOn(fx: Fixes, s1: Board, c: Id, t: Id)
    requires SendsOn(s1, c, t)
    ensures NextCommand(s1, c).Ok?
    ensures var s2 := NextCommand(s1, c).board;
      && t in s2.calls && s2.calls[t].svc in s2.services
      && SendToWorker(fx, s1, c) == Ok(
           if WorkerWaits(s2, t) then
             var w := s2.services[s2.calls[t].svc].waitq[0].client;
             Say(Hand(s2, w, t), HandEntry(s2, w, t))
           else Enqueue(s2, t))
  {
    hide InvX, Without, Distinct, SendToServer;
    NextCommandKeeps(s1, c, Slack({t}, {}, {}));
    var s2 := NextCommand(s1, c).board;
    InvQueues(s2, Slack({t}, {}, {}));
    if s2.services[s2.calls[t].svc].waitq != [] && !s2.services[s2.calls[t].svc].holdsCalls {
      IdleHead(s2, s2.calls[t].svc);
      SendToServerIs(fx, s2, s2.services[s2.calls[t].svc].waitq[0].client, t);
    }
  }

  lemma SendsOnKeeps(fx: Fixes, s: Board, c: Id, t: Id)
    requires SendsOn(s, c, t)
    ensures SendToWorker(fx, s, c).Ok? && Inv(SendToWorker(fx, s, c).board)
  {
    hide InvX, Inv, SendToWorker;
    SendToWorkerKeeps(fx, s, c, t);
  }

  lemma EnqueueLog(s: Board, s1: Board, t: Id)
    requires LogInv(s) && Calm(s, s1, {t}) && Adds(s, s1, t) && s.next <= s1.next && MayHand(s1, t)
    requires s1.calls[t].svc in s1.services && Inv(Enqueue(s1, t))
    ensures LogInv(Enqueue(s1, t))
  {
    hide Inv, LogInv, Calm, Sound, WasReplied, WasEnded, WasHanded, WasHandedTo, WasSubmitted;
    var r := Enqueue(s1, t);
    CalmEnqueue(s1, t);
    CalmTransitive(s, s1, r, {t});
    assert CallNode(t) in r.services[s1.calls[t].svc].waitq;
    QueuedLogged(r, t);
    LogInvAfter(s, r, t);
  }

  /** `send_to_worker`, once the log says that the body has arrived. */
  lemma SendToWorkerLog(fx: Fixes, s: Board, s1: Board, c: Id, t: Id)
    requires LogInv(s) && Calm(s, s1, {t}) && Adds(s, s1, t) && s.next <= s1.next && MayHand(s1, t)
    requires SendsOn(s1, c, t)
    ensures SendToWorker(fx, s1, c).Ok? && LogInv(SendToWorker(fx, s1, c).board)
  {
    hide Inv, SendsOn, LogInv, Without, SendToWorker, Calm, Sound, WasReplied, WasEnded, WasHanded, WasHandedTo, WasSubmitted;
    SendsOnKeeps(fx, s1, c, t);
    SentOn(fx, s1, c, t);
    NextCommandCalm(s1, c);
    var s2 := NextCommand(s1, c).board;
    CalmWeaken(s1, s2, {}, {t});
    CalmTransitive(s, s1, s2, {t});
    var r := SendToWorker(fx, s1, c).board;
    if WorkerWaits(s2, t) {
      HandLog(s, s2, r, s2.services[s2.calls[t].svc].waitq[0].client, t);
    } else {
      EnqueueLog(s, s2, t);
    }
  }

  /** A body that has been read is submitted. */
  lemma SubmitFair(s: Board, t: Id, data: seq<byte>)
    requires t in s.calls && AcceptEntry(s.calls[t], t) in s.log && !WasSubmitted(s.log, t)
    ensures Fair(s.log, Submitted(s.calls[t].client, t, data))
  {
  }

  /** The body of `t` is complete: it is `data`. */
  lemma SubmitMayHand(s: Board, t: Id, data: seq<byte>)
    requires t in s.calls && t < s.next && Sound(s.log) && data == s.calls[t].data
    requires AcceptEntry(s.calls[t], t) in s.log && !WasSubmitted(s.log, t)
    requires !WasHanded(s.log, t) && !WasEnded(s.log, t) && !WasReplied(s.log, t)
    ensures MayHand(Say(s, Submitted(s.calls[t].client, t, data)), t)
  {
    hide Fair, Sound, WasReplied, WasEnded, WasHanded, WasHandedTo, WasSubmitted;
    SubmitFair(s, t, data);
    SoundAppend(s.log, Submitted(s.calls[t].client, t, data));
    AppendFacts(s.log, Submitted(s.calls[t].client, t, data), t);
  }

  /** Nothing is logged about a call number not yet used. */
  lemma NothingLogged(s: Board, t: Id)
    requires LogSerial(s) && s.next <= t
    ensures !WasSubmitted(s.log, t) && !WasHanded(s.log, t) && !WasEnded(s.log, t) && !WasReplied(s.log, t)
    ensures forall c, cd, v, flags :: Fair(s.log, Accepted(c, t, cd, v, flags))
  {
  }

  lemma ArrivingLogged(s: Board, t: Id)
    requires Inv(s) && Arriving(s, t)
    requires AcceptEntry(s.calls[t], t) in s.log
    requires !WasSubmitted(s.log, t) && !WasHanded(s.log, t) && !WasEnded(s.log, t) && !WasReplied(s.log, t)
    ensures CallLogged(s, t)
  {
    hide Inv, WasReplied, WasEnded, WasHanded, WasHandedTo, WasSubmitted;
    InOnePlaceAlways(s, t);
  }

  /** `new_transaction` and its acknowledgement. */
  lemma AcceptLog(s: Board, c: Id, svc: Id, len: nat, flags: int, env: Env)
    requires LogInv(s) && c in s.clients && NewCall(s, c, svc, len, flags, env).Ok?
    ensures var s1, t := NewCall(s, c, svc, len, flags, env).board, s.next;
      && t in s1.calls && s1.calls[t].client == c
      && var s2 := Say(s1, AcceptEntry(s1.calls[t], t));
         && Calm(s, s2, {t}) && Adds(s, s2, t) && s2.next == t + 1 && Sound(s2.log)
         && AcceptEntry(s1.calls[t], t) in s2.log
         && !WasSubmitted(s2.log, t) && !WasHanded(s2.log, t) && !WasEnded(s2.log, t) && !WasReplied(s2.log, t)
  {
    hide CallLogged, Fair, Sound, WasReplied, WasEnded, WasHanded, WasHandedTo, WasSubmitted, Calm, Take;
    var s1, t := NewCall(s, c, svc, len, flags, env).board, s.next;
    var e := AcceptEntry(s1.calls[t], t);
    NothingLogged(s, t);
    SoundAppend(s.log, e);
    AppendFacts(s.log, e, t);
    CalmNewCall(s, c, svc, len, flags, env);
    CalmSay(s1, e);
    CalmWeaken(s1, Say(s1, e), {}, {t});
    CalmTransitive(s, s1, Say(s1, e), {t});
  }

  lemma RefusedLog(s: Board, c: Id, e: Entry)
    requires LogInv(s) && !AboutCall(e) && NextCommand(Say(s, e), c).Ok?
    ensures LogInv(NextCommand(Say(s, e), c).board)
  {
    hide LogInv, Calm;
    CalmSay(s, e);
    NextCommandCalm(Say(s, e), c);
    CalmTransitive(s, Say(s, e), NextCommand(Say(s, e), c).board, {});
    MinorLog(s, NextCommand(Say(s, e), c).board);
  }

  lemma ArmBodyLog(s: Board, s2: Board, c: Id, t: Id)
    requires LogInv(s) && Calm(s, s2, {t}) && Adds(s, s2, t) && s.next <= s2.next && t < s2.next && Sound(s2.log)
    requires t in s2.calls && s2.calls[t].client == c && AcceptEntry(s2.calls[t], t) in s2.log
    requires !WasSubmitted(s2.log, t) && !WasHanded(s2.log, t) && !WasEnded(s2.log, t) && !WasReplied(s2.log, t)
    requires Arm(s2, c, CallBody, DataOf(t)).Ok? && Inv(Arm(s2, c, CallBody, DataOf(t)).board)
    ensures LogInv(Arm(s2, c, CallBody, DataOf(t)).board)
  {
    hide LogInv, Inv, Calm, Sound, WasReplied, WasEnded, WasHanded, WasHandedTo, WasSubmitted;
    var r := Arm(s2, c, CallBody, DataOf(t)).board;
    CalmTouch(s2, c, s2.clients[c].(conn := Receiving(CallBody, DataOf(t), 0)), {t});
    CalmTransitive(s, s2, r, {t});
    ArrivingLogged(r, t);
    LogInvAfter(s, r, t);
  }

  lemma SvrAcallLog(fx: Fixes, s: Board, c: Id, name: Name, len: int, flags: int, env: Env)
    requires LogInv(s) && InHandler(s, c, {}) && GoodBatches(env.batches) && CallOk(s, name, len, env)
    ensures SvrAcall(fx, s, c, name, len, flags, env).Ok? && LogInv(SvrAcall(fx, s, c, name, len, flags, env).board)
  {
    hide InvX, Inv, DrawsWell, LiveCds, Take, OnNoQueue, LogInv, Calm, Sound, SendToWorker;
    hide WasReplied, WasEnded, WasHanded, WasHandedTo, WasSubmitted;
    SvrAcallKeeps(fx, s, c, name, len, flags, env);
    if name !in s.index || len < 0 {
      RefusedLog(s, c, Refused(c, TPENOENT));
    } else {
      assert s.index[name] in s.services by { InvIndexed(s, TIGHT); }
      var t, svc := s.next, s.index[name];
      NewCallKeeps(s, c, svc, len, flags, env);
      NewCallLast(s, c, svc, len, flags, env);
      AcceptLog(s, c, svc, len, flags, env);
      var s1 := NewCall(s, c, svc, len, flags, env).board;
      hide NewCall;
      var e := AcceptEntry(s1.calls[t], t);
      var s2 := Say(s1, e);
      if len > 0 {
        ArmBodyLog(s, s2, c, t);
      } else {
        var f := Submitted(c, t, []);
        var s3 := Say(s2, f);
        SubmitMayHand(s2, t, []);
        CalmSay(s2, f);
        CalmWeaken(s2, s3, {}, {t});
        CalmTransitive(s, s2, s3, {t});
        SayInHandler(s1, c, {t}, e);
        SayInHandler(s2, c, {t}, f);
        SayOnNoQueue(s1, e, t);
        SayOnNoQueue(s2, f, t);
        assert Ready(s3, t);
        assert SendsOn(s3, c, t);
        SendToWorkerLog(fx, s, s3, c, t);
      }
    }
  }

  // ---------- a call is answered ----------

  /** The log lets a reply to `t` be kept or sent. */
  ghost predicate MayReply(s: Board, t: Id) {
    t in s.calls && t < s.next && Sound(s.log)
    && var k := s.calls[t];
       AcceptEntry(k, t) in s.log && WasHanded(s.log, t) && !WasReplied(s.log, t)
       && Explained(s.log, t, k.rval, k.rcode, k.data)
  }

  lemma ReplyFair(s: Board, t: Id)
    requires MayReply(s, t)
    ensures Fair(s.log, ReplyEntry(s, t))
  {
    hide Sound, WasHanded, Explained;
  }

  lemma SndReplyFinds(s: Board, t: Id)
    requires SndReply(s, t).Ok?
    ensures t in s.calls && s.calls[t].client in s.clients && !s.clients[s.calls[t].client].conn.Receiving?
  {
    hide Without;
  }

  lemma SndReplyLog(s: Board, s1: Board, t: Id)
    requires LogInv(s) && Calm(s, s1, {t}) && Adds(s, s1, t) && s.next <= s1.next && MayReply(s1, t)
    requires SndReply(s1, t).Ok?
    ensures LogInv(SndReply(s1, t).board)
  {
    hide LogInv, Calm, Fair, Sound, WasHanded, WasReplied, Explained, SndReply, Without, DelCall;
    SndReplyFinds(s1, t);
    SndReplyIs(s1, t);
    var e, c := ReplyEntry(s1, t), s1.calls[t].client;
    var s2 := Say(s1, e);
    var s3 := Resume(s2, c);
    var r := SndReply(s1, t).board;
    ReplyFair(s1, t);
    SoundAppend(s1.log, e);
    CalmSay(s1, e);
    CalmTouch(s2, c, s2.clients[c].(conn := NEXT, wait4 := Nothing), {});
    StillDelCall(s3, t);
    CalmTransitive(s1, s2, s3, {});
    CalmTransitive(s1, s3, r, {});
    CalmWeaken(s1, r, {}, {t});
    CalmTransitive(s, s1, r, {t});
    assert t !in r.calls by { DelCallGone(s3, t); }
    LogInvAfter(s, r, t);
  }

  lemma DelCallGone(s: Board, t: Id)
    requires t in s.calls
    ensures t !in DelCall(s, t).calls
  {
    hide Without;
  }

  /** The kept reply is logged as it should be. */
  lemma KeptLogged(s: Board, t: Id)
    requires MayReply(s, t) && s.calls[t].executor.None? && OnNoQueue(s, t) && !Arriving(s, t)
    ensures CallLogged(s, t)
  {
    hide WasHanded, WasReplied, WasEnded, WasSubmitted, WasHandedTo, Explained, Sound;
  }

  lemma KeepReplyLog(s: Board, s1: Board, t: Id)
    requires LogInv(s) && Calm(s, s1, {t}) && Adds(s, s1, t) && s.next <= s1.next && MayReply(s1, t)
    requires s1.calls[t].client in s1.clients && s1.calls[t].executor.None? && OnNoQueue(s1, t) && !Arriving(s1, t)
    ensures LogInv(KeepReply(s1, t))
  {
    hide LogInv, Calm, Sound, WasHanded, WasReplied, Explained, Without, CallLogged;
    var r := KeepReply(s1, t);
    CalmKeepReply(s1, t);
    CalmTransitive(s, s1, r, {t});
    KeptLogged(r, t);
    LogInvAfter(s, r, t);
  }

  lemma FinishLog(s: Board, s1: Board, c: Id, t: Id, seesAny: bool)
    requires LogInv(s) && Calm(s, s1, {t}) && Adds(s, s1, t) && s.next <= s1.next && MayReply(s1, t)
    requires c in s1.clients && s1.calls[t].client in s1.clients && OnNoQueue(s1, t) && !Arriving(s1, t)
    requires Finish(s1, c, t, seesAny).Ok?
    ensures LogInv(Finish(s1, c, t, seesAny).board)
  {
    hide LogInv, Calm, Sound, WasHanded, WasReplied, Explained, Without, SndReply, Finish, KeepReply;
    FinishIs(s1, c, t, seesAny);
    var s2 := LetGo(s1, c, t);
    CalmLetGo(s1, c, t);
    CalmTransitive(s, s1, s2, {t});
    assert MayReply(s2, t);
    assert !Arriving(s2, t);
    var to := s2.clients[s1.calls[t].client];
    if to.wait4 == For(t) || (seesAny && to.wait4 == AnyReply) {
      SndReplyLog(s, s2, t);
    } else {
      KeepReplyLog(s, s2, t);
    }
  }

  lemma ReturnFair(s: Board, w: Id, t: Id, rval: byte, rcode: int, data: seq<byte>)
    requires WasHandedTo(s.log, t, w) && !WasEnded(s.log, t)
    ensures Fair(s.log, Returned(w, t, rval, rcode, data))
  {
    hide WasHandedTo;
  }

  lemma HandedToSomeone(log: seq<Entry>, t: Id, w: Id)
    requires WasHandedTo(log, t, w)
    ensures WasHanded(log, t)
  {
  }

  /** The worker's reply to `t` is in and is noted down. */
  lemma ReturnMayReply(s: Board, w: Id, t: Id)
    requires t in s.calls && t < s.next && Sound(s.log)
    requires AcceptEntry(s.calls[t], t) in s.log && !WasReplied(s.log, t)
    requires WasHandedTo(s.log, t, w) && !WasEnded(s.log, t)
    ensures MayReply(Say(s, Returned(w, t, s.calls[t].rval, s.calls[t].rcode, s.calls[t].data)), t)
  {
    hide Fair, Sound, WasReplied, WasEnded, WasHanded, WasHandedTo, WasSubmitted;
    var e := Returned(w, t, s.calls[t].rval, s.calls[t].rcode, s.calls[t].data);
    HandedToSomeone(s.log, t, w);
    ReturnFair(s, w, t, s.calls[t].rval, s.calls[t].rcode, s.calls[t].data);
    SoundAppend(s.log, e);
    AppendFacts(s.log, e, t);
    assert e in s.log + [e];
  }

  /** `part2`, once the log says that the reply body has arrived. */
  lemma Part2Log(s: Board, s1: Board, c: Id)
    requires LogInv(s) && InHandler(s1, c, {}) && s1.clients[c].wait4.For?
    requires var t := s1.clients[c].wait4.call; Calm(s, s1, {t}) && Adds(s, s1, t) && s.next <= s1.next && MayReply(s1, t)
    ensures Part2(s1, c).Ok? && LogInv(Part2(s1, c).board)
  {
    hide InvX, Inv, Distinct, Without, Finish, LogInv, Calm, Sound, WasHanded, WasReplied, Explained, OnNoQueue;
    Part2Keeps(s1, c);
    var t := s1.clients[c].wait4.call;
    NextCommandKeeps(s1, c, TIGHT);
    NextCommandCalm(s1, c);
    var s2 := NextCommand(s1, c).board;
    CalmWeaken(s1, s2, {}, {t});
    CalmTransitive(s, s1, s2, {t});
    InvWaiter(s2, c, TIGHT);
    ExecutedIsPending(s2, t, TIGHT);
    NotArriving(s2, t);
    ExecutedOnNoQueue(s2, t, TIGHT);
    assert MayReply(s2, t) && Adds(s, s2, t);
    FinishLog(s, s2, c, t, true);
  }

  lemma ExecutedOnNoQueue(s: Board, t: Id, k: Slack)
    requires InvX(s, k) && t in s.calls && s.calls[t].executor.Some?
    ensures OnNoQueue(s, t)
  {
    hide Distinct, Tables, Lists, Workers, Waiters, Buffers, Phases, Cds;
  }

  lemma ExecutingFacts(s: Board, t: Id)
    requires LogInv(s) && t in s.calls && s.calls[t].executor.Some?
    ensures Sound(s.log) && AcceptEntry(s.calls[t], t) in s.log && !WasReplied(s.log, t)
    ensures WasHanded(s.log, t) && !WasEnded(s.log, t)
    ensures WasHandedTo(s.log, t, s.calls[t].executor.value)
  {
    hide Sound;
    assert CallLogged(s, t);
    HandedToSomeone(s.log, t, s.calls[t].executor.value);
  }

  lemma AddsNothing(s: Board, r: Board, t: Id)
    requires r.log == s.log
    ensures Adds(s, r, t)
  {
  }

  lemma SvrReturnLog(s: Board, c: Id, rval: byte, rcode: int, len: int)
    requires LogInv(s) && InHandler(s, c, {}) && ReturnOk(s, c, len)
    ensures SvrReturn(s, c, rval, rcode, len).Ok? && LogInv(SvrReturn(s, c, rval, rcode, len).board)
  {
    hide InvX, Inv, Part2, LogInv, Calm, Sound, WasHanded, WasReplied, WasEnded, WasHandedTo, NobodyReads;
    SvrReturnKeeps(s, c, rval, rcode, len);
    var t := s.clients[c].wait4.call;
    InvWaiter(s, c, TIGHT);
    InvIndexed(s, TIGHT);
    ExecutingFacts(s, t);
    var k' := s.calls[t].(rval := rval, rcode := rcode, data := Resize(s.calls[t].data, len));
    var s1 := PutCall(s, t, k');
    CalmPutCall(s, t, k');
    AddsNothing(s, s1, t);
    if len > 0 {
      var r := Arm(s1, c, ReturnBody, DataOf(t)).board;
      CalmTouch(s1, c, s1.clients[c].(conn := Receiving(ReturnBody, DataOf(t), 0)), {t});
      CalmTransitive(s, s1, r, {t});
      AddsNothing(s, r, t);
      ExecutingLogged(r, t);
      LogInvAfter(s, r, t);
    } else {
      var e := Returned(c, t, rval, rcode, []);
      ReturnMayReply(s1, c, t);
      NobodyElseReads(s, c, t);
      RewriteKeeps(s, t, k', TIGHT);
      SayInHandler(s1, c, {}, e);
      CalmSay(s1, e);
      CalmWeaken(s1, Say(s1, e), {}, {t});
      CalmTransitive(s, s1, Say(s1, e), {t});
      assert Adds(s, Say(s1, e), t);
      Part2Log(s, Say(s1, e), c);
    }
  }

  lemma SvrGetReplyLog(s: Board, c: Id, cd: Short, flags: int)
    requires LogInv(s) && InHandler(s, c, {}) && GetReplyOk(s, c, cd, flags)
    ensures SvrGetReply(s, c, cd, flags).Ok? && LogInv(SvrGetReply(s, c, cd, flags).board)
  {
    hide InvX, Inv, SndReply, LogInv, Calm, FlagSet, Without;
    SvrGetReplyKeeps(s, c, cd, flags);
    InvOwned(s, TIGHT);
    InvIndexed(s, TIGHT);
    var cl := s.clients[c];
    match ReplyReady(s.calls, cl.replies, cd, flags)
    case Some(t) =>
      assert t in cl.replies;
      DoneMayReply(s, t);
      CalmReflexive(s);
      CalmWeaken(s, s, {}, {t});
      AddsNothing(s, s, t);
      SndReplyLog(s, s, t);
    case None =>
      var target := WaitTarget(s.calls, cl.requests, cd, flags);
      if target == Nothing {
        RefusedLog(s, c, NoReply(c, TPEBADDESC));
      } else if FlagSet(flags, TPNOBLOCK) {
        RefusedLog(s, c, NoReply(c, TPEBLOCK));
      } else {
        CalmTouch(s, c, cl.(conn := AwaitReply, wait4 := target), {});
        MinorLog(s, SvrGetReply(s, c, cd, flags).board);
      }
  }

  lemma DoneMayReply(s: Board, t: Id)
    requires LogInv(s) && Done(s, t) && t < s.next
    ensures MayReply(s, t)
  {
    hide Sound, WasHanded, WasReplied, WasEnded, WasSubmitted, WasHandedTo, Explained;
    assert CallLogged(s, t);
  }

  // ---------- services ----------

  lemma SvrAdvertiseLog(s: Board, c: Id, name: Name, o: int)
    requires LogInv(s) && InHandler(s, c, {})
    ensures SvrAdvertise(s, c, name, o).Ok? && LogInv(SvrAdvertise(s, c, name, o).board)
  {
    hide InvX, Inv, LogInv, Calm;
    SvrAdvertiseKeeps(s, c, name, o);
    var s1 := NewService(s, name);
    NewServiceClients(s, name);
    CalmNewService(s, name);
    MinorLog(s, s1);
    assert name in s1.index;
    var v, cl := s1.index[name], s1.clients[c];
    if v in cl.adverts && cl.adverts[v] != o {
      RefusedLog(s1, c, Status(c, TPEMATCH));
    } else {
      CalmTouch(s1, c, cl.(adverts := cl.adverts[v := o]), {});
      var s2 := PutClient(s1, c, cl.(adverts := cl.adverts[v := o]));
      MinorLog(s1, s2);
      RefusedLog(s2, c, Status(c, 0));
    }
  }

  lemma SvrUnadvertiseLog(s: Board, c: Id, name: Name)
    requires LogInv(s) && InHandler(s, c, {}) && UnadvertiseOk(s, c, name)
    ensures SvrUnadvertise(s, c, name).Ok? && LogInv(SvrUnadvertise(s, c, name).board)
  {
    hide InvX, Inv, LogInv, Calm, DelAdvert;
    SvrUnadvertiseKeeps(s, c, name);
    if name !in s.index || !Advertises(s, c, s.index[name]) {
      RefusedLog(s, c, Status(c, TPENOENT));
    } else {
      var v := s.index[name];
      StillDelAdvert(s, c, v);
      var s1 := DelAdvert(s, c, v).board;
      MinorLog(s, s1);
      RefusedLog(s1, c, Status(c, 0));
    }
  }

  // ---------- connections ----------

  lemma AbandonWorkLog(fx: Fixes, s: Board, c: Id)
    requires LogInv(s) && InvX(s, TIGHT) && c in s.clients && (fx.wakeAny || !AbandonsAnyWaiter(s, c))
    ensures AbandonWork(fx, s, c).Ok? && LogInv(AbandonWork(fx, s, c).board)
  {
    hide InvX, LogInv, Calm, Finish, Sound, WasHanded, WasReplied, WasEnded, WasHandedTo, OnNoQueue;
    AbandonWorkKeeps(fx, s, c);
    match s.clients[c].wait4
    case For(t) =>
      if s.calls[t].executor == Some(c) {
        InvIndexed(s, TIGHT);
        NotArriving(s, t);
        ExecutedIsPending(s, t, TIGHT);
        ExecutedOnNoQueue(s, t, TIGHT);
        ExecutingFacts(s, t);
        var s1 := Failed(s, c, t);
        FailedLog(s, c, t);
        assert OnNoQueue(s1, t) by { SameQueues(s, s1, t); }
        FinishLog(s, s1, c, t, fx.wakeAny);
      }
    case _ =>
  }

  /** The call is noted down as abandoned, and may be answered with a failure. */
  lemma FailedLog(s: Board, c: Id, t: Id)
    requires t in s.calls && t < s.next && Sound(s.log) && AcceptEntry(s.calls[t], t) in s.log && !WasReplied(s.log, t)
    requires WasHandedTo(s.log, t, c) && !WasEnded(s.log, t)
    ensures var s1 := Failed(s, c, t); Calm(s, s1, {t}) && Adds(s, s1, t) && MayReply(s1, t)
  {
    hide Fair, Sound, WasReplied, WasEnded, WasHanded, WasHandedTo, WasSubmitted, Calm;
    var k, e := Failed(s, c, t).calls[t], Abandoned(c, t);
    CalmPutCall(s, t, k);
    CalmSay(PutCall(s, t, k), e);
    CalmWeaken(PutCall(s, t, k), Failed(s, c, t), {}, {t});
    CalmTransitive(s, PutCall(s, t, k), Failed(s, c, t), {t});
    HandedToSomeone(s.log, t, c);
    AbandonFair(s.log, c, t);
    SoundAppend(s.log, e);
    AppendFacts(s.log, e, t);
    assert e in s.log + [e];
  }

  lemma AbandonFair(log: seq<Entry>, w: Id, t: Id)
    requires WasHandedTo(log, t, w) && !WasEnded(log, t)
    ensures Fair(log, Abandoned(w, t))
  {
    hide WasHandedTo;
  }

  lemma SameQueues(s: Board, r: Board, t: Id)
    requires OnNoQueue(s, t) && r.services == s.services
    ensures OnNoQueue(r, t)
  {
  }

  lemma DelClientLog(fx: Fixes, s: Board, c: Id, order: seq<Id>)
    requires LogInv(s) && InvX(s, TIGHT) && c in s.clients && Quiet(s, c) && Walks(order, s.clients[c].adverts.Keys)
    requires fx.wakeAny || !AbandonsAnyWaiter(s, c)
    ensures DelClient(fx, s, c, order).Ok? && LogInv(DelClient(fx, s, c, order).board)
  {
    hide InvX, Inv, LogInv, Calm, AbandonWork, DelAdverts, DelRequests, DelReplies, Walks;
    DelClientKeeps(fx, s, c, order);
    AbandonWorkLog(fx, s, c);
    var s1 := AbandonWork(fx, s, c).board;
    var s2 := DelAdverts(s1, c, order).board;
    var s3 := DelRequests(s2, c).board;
    var s4 := DelReplies(s3, c).board;
    StillDelAdverts(s1, c, order);
    StillDelRequests(s2, c);
    StillDelReplies(s3, c);
    StillTransitive(s1, s2, s3);
    StillTransitive(s1, s3, s4);
    CalmRemoveClient(s4, c);
    MinorLog(s1, s4);
    MinorLog(s4, RemoveClient(s4, c));
  }

  lemma ConnectLog(s: Board)
    requires LogInv(s) && Inv(s)
    ensures Connect(s).Ok? && LogInv(Connect(s).board)
  {
    hide Inv, LogInv, Calm;
    ConnectKeeps(s);
    CalmAddClient(s);
    MinorLog(s, AddClient(s));
    NextCommandCalm(AddClient(s), s.next);
    MinorLog(AddClient(s), Connect(s).board);
  }

  // ---------- every event ----------

  lemma RunHandlerLog(fx: Fixes, s: Board, c: Id, h: Handler, b: seq<byte>, env: Env)
    requires LogInv(s) && InHandler(s, c, {}) && Walks(env.order, s.clients[c].adverts.Keys) && GoodBatches(env.batches)
    requires !h.CallBody? && !h.ReturnBody? && |b| == CommandLength(h) && HandlerOk(fx, s, c, h, b, env)
    ensures RunHandler(fx, s, c, h, b, env).Ok? && LogInv(RunHandler(fx, s, c, h, b, env).board)
  {
    hide InvX, LogInv, Calm, Walks, GoodBatches, SvrService, DelClient, SvrAcall, SvrGetReply, SvrAdvertise, SvrUnadvertise, SvrReturn;
    hide WorkOk, CallOk, GetReplyOk, UnadvertiseOk, ReturnOk, CutName, ToLong, ToShort;
    match h
    case Command =>
      if b[0] == TPTWORK {
        SvrServiceLog(fx, s, c, env);
      } else {
        match CommandHandler(b[0])
        case Some(g) =>
          var conn := Receiving(g, Scratch([b[0]] + ZeroBytes(CommandLength(g) - 1)), 0);
          CalmTouch(s, c, s.clients[c].(conn := conn), {});
          assert RunHandler(fx, s, c, h, b, env) == Ok(PutClient(s, c, s.clients[c].(conn := conn)));
          MinorLog(s, RunHandler(fx, s, c, h, b, env).board);
        case None =>
          DelClientLog(fx, s, c, env.order);
      }
    case Acall => SvrAcallLog(fx, s, c, CutName(b), ToLong(b, NAME_LENGTH), ToLong(b, NAME_LENGTH + IOLONG), env);
    case GetReply => SvrGetReplyLog(s, c, AsShort(ToShort(b, 0)), ToLong(b, IOSHORT));
    case Advertise => SvrAdvertiseLog(s, c, CutName(b), ToLong(b, NAME_LENGTH));
    case Unadvertise => SvrUnadvertiseLog(s, c, CutName(b));
    case Return => SvrReturnLog(s, c, b[0], ToLong(b, 1), ToLong(b, 1 + IOLONG));
  }

  lemma UnarmLog(s: Board, c: Id)
    requires LogInv(s) && c in s.clients
    ensures LogInv(Unarm(s, c))
  {
    hide LogInv, Calm;
    CalmTouch(s, c, s.clients[c].(conn := Running), {});
    MinorLog(s, Unarm(s, c));
  }

  lemma ReadScratchLog(fx: Fixes, s: Board, c: Id, chunk: seq<byte>, env: Env)
    requires Inv(s) && LogInv(s) && Possible(s, Read(c, chunk, env)) && Allowed(fx, s, Read(c, chunk, env))
    requires s.clients[c].conn.Receiving? && s.clients[c].conn.input.Scratch?
    ensures ReadScratch(fx, s, c, chunk, env).Ok? && LogInv(ReadScratch(fx, s, c, chunk, env).board)
  {
    hide InvX, LogInv, Calm, Walks, GoodBatches, HandlerOk, RunHandler;
    var Receiving(h, input, used) := s.clients[c].conn;
    var b := Splice(input.bytes, used, chunk);
    if used + |chunk| < |b| {
      CalmTouch(s, c, s.clients[c].(conn := Receiving(h, Scratch(b), used + |chunk|)), {});
      MinorLog(s, ReadScratch(fx, s, c, chunk, env).board);
    } else {
      UnarmScratch(s, c);
      UnarmLog(s, c);
      UnarmJudges(fx, s, c, h, b, env);
      RunHandlerLog(fx, Unarm(s, c), c, h, b, env);
    }
  }

  lemma ArrivingFacts(s: Board, t: Id)
    requires LogInv(s) && Arriving(s, t)
    ensures Sound(s.log) && AcceptEntry(s.calls[t], t) in s.log
    ensures !WasSubmitted(s.log, t) && !WasHanded(s.log, t) && !WasEnded(s.log, t) && !WasReplied(s.log, t)
  {
    hide Sound;
    assert CallLogged(s, t);
  }

  /** Part of a body has been read. */
  lemma PartialDataLog(s: Board, r: Board, c: Id, t: Id)
    requires Inv(s) && LogInv(s) && Inv(r) && Calm(s, r, {t}) && r.log == s.log && r.next == s.next && t in s.calls && t in r.calls
    requires r.calls[t] == s.calls[t].(data := r.calls[t].data)
    requires (Arriving(s, t) && Arriving(r, t)) || s.calls[t].executor.Some?
    ensures LogInv(r)
  {
    hide Inv, LogInv, Calm, Sound, WasSubmitted, WasHanded, WasReplied, WasEnded, WasHandedTo;
    assert t < s.next by { InvTightSerials(s); }
    AddsNothing(s, r, t);
    if Arriving(s, t) && Arriving(r, t) {
      ArrivingFacts(s, t);
      ArrivingLogged(r, t);
    } else {
      ExecutingFacts(s, t);
      ExecutingLogged(r, t);
    }
    LogInvAfter(s, r, t);
  }

  lemma InvTightSerials(s: Board)
    requires Inv(s)
    ensures Serials(s)
  {
    hide InvX;
    InvIndexed(s, TIGHT);
  }

  lemma UnarmSayCalm(s: Board, s1: Board, c: Id, t: Id, e: Entry)
    requires c in s1.clients && Calm(s, s1, {t}) && s1.log == s.log && AboutCall(e) && e.call == t
    ensures Calm(s, Say(Unarm(s1, c), e), {t}) && Adds(s, Say(Unarm(s1, c), e), t)
  {
    hide Calm;
    CalmTouch(s1, c, s1.clients[c].(conn := Running), {});
    CalmSay(Unarm(s1, c), e);
    CalmTransitive(s1, Unarm(s1, c), Say(Unarm(s1, c), e), {});
    CalmWeaken(s1, Say(Unarm(s1, c), e), {}, {t});
    CalmTransitive(s, s1, Say(Unarm(s1, c), e), {t});
  }

  lemma BodyReadLog(fx: Fixes, s: Board, c: Id, t: Id, b: seq<byte>)
    requires Inv(s) && LogInv(s) && c in s.clients && ReadsBody(s.clients[c].conn, t)
    requires t in s.calls && |b| == |s.calls[t].data| && s.calls[t].svc in s.services
    ensures var s1 := PutCall(s, t, s.calls[t].(data := b));
      && SendToWorker(fx, Say(Unarm(s1, c), Submitted(c, t, b)), c).Ok?
      && LogInv(SendToWorker(fx, Say(Unarm(s1, c), Submitted(c, t, b)), c).board)
  {
    hide InvX, Inv, LogInv, Calm, SendToWorker, OnNoQueue, Sound, WasSubmitted, WasHanded, WasReplied, WasEnded, WasHandedTo;
    InvTightSerials(s);
    ArrivingOnNoQueue(s, c, t);
    ArrivingFacts(s, t);
    RewriteDataKeeps(s, t, b);
    var s1 := PutCall(s, t, s.calls[t].(data := b));
    CalmPutCall(s, t, s1.calls[t]);
    UnarmBody(s1, c, t);
    var s2 := Say(Unarm(s1, c), Submitted(c, t, b));
    UnarmSayCalm(s, s1, c, t, Submitted(c, t, b));
    SayInHandler(Unarm(s1, c), c, {t}, Submitted(c, t, b));
    SayOnNoQueue(Unarm(s1, c), Submitted(c, t, b), t);
    SubmitMayHand(Unarm(s1, c), t, b);
    assert SendsOn(s2, c, t);
    SendToWorkerLog(fx, s, s2, c, t);
  }

  lemma ReplyReadLog(s: Board, c: Id, t: Id, b: seq<byte>)
    requires Inv(s) && LogInv(s) && c in s.clients && s.clients[c].conn.Receiving?
    requires s.clients[c].conn.handler == ReturnBody && s.clients[c].conn.input == DataOf(t)
    requires t in s.calls && |b| == |s.calls[t].data|
    ensures var s1 := PutCall(s, t, s.calls[t].(data := b));
      var s2 := Say(Unarm(s1, c), Returned(c, t, s.calls[t].rval, s.calls[t].rcode, b));
      Part2(s2, c).Ok? && LogInv(Part2(s2, c).board)
  {
    hide InvX, LogInv, Calm, Part2, Sound, WasSubmitted, WasHanded, WasReplied, WasEnded, WasHandedTo;
    InvTightSerials(s);
    InvFits(s, c);
    InvWaiter(s, c, TIGHT);
    ExecutingFacts(s, t);
    RewriteDataKeeps(s, t, b);
    var s1 := PutCall(s, t, s.calls[t].(data := b));
    CalmPutCall(s, t, s1.calls[t]);
    UnarmReturn(s1, c);
    var e := Returned(c, t, s.calls[t].rval, s.calls[t].rcode, b);
    UnarmSayCalm(s, s1, c, t, e);
    SayInHandler(Unarm(s1, c), c, {}, e);
    ReturnMayReply(Unarm(s1, c), c, t);
    Part2Log(s, Say(Unarm(s1, c), e), c);
  }

  lemma ReadDataLog(fx: Fixes, s: Board, c: Id, chunk: seq<byte>, env: Env)
    requires Inv(s) && LogInv(s) && Possible(s, Read(c, chunk, env)) && Allowed(fx, s, Read(c, chunk, env))
    requires s.clients[c].conn.Receiving? && s.clients[c].conn.input.DataOf?
    ensures ReadData(fx, s, c, chunk).Ok? && LogInv(ReadData(fx, s, c, chunk).board)
  {
    hide InvX, Inv, LogInv, Calm, Walks, GoodBatches, SendToWorker, Part2;
    ReadDataKeeps(fx, s, c, chunk, env);
    var Receiving(h, input, used) := s.clients[c].conn;
    var t := input.call;
    InvFits(s, c);
    var b := Splice(s.calls[t].data, used, chunk);
    var s1 := PutCall(s, t, s.calls[t].(data := b));
    if used + |chunk| < |b| {
      var r := ReadData(fx, s, c, chunk).board;
      CalmPutCall(s, t, s1.calls[t]);
      CalmTouch(s1, c, s1.clients[c].(conn := Receiving(h, input, used + |chunk|)), {});
      CalmWeaken(s1, r, {}, {t});
      CalmTransitive(s, s1, r, {t});
      if h.CallBody? {
        ArrivingOnNoQueue(s, c, t);
      } else {
        BodyExecutes(s, c, t);
      }
      PartialDataLog(s, r, c, t);
    } else if h.CallBody? {
      BodyReadLog(fx, s, c, t, b);
    } else {
      ReplyReadLog(s, c, t, b);
    }
  }

  lemma BodyExecutes(s: Board, c: Id, t: Id)
    requires Inv(s) && c in s.clients && s.clients[c].conn.Receiving? && s.clients[c].conn.handler != CallBody
    requires s.clients[c].conn.input == DataOf(t) && t in s.calls
    ensures s.calls[t].executor == Some(c)
  {
    hide InvX;
    InvFits(s, c);
    InvWaiter(s, c, TIGHT);
  }

  /** An allowed event keeps the log invariant. */
  lemma StepLog(fx: Fixes, s: Board, e: Event)
    requires Inv(s) && LogInv(s) && Possible(s, e) && Allowed(fx, s, e)
    ensures Step(fx, s, e).Ok? && LogInv(Step(fx, s, e).board)
  {
    hide Inv, LogInv, DelClient, Walks, GoodBatches, ReadScratch, ReadData, Connect, DataReadOk, HandlerOk;
    match e
    case Arrive => ConnectLog(s);
    case Leave(c, order) => LeaveLog(fx, s, c, order);
    case Read(c, chunk, env) =>
      if !s.clients[c].conn.Receiving? {
        LeaveLog(fx, s, c, env.order);
      } else if s.clients[c].conn.input.Scratch? {
        ReadScratchLog(fx, s, c, chunk, env);
      } else {
        ReadDataLog(fx, s, c, chunk, env);
      }
  }

  lemma LeaveLog(fx: Fixes, s: Board, c: Id, order: seq<Id>)
    requires Inv(s) && LogInv(s) && c in s.clients && Walks(order, s.clients[c].adverts.Keys) && LeaveOk(fx, s, c)
    ensures DelClient(fx, s, c, order).Ok? && LogInv(DelClient(fx, s, c, order).board)
  {
    hide InvX, LogInv, DelClient, Walks;
    SettledQuiet(s, c);
    DelClientLog(fx, s, c, order);
  }
}
