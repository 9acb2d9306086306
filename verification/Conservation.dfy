/** No call is lost: how an accepted call can leave the switchboard, over whole runs. */
module Conservation {
  import opened Sequences
  import opened Wire
  import opened Descriptors
  import opened Board
  import opened Invariant
  import opened Answer
  import opened Handlers
  import opened Steps
  import opened History
  import opened Calmness
  import opened HistorySteps
  import opened Turning
  import opened Runs
  import opened Stream
  import opened Traces
  import opened Messages

  // ---------- what an operation takes away ----------

  ghost predicate ServicesShrink(s: Board, r: Board) {
    && r.services.Keys <= s.services.Keys
    && forall v, t :: v in r.services && CallNode(t) in r.services[v].waitq ==> CallNode(t) in s.services[v].waitq
  }

  ghost predicate CallsShrink(s: Board, r: Board) {
    r.calls.Keys <= s.calls.Keys && forall t :: t in r.calls ==> r.calls[t].client == s.calls[t].client
  }

  /** `c` executes a call of its own. */
  predicate Serves(s: Board, c: Id, t: Id) {
    c in s.clients && s.clients[c].wait4 == For(t) && t in s.calls && s.calls[t].client == c
  }

  ghost predicate ListsShrink(s: Board, r: Board, c: Id) {
    c in r.clients ==>
      && c in s.clients && (r.clients[c].wait4 == s.clients[c].wait4 || r.clients[c].wait4 == Nothing)
      && (forall t :: t in r.clients[c].requests ==> t in s.clients[c].requests)
      && (forall t :: t in r.clients[c].replies ==> t in s.clients[c].replies || Serves(s, c, t))
  }

  ghost predicate OthersOffer(s: Board, r: Board, c: Id) {
    forall d :: d in s.clients && d != c ==> d in r.clients && r.clients[d].adverts == s.clients[d].adverts
  }

  ghost predicate LogGrows(s: Board, r: Board) {
    |s.log| <= |r.log| && forall i :: 0 <= i < |s.log| ==> r.log[i] == s.log[i]
  }

  ghost predicate Shrinks(s: Board, r: Board, c: Id) {
    LogGrows(s, r) && CallsShrink(s, r) && ServicesShrink(s, r) && ListsShrink(s, r, c) && OthersOffer(s, r, c)
  }

  /** A reply to `t` has been written, because `c` collected it or was done with it. */
  ghost predicate Answered(s: Board, r: Board, c: Id, t: Id) {
    && c in s.clients && (t in s.clients[c].replies || s.clients[c].wait4 == For(t))
    && exists i :: |s.log| <= i < |r.log| && r.log[i].Replied? && r.log[i].call == t
  }

  /** `t` waited at a service that is gone. */
  ghost predicate Closed(s: Board, r: Board, t: Id) {
    exists v :: v in s.services && CallNode(t) in s.services[v].waitq && v !in r.services
  }

  /** An operation for `c` adds nothing; the calls it takes away are in `x`, answered, or were queued at services it closes. */
  ghost predicate Sheds(s: Board, r: Board, c: Id, x: set<Id>) {
    Shrinks(s, r, c) && forall t :: t in s.calls && t !in r.calls ==> t in x || Answered(s, r, c, t) || Closed(s, r, t)
  }

  ghost predicate ShedsAfter(s: Board, o: Outcome, c: Id, x: set<Id>) {
    o.Ok? ==> Sheds(s, o.board, c, x)
  }

  lemma ShrinksTransitive(a: Board, b: Board, r: Board, c: Id)
    requires Shrinks(a, b, c) && Shrinks(b, r, c)
    ensures Shrinks(a, r, c)
  {
    assert ListsShrink(a, r, c);
    assert ServicesShrink(a, r);
  }

  lemma AnsweredEarly(a: Board, b: Board, r: Board, c: Id, t: Id)
    requires LogGrows(b, r) && Answered(a, b, c, t)
    ensures Answered(a, r, c, t)
  {
    var i :| |a.log| <= i < |b.log| && b.log[i].Replied? && b.log[i].call == t;
    assert r.log[i] == b.log[i];
  }

  lemma AnsweredLate(a: Board, b: Board, r: Board, c: Id, t: Id)
    requires LogGrows(a, b) && ListsShrink(a, b, c) && Answered(b, r, c, t)
    ensures Answered(a, r, c, t)
  {
  }

  lemma ShedsTransitive(a: Board, b: Board, r: Board, c: Id, x: set<Id>)
    requires Sheds(a, b, c, x) && Sheds(b, r, c, x)
    ensures Sheds(a, r, c, x)
  {
    hide LogGrows, ListsShrink, OthersOffer, Answered;
    ShrinksTransitive(a, b, r, c);
    forall t | t in a.calls && t !in r.calls ensures t in x || Answered(a, r, c, t) || Closed(a, r, t) {
      if t in b.calls {
        if Answered(b, r, c, t) { AnsweredLate(a, b, r, c, t); }
      } else {
        if Answered(a, b, c, t) { AnsweredEarly(a, b, r, c, t); }
      }
    }
  }

  lemma ShedsThen(a: Board, b: Board, o: Outcome, c: Id, x: set<Id>)
    requires Sheds(a, b, c, x) && ShedsAfter(b, o, c, x)
    ensures ShedsAfter(a, o, c, x)
  {
    hide Sheds;
    if o.Ok? { ShedsTransitive(a, b, o.board, c, x); }
  }

  lemma ShedsMore(s: Board, r: Board, c: Id, x: set<Id>, y: set<Id>)
    requires Sheds(s, r, c, x) && x <= y
    ensures Sheds(s, r, c, y)
  {
    hide Shrinks, Answered, Closed;
  }

  /** What is accounted for otherwise need not be listed. */
  lemma ShedsLess(s: Board, r: Board, c: Id, x: set<Id>)
    requires Sheds(s, r, c, x) && forall t :: t in x ==> t in r.calls || Answered(s, r, c, t) || Closed(s, r, t)
    ensures Sheds(s, r, c, {})
  {
    hide Shrinks, Answered, Closed;
  }

  // ---------- small updates ----------

  /** The board is the same but for connections, the data of calls and entries of the log. */
  ghost predicate Alike(s: Board, r: Board) {
    && LogGrows(s, r) && r.services == s.services && r.calls.Keys == s.calls.Keys && r.clients.Keys == s.clients.Keys
    && (forall t :: t in s.calls ==> r.calls[t].client == s.calls[t].client)
    && (forall d :: d in s.clients ==> r.clients[d] == s.clients[d].(conn := r.clients[d].conn, wait4 := r.clients[d].wait4)
                                       && (r.clients[d].wait4 == s.clients[d].wait4 || r.clients[d].wait4 == Nothing))
  }

  lemma AlikeSheds(s: Board, r: Board, c: Id)
    requires Alike(s, r)
    ensures Sheds(s, r, c, {})
  {
  }

  lemma DelCallSheds(s: Board, t: Id, c: Id, x: set<Id>)
    requires t in s.calls && t in x
    ensures Sheds(s, DelCall(s, t), c, x)
  {
    hide Without;
    var r := DelCall(s, t);
    assert ListsShrink(s, r, c);
    assert OthersOffer(s, r, c);
  }

  // ---------- services ----------

  lemma {:induction false} DrainSheds(s: Board, v: Id, c: Id, x: set<Id>)
    requires v in s.services ==> forall t :: CallNode(t) in s.services[v].waitq ==> t in x
    ensures ShedsAfter(s, Drain(s, v), c, x)
    ensures Drain(s, v).Ok? ==> v in s.services && v in Drain(s, v).board.services
    decreases if v in s.services then |s.services[v].waitq| else 0
  {
    hide Sheds, DelCall, Without;
    if Drain(s, v).Ok? {
      if s.services[v].waitq == [] {
        AlikeSheds(s, s, c);
        ShedsMore(s, s, c, {}, x);
      } else {
        var t := s.services[v].waitq[0].call;
        assert CallNode(t) in s.services[v].waitq;
        DelCallSheds(s, t, c, x);
        var s1 := DelCall(s, t);
        QueueShrinks(s, t, v);
        DrainSheds(s1, v, c, x);
        ShedsThen(s, s1, Drain(s1, v), c, x);
      }
    }
  }

  ghost function CallsAt(s: Board, v: Id): set<Id> {
    if v in s.services then set n | n in s.services[v].waitq && n.CallNode? :: n.call else {}
  }

  lemma AllAt(s: Board, v: Id)
    requires v in s.services
    ensures forall t :: t in CallsAt(s, v) <==> CallNode(t) in s.services[v].waitq
  {
    forall t | CallNode(t) in s.services[v].waitq ensures t in CallsAt(s, v) { assert CallNode(t).call in CallsAt(s, v); }
  }

  lemma DelServiceSheds(s: Board, v: Id, c: Id)
    ensures ShedsAfter(s, DelService(s, v), c, {})
  {
    hide Sheds, Drain;
    if DelService(s, v).Ok? {
      var x := CallsAt(s, v);
      if v in s.services { AllAt(s, v); }
      DrainSheds(s, v, c, x);
      RemoveSheds(s, Drain(s, v).board, v, c, x);
    }
  }

  lemma RemoveSheds(s: Board, m: Board, v: Id, c: Id, x: set<Id>)
    requires Sheds(s, m, c, x) && v in s.services && v in m.services
    requires forall t :: t in x ==> CallNode(t) in s.services[v].waitq
    ensures Sheds(s, m.(services := m.services - {v}, index := m.index - {m.services[v].name}), c, {})
  {
    hide LogGrows, ListsShrink, OthersOffer, Answered;
    var r := m.(services := m.services - {v}, index := m.index - {m.services[v].name});
    SameElsewhere(s, m, r, c);
    forall t | t in s.calls && t !in r.calls ensures Answered(s, r, c, t) || Closed(s, r, t) {
      if t in x {
        assert CallNode(t) in s.services[v].waitq;
      } else if Answered(s, m, c, t) {
        AnsweredAlike(s, m, r, c, t);
      }
    }
  }

  lemma SameElsewhere(s: Board, m: Board, r: Board, c: Id)
    requires r.clients == m.clients && r.calls == m.calls && r.log == m.log
    ensures LogGrows(s, m) ==> LogGrows(s, r)
    ensures ListsShrink(s, m, c) ==> ListsShrink(s, r, c)
    ensures OthersOffer(s, m, c) ==> OthersOffer(s, r, c)
  {
  }

  lemma AnsweredAlike(s: Board, m: Board, r: Board, c: Id, t: Id)
    requires r.log == m.log && Answered(s, m, c, t)
    ensures Answered(s, r, c, t)
  {
  }

  lemma DropAdvertSheds(s: Board, c: Id, v: Id)
    requires c in s.clients
    ensures Sheds(s, DropAdvert(s, c, v), c, {})
  {
    hide Without;
  }

  lemma DelAdvertSheds(s: Board, c: Id, v: Id)
    ensures ShedsAfter(s, DelAdvert(s, c, v), c, {})
  {
    hide Sheds, DelService, DropAdvert;
    if DelAdvert(s, c, v).Ok? {
      DropAdvertSheds(s, c, v);
      var s1 := DropAdvert(s, c, v);
      DelServiceSheds(s1, v, c);
      ShedsThen(s, s1, DelService(s1, v), c, {});
    }
  }

  lemma {:induction false} DelAdvertsSheds(s: Board, c: Id, order: seq<Id>)
    ensures ShedsAfter(s, DelAdverts(s, c, order), c, {})
    decreases |order|
  {
    hide Sheds, DelAdvert;
    if DelAdverts(s, c, order).Ok? {
      if order == [] {
        AlikeSheds(s, s, c);
      } else {
        DelAdvertSheds(s, c, order[0]);
        var s1 := DelAdvert(s, c, order[0]).board;
        DelAdvertsSheds(s1, c, order[1..]);
        ShedsThen(s, s1, DelAdverts(s1, c, order[1..]), c, {});
      }
    }
  }

  // ---------- replies ----------

  lemma SndReplySheds(s: Board, t: Id, c: Id)
    ensures ShedsAfter(s, SndReply(s, t), c, {t})
    ensures SndReply(s, t).Ok? ==> t in s.calls && SndReply(s, t).board.log == s.log + [ReplyEntry(s, t)]
  {
    hide Sheds, DelCall, LogGrows;
    if SndReply(s, t).Ok? {
      var k := s.calls[t];
      var s1 := NextCommand(Say(s, ReplyEntry(s, t)), k.client).board;
      var s2 := PutClient(s1, k.client, s1.clients[k.client].(wait4 := Nothing));
      assert LogGrows(s, s2) by { Appended(s, s2, ReplyEntry(s, t)); }
      assert Alike(s, s2);
      AlikeSheds(s, s2, c);
      ShedsMore(s, s2, c, {}, {t});
      DelCallSheds(s2, t, c, {t});
      ShedsTransitive(s, s2, DelCall(s2, t), c, {t});
      SameLog(s2, t);
    }
  }

  lemma Appended(s: Board, r: Board, e: Entry)
    requires r.log == s.log + [e]
    ensures LogGrows(s, r)
  {
  }

  lemma SameLog(s: Board, t: Id)
    requires t in s.calls
    ensures DelCall(s, t).log == s.log
  {
  }

  /** A reply that is sent answers the call. */
  lemma AnswersIt(s: Board, m: Board, r: Board, c: Id, t: Id)
    requires t in m.calls && r.log == m.log + [ReplyEntry(m, t)] && LogGrows(s, m)
    requires c in s.clients && (t in s.clients[c].replies || s.clients[c].wait4 == For(t))
    ensures Answered(s, r, c, t)
  {
    assert r.log[|m.log|] == ReplyEntry(m, t);
  }

  lemma FinishSheds(s: Board, c: Id, t: Id, seesAny: bool)
    requires c in s.clients && s.clients[c].wait4 == For(t)
    ensures ShedsAfter(s, Finish(s, c, t, seesAny), c, {})
  {
    hide Sheds, SndReply, KeepReply, LogGrows;
    if Finish(s, c, t, seesAny).Ok? {
      var s1 := PutCall(PutClient(s, c, s.clients[c].(wait4 := Nothing)), t, s.calls[t].(executor := None));
      assert LogGrows(s, s1) by { Unlogged(s, s1); }
      assert Alike(s, s1);
      AlikeSheds(s, s1, c);
      var to := s.calls[t].client;
      if s1.clients[to].wait4 == For(t) || (seesAny && s1.clients[to].wait4 == AnyReply) {
        SndReplySheds(s1, t, c);
        var r := SndReply(s1, t).board;
        ShedsMore(s, s1, c, {}, {t});
        ShedsTransitive(s, s1, r, c, {t});
        AnswersIt(s, s1, r, c, t);
        ShedsLess(s, r, c, {t});
      } else {
        KeepReplySheds(s, s1, c, t);
      }
    }
  }

  lemma Unlogged(s: Board, r: Board)
    requires r.log == s.log
    ensures LogGrows(s, r)
  {
  }

  lemma KeepReplySheds(s: Board, s1: Board, c: Id, t: Id)
    requires c in s.clients && s.clients[c].wait4 == For(t) && t in s.calls && s.calls[t].client in s.clients
    requires s1 == PutCall(PutClient(s, c, s.clients[c].(wait4 := Nothing)), t, s.calls[t].(executor := None))
    ensures Sheds(s, KeepReply(s1, t), c, {})
  {
    hide Without;
    var r := KeepReply(s1, t);
    assert ListsShrink(s, r, c);
    assert OthersOffer(s, r, c);
  }

  lemma Part2Sheds(s: Board, c: Id)
    ensures ShedsAfter(s, Part2(s, c), c, {})
  {
    hide Sheds, Finish, LogGrows;
    if Part2(s, c).Ok? {
      var s1 := NextCommand(s, c).board;
      assert LogGrows(s, s1) by { Unlogged(s, s1); }
      assert Alike(s, s1);
      AlikeSheds(s, s1, c);
      var t := s1.clients[c].wait4.call;
      FinishSheds(s1, c, t, true);
      ShedsThen(s, s1, Finish(s1, c, t, true), c, {});
    }
  }

  // ---------- departures ----------

  /** The calls on the lists of `c`, and the one it executes itself if it is its own. */
  ghost function HeldBy(s: Board, c: Id): set<Id> {
    if c in s.clients then
      (set t | t in s.clients[c].requests) + (set t | t in s.clients[c].replies) + (set t | t in s.calls && Serves(s, c, t))
    else {}
  }

  lemma HeldLess(s: Board, r: Board, c: Id)
    requires Shrinks(s, r, c) && c in r.clients
    ensures HeldBy(r, c) <= HeldBy(s, c)
  {
    hide LogGrows, ServicesShrink, OthersOffer;
  }

  lemma {:induction false} DelRequestsSheds(s: Board, c: Id, x: set<Id>)
    requires HeldBy(s, c) <= x
    ensures ShedsAfter(s, DelRequests(s, c), c, x)
    ensures DelRequests(s, c).Ok? ==> c in DelRequests(s, c).board.clients && HeldBy(DelRequests(s, c).board, c) <= x
    decreases if c in s.clients then |s.clients[c].requests| else 0
  {
    hide Sheds, DelCall, Shrinks, HeldBy;
    if DelRequests(s, c).Ok? {
      if s.clients[c].requests == [] {
        AlikeSheds(s, s, c);
        ShedsMore(s, s, c, {}, x);
      } else {
        var t := s.clients[c].requests[0];
        IsHeld(s, c, t);
        var s1 := DelCall(s, t);
        DelHeldSheds(s, c, t, x);
        DelRequestsSheds(s1, c, x);
        ShedsThen(s, s1, DelRequests(s1, c), c, x);
      }
    }
  }

  lemma {:induction false} DelRepliesSheds(s: Board, c: Id, x: set<Id>)
    requires HeldBy(s, c) <= x
    ensures ShedsAfter(s, DelReplies(s, c), c, x)
    decreases if c in s.clients then |s.clients[c].replies| else 0
  {
    hide Sheds, DelCall, Shrinks, HeldBy;
    if DelReplies(s, c).Ok? {
      if s.clients[c].replies == [] {
        AlikeSheds(s, s, c);
        ShedsMore(s, s, c, {}, x);
      } else {
        var t := s.clients[c].replies[0];
        IsHeld(s, c, t);
        var s1 := DelCall(s, t);
        DelHeldSheds(s, c, t, x);
        DelRepliesSheds(s1, c, x);
        ShedsThen(s, s1, DelReplies(s1, c), c, x);
      }
    }
  }

  lemma IsHeld(s: Board, c: Id, t: Id)
    requires c in s.clients && (t in s.clients[c].requests || t in s.clients[c].replies)
    ensures t in HeldBy(s, c)
  {
  }

  lemma DelHeldSheds(s: Board, c: Id, t: Id, x: set<Id>)
    requires t in s.calls && t in x && c in s.clients && HeldBy(s, c) <= x
    ensures Sheds(s, DelCall(s, t), c, x) && c in DelCall(s, t).clients && HeldBy(DelCall(s, t), c) <= x
    ensures t in s.clients[c].requests ==> |DelCall(s, t).clients[c].requests| < |s.clients[c].requests|
    ensures t in s.clients[c].replies ==> |DelCall(s, t).clients[c].replies| < |s.clients[c].replies|
  {
    hide Shrinks, Without, HeldBy;
    DelCallSheds(s, t, c, x);
    HeldLess(s, DelCall(s, t), c);
  }

  lemma AbandonWorkSheds(fx: Fixes, s: Board, c: Id)
    requires c in s.clients
    ensures ShedsAfter(s, AbandonWork(fx, s, c), c, {})
  {
    hide Sheds, Finish, LogGrows;
    if AbandonWork(fx, s, c).Ok? {
      if s.clients[c].wait4.For? && s.calls[s.clients[c].wait4.call].executor == Some(c) {
        var t := s.clients[c].wait4.call;
        var s1 := Failed(s, c, t);
        assert LogGrows(s, s1) by { Appended(s, s1, Abandoned(c, t)); }
        assert Alike(s, s1);
        AlikeSheds(s, s1, c);
        FinishSheds(s1, c, t, fx.wakeAny);
        ShedsThen(s, s1, Finish(s1, c, t, fx.wakeAny), c, {});
      } else {
        AlikeSheds(s, s, c);
      }
    }
  }

  lemma DelClientSheds(fx: Fixes, s: Board, c: Id, order: seq<Id>)
    ensures ShedsAfter(s, DelClient(fx, s, c, order), c, HeldBy(s, c))
  {
    hide Sheds, AbandonWork, DelAdverts, DelRequests, DelReplies, HeldBy;
    if DelClient(fx, s, c, order).Ok? {
      var x := HeldBy(s, c);
      var s1 := AbandonWork(fx, s, c).board;
      AbandonWorkSheds(fx, s, c);
      var s2 := DelAdverts(s1, c, order).board;
      DelAdvertsSheds(s1, c, order);
      ShedsTransitive(s, s1, s2, c, {});
      ShedsMore(s, s2, c, {}, x);
      ShedsHeld(s, s2, c, x);
      DelRequestsSheds(s2, c, x);
      var s3 := DelRequests(s2, c).board;
      ShedsTransitive(s, s2, s3, c, x);
      DelRepliesSheds(s3, c, x);
      var s4 := DelReplies(s3, c).board;
      ShedsTransitive(s, s3, s4, c, x);
      RemoveClientSheds(s, s4, c, x);
    }
  }

  lemma ShedsHeld(s: Board, r: Board, c: Id, x: set<Id>)
    requires Sheds(s, r, c, x)
    ensures HeldBy(r, c) <= HeldBy(s, c)
  {
    hide Shrinks;
    if c in r.clients { HeldLess(s, r, c); }
  }

  lemma RemoveClientSheds(s: Board, m: Board, c: Id, x: set<Id>)
    requires Sheds(s, m, c, x)
    ensures Sheds(s, m.(clients := m.clients - {c}), c, x)
  {
    hide Answered;
    var r := m.(clients := m.clients - {c});
    assert Shrinks(s, r, c);
    forall t | t in s.calls && t !in r.calls && Answered(s, m, c, t) ensures Answered(s, r, c, t) { AnsweredAlike(s, m, r, c, t); }
  }

  // ---------- every event ----------

  /** The calls that may go with `c`. */
  ghost function Along(s: Board, r: Board, c: Id): set<Id> {
    if c in r.clients then {} else HeldBy(s, c)
  }

  /** No call goes, or an operation for `c` sheds some. */
  ghost predicate Loses(s: Board, r: Board, c: Id) {
    s.calls.Keys <= r.calls.Keys || Sheds(s, r, c, Along(s, r, c))
  }

  lemma ShedsLoses(s: Board, o: Outcome, c: Id)
    requires ShedsAfter(s, o, c, {})
    ensures o.Ok? ==> Loses(s, o.board, c)
  {
    hide Sheds, HeldBy;
    if o.Ok? { ShedsMore(s, o.board, c, {}, Along(s, o.board, c)); }
  }

  lemma DepartureLoses(fx: Fixes, s: Board, c: Id, order: seq<Id>)
    requires DelClient(fx, s, c, order).Ok?
    ensures Loses(s, DelClient(fx, s, c, order).board, c)
  {
    hide Sheds, AbandonWork, DelAdverts, DelRequests, DelReplies, HeldBy;
    DelClientSheds(fx, s, c, order);
  }

  lemma SendToServerAdds(fx: Fixes, s: Board, w: Id, t: Id)
    requires SendToServer(fx, s, w, t).Ok?
    ensures s.calls.Keys <= SendToServer(fx, s, w, t).board.calls.Keys
  {
    hide Without;
  }

  lemma SvrServiceAdds(fx: Fixes, s: Board, c: Id, env: Env)
    requires SvrService(fx, s, c, env).Ok?
    ensures s.calls.Keys <= SvrService(fx, s, c, env).board.calls.Keys
  {
    hide SendToServer, FindEarliest, CastsHold;
    match FindEarliest(fx, s, env.order, None)
    case Some(v) => SendToServerAdds(fx, s, c, FirstCall(s, v));
    case None =>
  }

  lemma SendToWorkerAdds(fx: Fixes, s: Board, c: Id)
    requires SendToWorker(fx, s, c).Ok?
    ensures s.calls.Keys <= SendToWorker(fx, s, c).board.calls.Keys
  {
    hide SendToServer;
    var s1 := NextCommand(s, c).board;
    var t := Last(s1.clients[c].requests);
    var svc := s1.services[s1.calls[t].svc];
    if svc.waitq != [] && !svc.holdsCalls { SendToServerAdds(fx, s1, svc.waitq[0].client, t); }
  }

  lemma SvrAcallAdds(fx: Fixes, s: Board, c: Id, name: Name, len: int, flags: int, env: Env)
    requires SvrAcall(fx, s, c, name, len, flags, env).Ok?
    ensures s.calls.Keys <= SvrAcall(fx, s, c, name, len, flags, env).board.calls.Keys
    ensures name in s.index && len >= 0 ==> s.next in SvrAcall(fx, s, c, name, len, flags, env).board.calls
  {
    hide SendToWorker, Take, LiveCds;
    if name in s.index && len == 0 {
      var s1 := NewCall(s, c, s.index[name], len, flags, env).board;
      SendToWorkerAdds(fx, Say(Say(s1, AcceptEntry(s1.calls[s.next], s.next)), Submitted(c, s.next, [])), c);
    }
  }

  lemma GetReplyLoses(s: Board, c: Id, cd: Short, flags: int)
    requires SvrGetReply(s, c, cd, flags).Ok?
    ensures Loses(s, SvrGetReply(s, c, cd, flags).board, c)
  {
    hide Sheds, SndReply, FlagSet, HeldBy, LogGrows;
    match ReplyReady(s.calls, s.clients[c].replies, cd, flags)
    case Some(t) =>
      assert t in s.clients[c].replies;
      SndReplySheds(s, t, c);
      var r := SndReply(s, t).board;
      Unlogged(s, s);
      AnswersIt(s, s, r, c, t);
      ShedsLess(s, r, c, {t});
      ShedsLoses(s, Ok(r), c);
    case None =>
  }

  lemma UnadvertiseLoses(s: Board, c: Id, name: Name)
    requires SvrUnadvertise(s, c, name).Ok?
    ensures Loses(s, SvrUnadvertise(s, c, name).board, c)
  {
    hide Sheds, DelAdvert, LogGrows;
    var r := SvrUnadvertise(s, c, name).board;
    if name in s.index && Advertises(s, c, s.index[name]) {
      DelAdvertSheds(s, c, s.index[name]);
      var s1 := DelAdvert(s, c, s.index[name]).board;
      assert LogGrows(s1, r) by { Appended(s1, r, Status(c, 0)); }
      assert Alike(s1, r);
      AlikeSheds(s1, r, c);
      ShedsTransitive(s, s1, r, c, {});
      ShedsLoses(s, Ok(r), c);
    }
  }

  lemma Part2Loses(s: Board, m: Board, e: Entry, c: Id)
    requires Alike(s, m) && Part2(Say(m, e), c).Ok?
    ensures Loses(s, Part2(Say(m, e), c).board, c)
  {
    hide Sheds, Part2, HeldBy;
    var m1 := Say(m, e);
    assert Alike(s, m1);
    AlikeSheds(s, m1, c);
    Part2Sheds(m1, c);
    ShedsThen(s, m1, Part2(m1, c), c, {});
    ShedsLoses(s, Part2(m1, c), c);
  }

  lemma ReturnLoses(s: Board, c: Id, rval: byte, rcode: int, len: int)
    requires SvrReturn(s, c, rval, rcode, len).Ok?
    ensures Loses(s, SvrReturn(s, c, rval, rcode, len).board, c)
  {
    hide Sheds, Part2, HeldBy;
    var t := s.clients[c].wait4.call;
    if len == 0 {
      var s1 := PutCall(s, t, s.calls[t].(rval := rval, rcode := rcode, data := Resize(s.calls[t].data, len)));
      Part2Loses(s, s1, Returned(c, t, rval, rcode, []), c);
    }
  }

  lemma HandlerLoses(fx: Fixes, s: Board, c: Id, h: Handler, b: seq<byte>, env: Env)
    requires !h.CallBody? && !h.ReturnBody? && |b| == CommandLength(h) && RunHandler(fx, s, c, h, b, env).Ok?
    ensures Loses(s, RunHandler(fx, s, c, h, b, env).board, c)
  {
    hide Sheds, HeldBy, SvrService, DelClient, SvrAcall, SvrGetReply, SvrUnadvertise, SvrReturn, CutName, ToLong, ToShort;
    match h
    case Command =>
      if b[0] == TPTWORK { SvrServiceAdds(fx, s, c, env); }
      else if CommandHandler(b[0]).None? { DepartureLoses(fx, s, c, env.order); }
    case Acall => SvrAcallAdds(fx, s, c, CutName(b), ToLong(b, NAME_LENGTH), ToLong(b, NAME_LENGTH + IOLONG), env);
    case GetReply => GetReplyLoses(s, c, AsShort(ToShort(b, 0)), ToLong(b, IOSHORT));
    case Advertise =>
    case Unadvertise => UnadvertiseLoses(s, c, CutName(b));
    case Return => ReturnLoses(s, c, b[0], ToLong(b, 1), ToLong(b, 1 + IOLONG));
  }

  lemma UnarmLoses(s: Board, r: Board, c: Id)
    requires c in s.clients && Loses(Unarm(s, c), r, c)
    ensures Loses(s, r, c)
  {
    hide Sheds, LogGrows;
    var s0 := Unarm(s, c);
    if !(s0.calls.Keys <= r.calls.Keys) {
      assert LogGrows(s, s0) by { Unlogged(s, s0); }
      assert Alike(s, s0);
      AlikeSheds(s, s0, c);
      assert HeldBy(s0, c) == HeldBy(s, c);
      ShedsMore(s, s0, c, {}, Along(s, r, c));
      ShedsTransitive(s, s0, r, c, Along(s, r, c));
    }
  }

  lemma ReadLoses(fx: Fixes, s: Board, c: Id, chunk: seq<byte>, env: Env)
    requires c in s.clients && s.clients[c].conn.Receiving? && s.clients[c].conn.input.Scratch? && ReadScratch(fx, s, c, chunk, env).Ok?
    ensures Loses(s, ReadScratch(fx, s, c, chunk, env).board, c)
  {
    hide Sheds, HeldBy, RunHandler;
    var Receiving(h, input, used) := s.clients[c].conn;
    if used + |chunk| == |input.bytes| {
      var b := Splice(input.bytes, used, chunk);
      HandlerLoses(fx, Unarm(s, c), c, h, b, env);
      UnarmLoses(s, RunHandler(fx, Unarm(s, c), c, h, b, env).board, c);
    }
  }

  lemma BodyLoses(fx: Fixes, s: Board, c: Id, chunk: seq<byte>)
    requires c in s.clients && s.clients[c].conn.Receiving? && s.clients[c].conn.input.DataOf? && ReadData(fx, s, c, chunk).Ok?
    ensures Loses(s, ReadData(fx, s, c, chunk).board, c)
  {
    hide Sheds, HeldBy, SendToWorker, Part2;
    var Receiving(h, input, used) := s.clients[c].conn;
    var t := input.call;
    if used + |chunk| == |s.calls[t].data| {
      var b := Splice(s.calls[t].data, used, chunk);
      var s1 := Unarm(PutCall(s, t, s.calls[t].(data := b)), c);
      if h.CallBody? {
        SendToWorkerAdds(fx, Say(s1, Submitted(c, t, b)), c);
      } else {
        Part2Loses(s, s1, Returned(c, t, s.calls[t].rval, s.calls[t].rcode, b), c);
      }
    }
  }

  lemma StepLoses(fx: Fixes, s: Board, e: Event)
    requires Step(fx, s, e).Ok?
    ensures Loses(s, Step(fx, s, e).board, Actor(s, e))
  {
    hide Sheds, HeldBy, DelClient, ReadScratch, ReadData;
    match e
    case Arrive =>
    case Leave(c, order) => DepartureLoses(fx, s, c, order);
    case Read(c, chunk, env) =>
      if !s.clients[c].conn.Receiving? {
        DepartureLoses(fx, s, c, env.order);
      } else if s.clients[c].conn.input.Scratch? {
        ReadLoses(fx, s, c, chunk, env);
      } else {
        BodyLoses(fx, s, c, chunk);
      }
  }

  // ---------- why a call is gone ----------

  /** The call is answered: its caller `c` collects the kept reply, or its worker `c` is done with it. */
  ghost predicate IsAnswered(s: Board, r: Board, c: Id, t: Id) {
    && t in s.calls && ((Done(s, t) && s.calls[t].client == c) || s.calls[t].executor == Some(c))
    && exists i :: |s.log| <= i < |r.log| && r.log[i].Replied? && r.log[i].call == t
  }

  /** Its caller `c` leaves. */
  predicate GoesWithCaller(s: Board, r: Board, c: Id, t: Id) {
    t in s.calls && s.calls[t].client == c && c in s.clients && c !in r.clients
  }

  /** It waits in the queue of its service, and `c`, the only advertiser of the service, gives it up. */
  ghost predicate GoesWithService(s: Board, r: Board, c: Id, t: Id) {
    && Queued(s, t) && s.calls[t].svc !in r.services
    && (forall d :: Advertises(s, d, s.calls[t].svc) <==> d == c) && !SomeoneAdvertises(r, s.calls[t].svc)
  }

  ghost predicate Ended(s: Board, e: Event, r: Board, t: Id) {
    var c := Actor(s, e);
    IsAnswered(s, r, c, t) || GoesWithCaller(s, r, c, t) || GoesWithService(s, r, c, t)
  }

  lemma HeldIsOwn(s: Board, c: Id, t: Id)
    requires Inv(s) && t in HeldBy(s, c)
    ensures t in s.calls && s.calls[t].client == c && c in s.clients
  {
    hide InvX;
    InvOwned(s, TIGHT);
  }

  /** What a client waits for is its own request, or what it executes. */
  lemma WaitedFor(s: Board, c: Id, t: Id)
    requires Inv(s) && c in s.clients && s.clients[c].wait4 == For(t)
    ensures t in s.calls && (s.calls[t].executor == Some(c) || (s.clients[c].conn.AwaitReply? && t in s.clients[c].requests))
  {
    hide Tables, Lists, Queues, Buffers, Phases, Cds;
    if s.clients[c].conn.AwaitReply? { InRequests(s, c, t); }
  }

  lemma InRequests(s: Board, c: Id, t: Id)
    requires Inv(s) && c in s.clients && s.clients[c].conn.AwaitReply? && s.clients[c].wait4 == For(t)
    ensures t in s.clients[c].requests && t in s.calls
  {
    hide InvX;
    InvWaiters(s, TIGHT);
    InvOwned(s, TIGHT);
  }

  lemma ClosedByActor(s: Board, r: Board, c: Id, t: Id)
    requires Inv(s) && Inv(r) && t in s.calls && OthersOffer(s, r, c) && Closed(s, r, t)
    ensures GoesWithService(s, r, c, t)
  {
    hide InvX;
    InvQueues(s, TIGHT);
    InvIndexed(r, TIGHT);
    InvOffered(s);
    var v :| v in s.services && CallNode(t) in s.services[v].waitq && v !in r.services;
    assert s.calls[t].svc == v;
    forall d | Advertises(s, d, v) ensures d == c {
      assert !Advertises(r, d, v);
    }
    assert exists d :: Advertises(s, d, v);
  }

  lemma InvOffered(s: Board)
    requires Inv(s)
    ensures Offered(s, {})
  {
    hide Lists, Queues, Workers, Waiters, Buffers, Phases, Cds;
  }

  /** Whatever event takes a call away, it is for one of the three reasons. */
  lemma StepEnds(fx: Fixes, s: Board, e: Event, r: Board, t: Id)
    requires Inv(s) && Inv(r) && Step(fx, s, e) == Ok(r) && t in s.calls && t !in r.calls
    ensures Ended(s, e, r, t)
  {
    hide Inv, Step, Shrinks, HeldBy, Closed, Answered, IsAnswered, GoesWithCaller, GoesWithService;
    StepLoses(fx, s, e);
    var c := Actor(s, e);
    if t in Along(s, r, c) {
      HeldIsOwn(s, c, t);
      assert GoesWithCaller(s, r, c, t) by { MeansCaller(s, r, c, t); }
    } else if Closed(s, r, t) {
      assert OthersOffer(s, r, c) by { ShrinksOffer(s, r, c); }
      ClosedByActor(s, r, c, t);
    } else {
      assert Answered(s, r, c, t);
      assert c in s.clients && !e.Arrive? by { ActorIsThere(s, e, r, t); }
      if c in r.clients { ActorStays(fx, s, e); }
      AnsweredIs(s, r, c, t);
    }
  }

  lemma ActorIsThere(s: Board, e: Event, r: Board, t: Id)
    requires Inv(s) && Answered(s, r, Actor(s, e), t)
    ensures Actor(s, e) in s.clients && !e.Arrive?
  {
    hide Inv;
    InvNextFree(s);
  }

  lemma MeansCaller(s: Board, r: Board, c: Id, t: Id)
    requires t in s.calls && s.calls[t].client == c && c in s.clients && t in Along(s, r, c)
    ensures GoesWithCaller(s, r, c, t)
  {
  }

  lemma ShrinksOffer(s: Board, r: Board, c: Id)
    requires Shrinks(s, r, c)
    ensures OthersOffer(s, r, c)
  {
    hide OthersOffer;
  }

  lemma AnsweredIs(s: Board, r: Board, c: Id, t: Id)
    requires Inv(s) && Answered(s, r, c, t) && t in s.calls
    requires t !in HeldBy(s, c) || s.clients[c].conn.Receiving?
    ensures IsAnswered(s, r, c, t)
  {
    hide Inv, HeldBy;
    if t in s.clients[c].replies {
      IsHeld(s, c, t);
      HeldIsOwn(s, c, t);
    } else {
      WaitedFor(s, c, t);
      if s.clients[c].conn.AwaitReply? && t in s.clients[c].requests { IsHeld(s, c, t); }
    }
  }

  /** Of the clients whose event it is, those that stay were armed. */
  lemma ActorStays(fx: Fixes, s: Board, e: Event)
    requires Step(fx, s, e).Ok? && Actor(s, e) in s.clients && Actor(s, e) in Step(fx, s, e).board.clients
    ensures s.clients[Actor(s, e)].conn.Receiving? || e.Arrive?
  {
    hide AbandonWork, DelAdverts, DelRequests, DelReplies, ReadScratch, ReadData;
  }

  // ---------- whole runs ----------

  /** A call that is gone does not come back. */
  lemma StaysGone(fx: Fixes, ss: seq<Board>, es: seq<Event>, n: nat, t: Id)
    requires Trace(fx, ss, es) && n < |es| && t < ss[n].next && t !in ss[n].calls
    ensures t !in ss[n + 1].calls
  {
    hide Inv, LogInv, Step, Possible, Allowed, Own, GoodStep, OthersOnward, NamesOnward;
    TraceStep(fx, ss, es, n);
  }

  /** From the moment `p` at which it is there, a call is there up to some moment, at which it ends if the run goes on. */
  lemma {:induction false} Lifetime(fx: Fixes, ss: seq<Board>, es: seq<Event>, p: nat, n: nat, t: Id) returns (m: nat)
    requires Trace(fx, ss, es) && p <= n <= |es| && t in ss[p].calls
    ensures p <= m <= n && forall i :: p <= i <= n ==> (t in ss[i].calls <==> i <= m)
    ensures m < n ==> Ended(ss[m], es[m], ss[m + 1], t)
    decreases n
  {
    hide Inv, LogInv, Step, Possible, Allowed, Own, GoodStep, Onward, Ended, Trace;
    TraceStarts(fx, ss, es);
    m := p;
    if p < n {
      m := Lifetime(fx, ss, es, p, n - 1, t);
      TraceStep(fx, ss, es, n - 1);
      if m < n - 1 {
        TraceGood(fx, ss, es, p);
        InvSerials(ss[p], t);
        TraceGrows(fx, ss, es, p, n - 1);
        StaysGone(fx, ss, es, n - 1, t);
      } else if t in ss[n].calls {
        m := n;
      } else {
        StepEnds(fx, ss[n - 1], es[n - 1], ss[n], t);
      }
    }
  }

  lemma InvSerials(s: Board, t: Id)
    requires Inv(s) && t in s.calls
    ensures t < s.next
  {
    hide InvX;
    InvIndexed(s, TIGHT);
  }

  /** An acknowledged call is there. */
  lemma AcceptedIsThere(fx: Fixes, s: Board, e: Event, r: Board, j: nat)
    requires Inv(s) && Possible(s, e) && Allowed(fx, s, e) && Step(fx, s, e) == Ok(r)
    requires |s.log| <= j < |r.log| && r.log[j].Accepted?
    ensures r.log[j].call == s.next && s.next in r.calls
  {
    hide Inv, Step, Possible, Allowed, FrameOf, SvrAcall, CutName, ToLong;
    WrittenFromFrame(fx, s, e, r, j);
    var f := FrameOf(s, e, e.c)[0];
    FrameIsHandled(fx, s, e.c, e.chunk, e.env);
    var b := f.payload;
    var name, len := CutName(b), ToLong(b, NAME_LENGTH);
    var flags := ToLong(b, NAME_LENGTH + IOLONG);
    SvrAcallAdds(fx, Unarm(s, e.c), e.c, name, len, flags, e.env);
    if len < 0 { RefusedOnly(fx, Unarm(s, e.c), e.c, name, len, flags, e.env, j); }
  }

  lemma RefusedOnly(fx: Fixes, s: Board, c: Id, name: Name, len: int, flags: int, env: Env, j: nat)
    requires len < 0 && SvrAcall(fx, s, c, name, len, flags, env).Ok? && |s.log| <= j < |SvrAcall(fx, s, c, name, len, flags, env).board.log|
    ensures !SvrAcall(fx, s, c, name, len, flags, env).board.log[j].Accepted?
  {
  }

  /**
   Over any good run, an acknowledged call is there from its acknowledgement on, without a break, up to the
   end or to one event; and that event answers it, is the departure of its caller, or takes the last
   advertiser from the service in whose queue it waits.
   */
  lemma AcceptedCallsAreKept(fx: Fixes, ss: seq<Board>, es: seq<Event>, j: nat) returns (p: nat, m: nat)
    requires Trace(fx, ss, es) && j < |ss[|es|].log| && ss[|es|].log[j].Accepted?
    ensures p < m <= |es| && |ss[p].log| <= j < |ss[p + 1].log|
    ensures var t := ss[|es|].log[j].call;
      && (forall n :: 0 <= n <= |es| ==> (t in ss[n].calls <==> p < n <= m))
      && (m < |es| ==> Ended(ss[m], es[m], ss[m + 1], t))
  {
    hide Inv, LogInv, Step, Possible, Allowed, Own, GoodStep, Onward, Ended, Trace;
    TraceStarts(fx, ss, es);
    var t := ss[|es|].log[j].call;
    p := WrittenAt(fx, ss, es, |es|, j);
    TraceStep(fx, ss, es, p);
    AcceptedIsThere(fx, ss[p], es[p], ss[p + 1], j);
    m := Lifetime(fx, ss, es, p + 1, |es|, t);
    forall n | 0 <= n <= p ensures t !in ss[n].calls {
      TraceGood(fx, ss, es, n);
      TraceGrows(fx, ss, es, n, p);
      InvSerial(ss[n], t);
    }
  }

  // ---------- kept replies ----------

  lemma DoneIsNoted(s: Board, t: Id)
    requires LogInv(s) && Done(s, t)
    ensures WasEnded(s.log, t)
  {
    hide Sound, Arriving, Queued, WasHanded, WasReplied, WasSubmitted;
    assert CallLogged(s, t);
    var k := s.calls[t];
    if w :| Returned(w, t, k.rval, k.rcode, k.data) in s.log {
      var i :| 0 <= i < |s.log| && s.log[i] == Returned(w, t, k.rval, k.rcode, k.data);
      assert Ends(s.log[i]);
    } else {
      var w :| Abandoned(w, t) in s.log;
      var i :| 0 <= i < |s.log| && s.log[i] == Abandoned(w, t);
      assert Ends(s.log[i]);
    }
  }

  lemma EndedIsDone(s: Board, t: Id)
    requires Inv(s) && LogInv(s) && t in s.calls && WasEnded(s.log, t)
    ensures Done(s, t)
  {
    hide Inv, Sound, Arriving, Queued, Done, WasEnded, WasHanded, WasReplied, WasSubmitted, WasHandedTo, Explained;
    InOnePlaceAlways(s, t);
    assert CallLogged(s, t);
  }

  lemma EndedStaysNoted(s: Board, r: Board, t: Id)
    requires LogGrows(s, r) && WasEnded(s.log, t)
    ensures WasEnded(r.log, t)
  {
    var i :| 0 <= i < |s.log| && Ends(s.log[i]) && s.log[i].call == t;
    assert r.log[i] == s.log[i];
  }

  /** A kept reply is collected by its caller. */
  ghost predicate Collected(s: Board, e: Event, r: Board, t: Id) {
    && t in s.calls && s.calls[t].client == Actor(s, e)
    && exists i :: |s.log| <= i < |r.log| && r.log[i].Replied? && r.log[i].call == t
  }

  lemma DoneEnds(s: Board, e: Event, r: Board, t: Id)
    requires Inv(s) && Done(s, t) && Ended(s, e, r, t)
    ensures Collected(s, e, r, t) || GoesWithCaller(s, r, Actor(s, e), t)
  {
    hide Inv, Arriving;
    InOnePlaceAlways(s, t);
  }

  /** Over any good run, a kept reply stays where it is until its caller collects it or leaves. */
  lemma {:induction false} KeptReplyStays(fx: Fixes, ss: seq<Board>, es: seq<Event>, p: nat, n: nat, t: Id) returns (m: nat)
    requires Trace(fx, ss, es) && p <= n <= |es| && Done(ss[p], t)
    ensures p <= m <= n && forall i :: p <= i <= n ==> if i <= m then Done(ss[i], t) else t !in ss[i].calls
    ensures m < n ==> Collected(ss[m], es[m], ss[m + 1], t) || GoesWithCaller(ss[m], ss[m + 1], Actor(ss[m], es[m]), t)
  {
    hide Inv, LogInv, Step, Possible, Allowed, Own, GoodStep, Onward, Ended, Trace, Collected, GoesWithCaller;
    TraceStarts(fx, ss, es);
    assert t in ss[p].calls;
    m := Lifetime(fx, ss, es, p, n, t);
    TraceGood(fx, ss, es, p);
    DoneIsNoted(ss[p], t);
    hide Done, WasEnded;
    forall i | p <= i <= m ensures Done(ss[i], t) {
      TraceGood(fx, ss, es, i);
      TraceGrows(fx, ss, es, p, i);
      EndedStaysNoted(ss[p], ss[i], t);
      EndedIsDone(ss[i], t);
    }
    if m < n {
      TraceGood(fx, ss, es, m);
      DoneEnds(ss[m], es[m], ss[m + 1], t);
    }
  }
}
