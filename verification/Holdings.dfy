/** What the switchboard keeps for its clients: replies in the order in which they came, and whom they are for. */
module Holdings {
  import opened Sequences
  import opened Wire
  import opened Descriptors
  import opened Board
  import opened Invariant
  import opened Answer
  import opened Calmness
  import opened Departure
  import opened Handlers
  import opened Steps
  import opened Order
  import opened Framing
  import opened Steadiness
  import opened Stream
  import opened Messages
  import opened Ledger

  // ---------- lists ----------

  ghost predicate Before<T>(q: seq<T>, x: T, y: T) {
    exists a, b :: 0 <= a < b < |q| && q[a] == x && q[b] == y
  }

  /** Elements may have left `q`; those of `x` may have come, and stand at the end. */
  ghost predicate Collects(q: seq<Id>, q': seq<Id>, x: set<Id>) {
    q' == q
    || ((forall i :: 0 <= i < |q'| ==> q'[i] in q || q'[i] in x)
        && (forall i, j :: 0 <= i < j < |q'| ==> Before(q, q'[i], q'[j]) || q'[j] in x))
  }

  lemma CollectsTransitive(a: seq<Id>, b: seq<Id>, r: seq<Id>, x: set<Id>)
    requires Collects(a, b, x) && Collects(b, r, x)
    ensures Collects(a, r, x)
  {
    if b != a && r != b {
      forall i | 0 <= i < |r| ensures r[i] in a || r[i] in x {
        if r[i] in b { var k :| 0 <= k < |b| && b[k] == r[i]; }
      }
      forall i, j | 0 <= i < j < |r| ensures Before(a, r[i], r[j]) || r[j] in x {
        if Before(b, r[i], r[j]) {
          var k, l :| 0 <= k < l < |b| && b[k] == r[i] && b[l] == r[j];
          assert Before(a, b[k], b[l]) || b[l] in x;
        }
      }
    }
  }

  lemma WithoutCollects(q: seq<Id>, t: Id, x: set<Id>)
    ensures Collects(q, Without(q, t), x)
  {
    hide Without, Sub;
    var p := Without(q, t);
    WithoutSub(q, t);
    forall i, j | 0 <= i < j < |p| ensures Before(q, p[i], p[j]) { SubKeepsOrder(p, q, i, j); }
  }

  lemma AppendCollects(q: seq<Id>, t: Id)
    ensures Collects(q, Without(q, t) + [t], {t})
  {
    hide Without;
    var p := Without(q, t);
    var r := p + [t];
    WithoutCollects(q, t, {});
    forall i, j | 0 <= i < j < |r| ensures Before(q, r[i], r[j]) || r[j] in {t} {
      if j < |p| {
        assert r[i] == p[i] && r[j] == p[j];
        if p == q { assert Before(q, q[i], q[j]); }
      }
    }
  }

  // ---------- deletions ----------

  predicate Less(w: Wait, w': Wait) {
    w' == w || w' == Nothing
  }

  /** Nothing is written; calls and clients go, and with them what was kept. */
  ghost predicate Forgets(s: Board, r: Board) {
    && r.log == s.log && r.clients.Keys <= s.clients.Keys && r.calls.Keys <= s.calls.Keys
    && (forall t :: t in r.calls ==> r.calls[t] == s.calls[t])
    && (forall d :: d in r.clients ==> Forgot(s.clients[d], r.clients[d]))
  }

  ghost predicate Forgot(cl: Client, cl': Client) {
    cl'.conn == cl.conn && Less(cl.wait4, cl'.wait4) && Collects(cl.replies, cl'.replies, {})
  }

  lemma ForgotTransitive(a: Client, b: Client, r: Client)
    requires Forgot(a, b) && Forgot(b, r)
    ensures Forgot(a, r)
  {
    hide Collects;
    CollectsTransitive(a.replies, b.replies, r.replies, {});
  }

  lemma ForgetsTransitive(a: Board, b: Board, r: Board)
    requires Forgets(a, b) && Forgets(b, r)
    ensures Forgets(a, r)
  {
    hide Forgot;
    forall d | d in r.clients ensures Forgot(a.clients[d], r.clients[d]) { ForgotTransitive(a.clients[d], b.clients[d], r.clients[d]); }
  }

  lemma DelCallForgets(s: Board, t: Id)
    requires t in s.calls
    ensures Forgets(s, DelCall(s, t))
  {
    hide Without, Collects;
    var r := DelCall(s, t);
    forall d | d in r.clients ensures Forgot(s.clients[d], r.clients[d]) { WithoutCollects(s.clients[d].replies, t, {}); }
  }

  lemma {:induction false} DrainForgets(s: Board, v: Id)
    requires Drain(s, v).Ok?
    ensures Forgets(s, Drain(s, v).board)
    decreases if v in s.services then |s.services[v].waitq| else 0
  {
    hide DelCall, Without, Forgot;
    if s.services[v].waitq == [] {
      SameForgets(s, s);
    } else {
      var t := s.services[v].waitq[0].call;
      DelCallForgets(s, t);
      QueueShrinks(s, t, v);
      DrainForgets(DelCall(s, t), v);
      ForgetsTransitive(s, DelCall(s, t), Drain(s, v).board);
    }
  }

  lemma SameForgets(s: Board, r: Board)
    requires r.log == s.log && r.calls == s.calls && r.clients.Keys <= s.clients.Keys
    requires forall d :: d in r.clients ==>
      r.clients[d].conn == s.clients[d].conn && r.clients[d].wait4 == s.clients[d].wait4 && r.clients[d].replies == s.clients[d].replies
    ensures Forgets(s, r)
  {
  }

  lemma DelAdvertForgets(s: Board, c: Id, v: Id)
    requires DelAdvert(s, c, v).Ok?
    ensures Forgets(s, DelAdvert(s, c, v).board)
  {
    hide Drain, Without, Forgets;
    var s1, r := DropAdvert(s, c, v), DelAdvert(s, c, v).board;
    SameForgets(s, s1);
    if !SomeoneAdvertises(s1, v) {
      DrainForgets(s1, v);
      SameForgets(Drain(s1, v).board, r);
      ForgetsTransitive(s, s1, Drain(s1, v).board);
      ForgetsTransitive(s, Drain(s1, v).board, r);
    }
  }

  lemma {:induction false} DelAdvertsForgets(s: Board, c: Id, order: seq<Id>)
    requires DelAdverts(s, c, order).Ok?
    ensures Forgets(s, DelAdverts(s, c, order).board)
    decreases |order|
  {
    hide DelAdvert, Forgets;
    if order == [] {
      SameForgets(s, s);
    } else {
      DelAdvertForgets(s, c, order[0]);
      DelAdvertsForgets(DelAdvert(s, c, order[0]).board, c, order[1..]);
      ForgetsTransitive(s, DelAdvert(s, c, order[0]).board, DelAdverts(s, c, order).board);
    }
  }

  lemma {:induction false} DelRequestsForgets(s: Board, c: Id)
    requires DelRequests(s, c).Ok?
    ensures Forgets(s, DelRequests(s, c).board)
    decreases if c in s.clients then |s.clients[c].requests| else 0
  {
    hide DelCall, Forgets;
    if s.clients[c].requests == [] {
      SameForgets(s, s);
    } else {
      var t := s.clients[c].requests[0];
      DelCallForgets(s, t);
      DelCallLists(s, c, t);
      DelRequestsForgets(DelCall(s, t), c);
      ForgetsTransitive(s, DelCall(s, t), DelRequests(s, c).board);
    }
  }

  lemma {:induction false} DelRepliesForgets(s: Board, c: Id)
    requires DelReplies(s, c).Ok?
    ensures Forgets(s, DelReplies(s, c).board)
    decreases if c in s.clients then |s.clients[c].replies| else 0
  {
    hide DelCall, Forgets;
    if s.clients[c].replies == [] {
      SameForgets(s, s);
    } else {
      var t := s.clients[c].replies[0];
      DelCallForgets(s, t);
      DelCallLists(s, c, t);
      DelRepliesForgets(DelCall(s, t), c);
      ForgetsTransitive(s, DelCall(s, t), DelReplies(s, c).board);
    }
  }

  // ---------- the call `t` ends ----------

  predicate Expects(s: Board, d: Id, t: Id) {
    d in s.clients && (s.clients[d].wait4 == For(t) || s.clients[d].wait4 == AnyReply)
  }

  /** A reply to the call `t`, as it is, to a client other than `c` that waits for it. */
  predicate Owing(s: Board, c: Id, t: Id, x: Entry) {
    t in s.calls && x == ReplyEntry(s, t) && x.to != c && Expects(s, x.to, t)
  }

  /** Replies are collected, and nobody begins to wait or waits for something else. */
  ghost predicate Passes(cl: Client, cl': Client, x: set<Id>) {
    && (cl'.conn.AwaitReply? ==> cl.conn.AwaitReply? && Less(cl.wait4, cl'.wait4))
    && Collects(cl.replies, cl'.replies, x)
  }

  /** `c` is done with `t`: its reply goes to the client that waits for it, or stands at the end of a list; the rest stays or goes. */
  ghost predicate Concludes(s: Board, r: Board, c: Id, t: Id) {
    && r.clients.Keys <= s.clients.Keys && r.calls.Keys <= s.calls.Keys
    && (forall u :: u in r.calls ==> SameData(s.calls[u], r.calls[u]))
    && (r.log == s.log || exists x :: Owing(s, c, t, x) && r.log == s.log + [x])
    && (forall d :: d in r.clients ==> Passes(s.clients[d], r.clients[d], {t}))
  }

  lemma PassesTransitive(a: Client, b: Client, r: Client, x: set<Id>)
    requires Passes(a, b, x) && Passes(b, r, x)
    ensures Passes(a, r, x)
  {
    hide Collects;
    CollectsTransitive(a.replies, b.replies, r.replies, x);
  }

  lemma ForgotPasses(cl: Client, cl': Client, x: set<Id>)
    requires Forgot(cl, cl')
    ensures Passes(cl, cl', x)
  {
  }

  lemma ConcludesThenForgets(a: Board, b: Board, r: Board, c: Id, t: Id)
    requires Concludes(a, b, c, t) && Forgets(b, r)
    ensures Concludes(a, r, c, t)
  {
    hide Passes, Forgot;
    forall d | d in r.clients ensures Passes(a.clients[d], r.clients[d], {t}) {
      ForgotPasses(b.clients[d], r.clients[d], {t});
      PassesTransitive(a.clients[d], b.clients[d], r.clients[d], {t});
    }
  }

  lemma FinishConcludes(s: Board, c: Id, t: Id, seesAny: bool)
    requires Finish(s, c, t, seesAny).Ok?
    ensures Concludes(s, Finish(s, c, t, seesAny).board, c, t)
  {
    hide SndReply, KeepReply, Concludes;
    var s1 := PutCall(PutClient(s, c, s.clients[c].(wait4 := Nothing)), t, s.calls[t].(executor := None));
    var to, r := s.calls[t].client, Finish(s, c, t, seesAny).board;
    if s1.clients[to].wait4 == For(t) || (seesAny && s1.clients[to].wait4 == AnyReply) {
      SentConcludes(s, c, t, s1, r);
    } else {
      KeptConcludes(s, c, t, s1);
    }
  }

  lemma SentConcludes(s: Board, c: Id, t: Id, s1: Board, r: Board)
    requires c in s.clients && t in s.calls && s1 == PutCall(PutClient(s, c, s.clients[c].(wait4 := Nothing)), t, s.calls[t].(executor := None))
    requires Expects(s1, s.calls[t].client, t) && SndReply(s1, t) == Ok(r)
    ensures Concludes(s, r, c, t)
  {
    hide DelCall, Collects;
    var to, x := s.calls[t].client, ReplyEntry(s, t);
    var s2 := NextCommand(Say(s1, x), to).board;
    var s3 := PutClient(s2, to, s2.clients[to].(wait4 := Nothing));
    assert Owing(s, c, t, x);
    assert r == DelCall(s3, t);
    assert Concludes(s, s3, c, t) by { assert forall q: seq<Id> :: Collects(q, q, {t}) by { SameCollects({t}); } }
    DelCallForgets(s3, t);
    ConcludesThenForgets(s, s3, r, c, t);
  }

  lemma SameCollects(x: set<Id>)
    ensures forall q: seq<Id> :: Collects(q, q, x)
  {
  }

  lemma KeptConcludes(s: Board, c: Id, t: Id, s1: Board)
    requires c in s.clients && t in s.calls && s.calls[t].client in s.clients
    requires s1 == PutCall(PutClient(s, c, s.clients[c].(wait4 := Nothing)), t, s.calls[t].(executor := None))
    ensures Concludes(s, KeepReply(s1, t), c, t)
  {
    hide Without, Collects;
    var to, r := s.calls[t].client, KeepReply(s1, t);
    SameCollects({t});
    AppendCollects(s.clients[to].replies, t);
    forall d | d in r.clients ensures Passes(s.clients[d], r.clients[d], {t}) { }
  }

  lemma Part2Concludes(s: Board, c: Id, t: Id)
    requires c in s.clients && s.clients[c].conn.Running? && s.clients[c].wait4 == For(t) && Part2(s, c).Ok?
    ensures Concludes(s, Part2(s, c).board, c, t)
  {
    hide Finish, Collects;
    var s1 := NextCommand(s, c).board;
    FinishConcludes(s1, c, t, true);
    var r := Part2(s, c).board;
    forall d | d in r.clients ensures Passes(s.clients[d], r.clients[d], {t}) { assert Passes(s1.clients[d], r.clients[d], {t}); }
    if r.log != s.log {
      var x :| Owing(s1, c, t, x) && r.log == s1.log + [x];
      assert Owing(s, c, t, x);
    }
  }

  /** A departing worker ends its call; a departing client that executes nothing ends none. */
  lemma DelClientConcludes(fx: Fixes, s: Board, c: Id, order: seq<Id>)
    requires DelClient(fx, s, c, order).Ok?
    ensures c in s.clients && c !in DelClient(fx, s, c, order).board.clients
    ensures if s.clients[c].wait4.For? && ExecutesCall(s, c, s.clients[c].wait4.call)
            then Concludes(Failed(s, c, s.clients[c].wait4.call), DelClient(fx, s, c, order).board, c, s.clients[c].wait4.call)
            else Forgets(s, DelClient(fx, s, c, order).board)
  {
    hide Finish, DelAdverts, DelRequests, DelReplies, Concludes, Forgets;
    var s1 := AbandonWork(fx, s, c).board;
    var s2 := DelAdverts(s1, c, order).board;
    var s3 := DelRequests(s2, c).board;
    var s4 := DelReplies(s3, c).board;
    var r := DelClient(fx, s, c, order).board;
    DelAdvertsForgets(s1, c, order);
    DelRequestsForgets(s2, c);
    ForgetsTransitive(s1, s2, s3);
    DelRepliesForgets(s3, c);
    ForgetsTransitive(s1, s3, s4);
    SameForgets(s4, r);
    ForgetsTransitive(s1, s4, r);
    if s.clients[c].wait4.For? && ExecutesCall(s, c, s.clients[c].wait4.call) {
      var t := s.clients[c].wait4.call;
      FinishConcludes(Failed(s, c, t), c, t, fx.wakeAny);
      ConcludesThenForgets(Failed(s, c, t), s1, r, c, t);
    }
  }

  // ---------- nothing ends ----------

  /** The entry answers a request for a reply. */
  predicate AnswersGet(x: Entry) {
    x.Replied? || x.NoReply?
  }

  ghost predicate RepliesNothing(s: Board, r: Board) {
    && |s.log| <= |r.log| && (forall i :: 0 <= i < |s.log| ==> r.log[i] == s.log[i])
    && (forall i :: |s.log| <= i < |r.log| ==> !AnswersGet(r.log[i]))
  }

  predicate Sat(cl: Client, cl': Client) {
    cl'.replies == cl.replies && (cl'.conn.AwaitReply? ==> cl.conn.AwaitReply? && cl'.wait4 == cl.wait4)
  }

  /** The kept replies and those who wait for one stay as they are. */
  ghost predicate Sits(s: Board, r: Board) {
    r.clients.Keys == s.clients.Keys && RepliesNothing(s, r) && forall d :: d in r.clients ==> Sat(s.clients[d], r.clients[d])
  }

  lemma SitsTransitive(a: Board, b: Board, r: Board)
    requires Sits(a, b) && Sits(b, r)
    ensures Sits(a, r)
  {
  }

  lemma SendToServerSits(fx: Fixes, s: Board, w: Id, t: Id)
    requires SendToServer(fx, s, w, t).Ok?
    ensures Sits(s, SendToServer(fx, s, w, t).board)
  {
    hide WorkerLeaves, Unlinked;
  }

  lemma SvrServiceSits(fx: Fixes, s: Board, c: Id, env: Env)
    requires SvrService(fx, s, c, env).Ok?
    ensures Sits(s, SvrService(fx, s, c, env).board)
  {
    hide SendToServer, FindEarliest, CastsHold, WorkerJoins;
    match FindEarliest(fx, s, env.order, None)
    case Some(v) => SendToServerSits(fx, s, c, FirstCall(s, v));
    case None =>
  }

  lemma SendToWorkerSits(fx: Fixes, s: Board, c: Id)
    requires SendToWorker(fx, s, c).Ok?
    ensures Sits(s, SendToWorker(fx, s, c).board)
  {
    hide SendToServer;
    var s1 := NextCommand(s, c).board;
    assert Sits(s, s1);
    var t := Last(s1.clients[c].requests);
    var svc := s1.services[s1.calls[t].svc];
    if svc.waitq != [] && !svc.holdsCalls {
      SendToServerSits(fx, s1, svc.waitq[0].client, t);
    } else {
      assert Sits(s1, Enqueue(s1, t));
    }
    SitsTransitive(s, s1, SendToWorker(fx, s, c).board);
  }

  lemma SvrAcallSits(fx: Fixes, s: Board, c: Id, name: Name, len: int, flags: int, env: Env)
    requires SvrAcall(fx, s, c, name, len, flags, env).Ok?
    ensures Sits(s, SvrAcall(fx, s, c, name, len, flags, env).board)
  {
    hide SendToWorker, Take, LiveCds;
    if name in s.index && len >= 0 {
      var s1 := NewCall(s, c, s.index[name], len, flags, env).board;
      var s2 := Say(s1, AcceptEntry(s1.calls[s.next], s.next));
      assert Sits(s, s2);
      if len == 0 {
        var s3 := Say(s2, Submitted(c, s.next, []));
        assert Sits(s, s3);
        SendToWorkerSits(fx, s3, c);
        SitsTransitive(s, s3, SendToWorker(fx, s3, c).board);
      }
    }
  }

  lemma SvrAdvertiseSits(s: Board, c: Id, name: Name, o: int)
    requires SvrAdvertise(s, c, name, o).Ok?
    ensures Sits(s, SvrAdvertise(s, c, name, o).board)
  {
  }

  // ---------- every event ----------

  /** The event completes a request of `d` for a reply. */
  predicate AsksNow(s: Board, e: Event, d: Id) {
    |FrameOf(s, e, d)| == 1 && FrameOf(s, e, d)[0].handler.GetReply?
  }

  predicate ParkedFor(s: Board, d: Id, t: Id) {
    t in s.calls && Expects(s, d, t) && s.clients[d].conn.AwaitReply?
  }

  ghost function Ending(t: Option<Id>): set<Id> {
    if t.Some? then {t.value} else {}
  }

  ghost predicate ListsAfter(s: Board, r: Board, x: set<Id>) {
    forall d :: d in r.clients ==> if d in s.clients then Collects(s.clients[d].replies, r.clients[d].replies, x) else r.clients[d].replies == []
  }

  /** Who waits after the event waited before, for the same, unless it is deleted; or asks now. */
  ghost predicate WaitersAfter(s: Board, e: Event, r: Board) {
    forall d :: d in r.clients && r.clients[d].conn.AwaitReply? ==>
      AsksNow(s, e, d) || (d in s.clients && s.clients[d].conn.AwaitReply? && Less(s.clients[d].wait4, r.clients[d].wait4))
  }

  /** Who gets a reply waited for it, or asks now. */
  ghost predicate RepliesAfter(s: Board, e: Event, r: Board) {
    && |s.log| <= |r.log|
    && forall i :: |s.log| <= i < |r.log| && AnswersGet(r.log[i]) ==>
         AsksNow(s, e, r.log[i].to) || (r.log[i].Replied? && ParkedFor(s, r.log[i].to, r.log[i].call))
  }

  /** The event ends the call `t`, if any, that a worker executes. */
  ghost predicate Collecting(s: Board, e: Event, r: Board, t: Option<Id>) {
    && (t.Some? ==> Executing(s, t.value))
    && ListsAfter(s, r, Ending(t)) && WaitersAfter(s, e, r) && RepliesAfter(s, e, r)
  }

  /** `m` is `s` but for the connection of `c`, which does not wait, contents of calls, and entries that are no replies. */
  ghost predicate Near(s: Board, m: Board, c: Id) {
    && m.clients.Keys == s.clients.Keys && RepliesNothing(s, m)
    && forall d :: d in s.clients ==>
         && m.clients[d].replies == s.clients[d].replies && m.clients[d].wait4 == s.clients[d].wait4
         && (m.clients[d].conn == s.clients[d].conn || (d == c && !m.clients[d].conn.AwaitReply?))
  }

  ghost predicate Moves(s: Board, r: Board, x: set<Id>) {
    r.clients.Keys <= s.clients.Keys && forall d :: d in r.clients ==> Passes(s.clients[d], r.clients[d], x)
  }

  lemma NearMoves(s: Board, m: Board, e: Event, r: Board, c: Id, x: set<Id>)
    requires Near(s, m, c) && Moves(m, r, x)
    ensures ListsAfter(s, r, x) && WaitersAfter(s, e, r)
  {
    hide Collects, RepliesNothing, AsksNow;
    forall d | d in r.clients ensures Passes(s.clients[d], r.clients[d], x) { assert Passes(m.clients[d], r.clients[d], x); }
  }

  lemma SitsMoves(s: Board, r: Board)
    requires Sits(s, r)
    ensures Moves(s, r, {})
  {
    hide RepliesNothing;
  }

  lemma ForgetsMoves(s: Board, r: Board)
    requires Forgets(s, r)
    ensures Moves(s, r, {})
  {
    hide Passes, Forgot;
    forall d | d in r.clients ensures Passes(s.clients[d], r.clients[d], {}) { ForgotPasses(s.clients[d], r.clients[d], {}); }
  }

  lemma MovesTransitive(a: Board, b: Board, r: Board, x: set<Id>)
    requires Moves(a, b, x) && Moves(b, r, x)
    ensures Moves(a, r, x)
  {
    hide Passes;
    forall d | d in r.clients ensures Passes(a.clients[d], r.clients[d], x) { PassesTransitive(a.clients[d], b.clients[d], r.clients[d], x); }
  }

  lemma NothingReplied(s: Board, m: Board, e: Event, r: Board)
    requires RepliesNothing(s, m) && RepliesNothing(m, r)
    ensures RepliesAfter(s, e, r)
  {
    hide AsksNow, ParkedFor;
    forall i | |s.log| <= i < |r.log| ensures !AnswersGet(r.log[i]) { if i < |m.log| { assert r.log[i] == m.log[i]; } }
  }

  lemma SitsCollecting(s: Board, m: Board, e: Event, r: Board, c: Id)
    requires Near(s, m, c) && Sits(m, r)
    ensures Collecting(s, e, r, None)
  {
    hide Sat, Passes, ListsAfter, WaitersAfter, RepliesAfter, RepliesNothing;
    SitsMoves(m, r);
    NearMoves(s, m, e, r, c, {});
    NothingReplied(s, m, e, r);
  }

  lemma ForgetsCollecting(s: Board, m: Board, e: Event, r: Board, c: Id)
    requires Near(s, m, c) && Forgets(m, r)
    ensures Collecting(s, e, r, None)
  {
    ForgetsMoves(m, r);
    hide Moves, ListsAfter, WaitersAfter;
    NearMoves(s, m, e, r, c, {});
    NothingReplied(s, m, e, r);
  }

  lemma ConcludesCollecting(s: Board, m: Board, e: Event, r: Board, c: Id, t: Id)
    requires Inv(s) && Near(s, m, c) && Concludes(m, r, c, t) && t in s.calls && s.calls[t].executor == Some(c)
    requires t in m.calls && m.calls[t].client == s.calls[t].client
    ensures Collecting(s, e, r, Some(t))
  {
    hide Inv, Passes, ListsAfter, WaitersAfter, AsksNow;
    assert Moves(m, r, {t});
    NearMoves(s, m, e, r, c, {t});
    ExecutedWaitsParked(s, c, t);
    forall i | |s.log| <= i < |r.log| && AnswersGet(r.log[i]) ensures r.log[i].Replied? && ParkedFor(s, r.log[i].to, r.log[i].call) {
      assert i >= |m.log|;
    }
  }

  // ---------- requests for replies ----------

  lemma SndReplyMoves(s: Board, t: Id)
    requires SndReply(s, t).Ok?
    ensures t in s.calls && Moves(s, SndReply(s, t).board, {}) && SndReply(s, t).board.log == s.log + [ReplyEntry(s, t)]
  {
    hide DelCall, Collects;
    var to, x := s.calls[t].client, ReplyEntry(s, t);
    var s2 := NextCommand(Say(s, x), to).board;
    var s3 := PutClient(s2, to, s2.clients[to].(wait4 := Nothing));
    SameCollects({});
    assert Moves(s, s3, {});
    DelCallForgets(s3, t);
    ForgetsMoves(s3, DelCall(s3, t));
    MovesTransitive(s, s3, DelCall(s3, t), {});
  }

  /** All but `c` wait as before. */
  ghost predicate OthersWait(s: Board, r: Board, c: Id) {
    forall d :: d in r.clients && d != c && r.clients[d].conn.AwaitReply? ==>
      d in s.clients && s.clients[d].conn.AwaitReply? && Less(s.clients[d].wait4, r.clients[d].wait4)
  }

  /** Nobody but `c` is affected: a reply to it may have gone, and at most one thing is written to it. */
  ghost predicate Served(s: Board, r: Board, c: Id) {
    ListsAfter(s, r, {}) && OthersWait(s, r, c) && (r.log == s.log || (exists x :: r.log == s.log + [x] && To(x, c)))
  }

  lemma GetReplyServed(s: Board, c: Id, cd: Short, flags: int)
    requires c in s.clients && s.clients[c].conn.Running? && SvrGetReply(s, c, cd, flags).Ok?
    requires forall t :: t in s.clients[c].replies && t in s.calls ==> s.calls[t].client == c
    ensures Served(s, SvrGetReply(s, c, cd, flags).board, c)
  {
    hide SndReply, FlagSet, Served, ReplyReady, WaitTarget, NextCommand;
    match ReplyReady(s.calls, s.clients[c].replies, cd, flags)
    case Some(t) =>
      ReplyIsThere(s, c, cd, flags);
      SndReplyMoves(s, t);
      SentServed(s, c, t, SndReply(s, t).board);
    case None =>
      AnswerServed(s, c, NoReply(c, TPEBADDESC));
      AnswerServed(s, c, NoReply(c, TPEBLOCK));
      var cl := s.clients[c].(conn := AwaitReply, wait4 := WaitTarget(s.calls, s.clients[c].requests, cd, flags));
      ParkServed(s, c, cl);
  }

  lemma SentServed(s: Board, c: Id, t: Id, r: Board)
    requires t in s.calls && s.calls[t].client == c && Moves(s, r, {}) && r.log == s.log + [ReplyEntry(s, t)]
    ensures Served(s, r, c)
  {
    hide Collects;
    assert To(ReplyEntry(s, t), c);
  }

  lemma AnswerServed(s: Board, c: Id, x: Entry)
    requires To(x, c)
    ensures NextCommand(Say(s, x), c).Ok? ==> Served(s, NextCommand(Say(s, x), c).board, c)
  {
  }

  lemma ParkServed(s: Board, c: Id, cl: Client)
    requires c in s.clients && cl.replies == s.clients[c].replies
    ensures Served(s, PutClient(s, c, cl), c)
  {
  }

  lemma GetReplyCollecting(s: Board, e: Event, r: Board, c: Id, cd: Short, flags: int)
    requires Inv(s) && c in s.clients && s.clients[c].conn.Receiving? && AsksNow(s, e, c) && SvrGetReply(Unarm(s, c), c, cd, flags) == Ok(r)
    ensures Collecting(s, e, r, None)
  {
    hide Inv, SvrGetReply, AsksNow, Collects;
    var s0 := Unarm(s, c);
    AlwaysInOrder(s, c);
    GetReplyServed(s0, c, cd, flags);
    assert ListsAfter(s, r, {});
  }

  lemma UnadvertiseCollecting(s: Board, e: Event, r: Board, c: Id, name: Name)
    requires c in s.clients && s.clients[c].conn.Receiving? && SvrUnadvertise(Unarm(s, c), c, name) == Ok(r)
    ensures Collecting(s, e, r, None)
  {
    hide DelAdvert, Collecting, Near, Moves;
    var s0 := Unarm(s, c);
    assert Near(s, s0, c) by { UnarmNear(s, c); }
    if name in s.index && Advertises(s0, c, s.index[name]) {
      var m := DelAdvert(s0, c, s.index[name]).board;
      DelAdvertForgets(s0, c, s.index[name]);
      ForgetsMoves(s0, m);
      AnswerSits(m, c, Status(c, 0));
      SitsMoves(m, r);
      MovesTransitive(s0, m, r, {});
      NearMoves(s, s0, e, r, c, {});
      StatusOnly(s, e, r, c);
    } else {
      AnswerSits(s0, c, Status(c, TPENOENT));
      SitsCollecting(s, s0, e, r, c);
    }
  }

  lemma StatusOnly(s: Board, e: Event, r: Board, c: Id)
    requires r.log == s.log + [Status(c, 0)] && ListsAfter(s, r, {}) && WaitersAfter(s, e, r)
    ensures Collecting(s, e, r, None)
  {
    hide ListsAfter, WaitersAfter, AsksNow;
  }

  lemma AnswerSits(s: Board, c: Id, x: Entry)
    requires NextCommand(Say(s, x), c).Ok? && !AnswersGet(x)
    ensures Sits(s, NextCommand(Say(s, x), c).board)
  {
  }

  lemma UnarmNear(s: Board, c: Id)
    requires c in s.clients && s.clients[c].conn.Receiving?
    ensures Near(s, Unarm(s, c), c)
  {
  }

  // ---------- the handlers ----------

  lemma ReturnedCollecting(s: Board, m: Board, x: Entry, e: Event, r: Board, c: Id, t: Id)
    requires Inv(s) && c in s.clients && s.clients[c].conn.Receiving? && s.clients[c].wait4 == For(t)
    requires Near(s, m, c) && c in m.clients && m.clients[c].conn.Running? && t in m.calls && x.Returned? && Part2(Say(m, x), c) == Ok(r)
    requires t in s.calls ==> m.calls[t].client == s.calls[t].client
    ensures t in s.calls && Collecting(s, e, r, Some(t))
  {
    hide Inv, Part2, Collecting, Concludes;
    InvExecutes(s, c);
    assert Near(s, Say(m, x), c) by { SayNear(s, m, x, c); }
    Part2Concludes(Say(m, x), c, t);
    ConcludesCollecting(s, Say(m, x), e, r, c, t);
  }

  lemma InvExecutes(s: Board, c: Id)
    requires Inv(s) && c in s.clients && s.clients[c].conn.Receiving? && s.clients[c].wait4.For?
    ensures s.clients[c].wait4.call in s.calls && s.calls[s.clients[c].wait4.call].executor == Some(c)
  {
    hide InvX;
    InvWaiter(s, c, TIGHT);
  }

  lemma SayNear(s: Board, m: Board, x: Entry, c: Id)
    requires Near(s, m, c) && !AnswersGet(x)
    ensures Near(s, Say(m, x), c)
  {
  }

  lemma ReturnCollecting(s: Board, e: Event, r: Board, c: Id, rval: byte, rcode: int, len: int) returns (t: Option<Id>)
    requires Inv(s) && c in s.clients && s.clients[c].conn.Receiving? && SvrReturn(Unarm(s, c), c, rval, rcode, len) == Ok(r)
    ensures Collecting(s, e, r, t)
  {
    hide Inv, Part2, Collecting, Near;
    var s0, u := Unarm(s, c), s.clients[c].wait4.call;
    var m := PutCall(s0, u, s0.calls[u].(rval := rval, rcode := rcode, data := Resize(s0.calls[u].data, len)));
    assert Near(s, m, c) by { UnarmNear(s, c); CallNear(s, s0, m, c); }
    if len > 0 {
      assert Sits(m, r);
      SitsCollecting(s, m, e, r, c);
      t := None;
    } else {
      ReturnedCollecting(s, m, Returned(c, u, rval, rcode, []), e, r, c, u);
      t := Some(u);
    }
  }

  lemma CallNear(s: Board, m: Board, m': Board, c: Id)
    requires Near(s, m, c) && m'.clients == m.clients && m'.log == m.log
    ensures Near(s, m', c)
  {
  }

  lemma DepartureCollecting(fx: Fixes, s: Board, m: Board, e: Event, r: Board, c: Id, order: seq<Id>) returns (t: Option<Id>)
    requires Inv(s) && Near(s, m, c) && c in s.clients && m.calls == s.calls && DelClient(fx, m, c, order) == Ok(r)
    ensures Collecting(s, e, r, t)
  {
    hide Inv, DelClient, Collecting, Concludes, Forgets, Near;
    DelClientConcludes(fx, m, c, order);
    if m.clients[c].wait4.For? && ExecutesCall(m, c, m.clients[c].wait4.call) {
      var u := m.clients[c].wait4.call;
      assert Near(s, Failed(m, c, u), c) by { FailedNear(s, m, c, u); }
      ConcludesCollecting(s, Failed(m, c, u), e, r, c, u);
      t := Some(u);
    } else {
      ForgetsCollecting(s, m, e, r, c);
      t := None;
    }
  }

  lemma FailedNear(s: Board, m: Board, c: Id, t: Id)
    requires Near(s, m, c) && t in m.calls
    ensures Near(s, Failed(m, c, t), c)
  {
    hide Near;
    CallNear(s, m, PutCall(m, t, m.calls[t].(rval := TPERRNO, rcode := TPESVCERR)), c);
    SayNear(s, PutCall(m, t, m.calls[t].(rval := TPERRNO, rcode := TPESVCERR)), Abandoned(c, t), c);
  }

  lemma ArmSits(s: Board, c: Id, h: Handler, input: Buffer)
    requires Arm(s, c, h, input).Ok?
    ensures Sits(s, Arm(s, c, h, input).board)
  {
  }

  lemma RunHandlerCollecting(fx: Fixes, s: Board, e: Event, r: Board, c: Id, h: Handler, b: seq<byte>, env: Env) returns (t: Option<Id>)
    requires Inv(s) && c in s.clients && s.clients[c].conn.Receiving? && !h.CallBody? && !h.ReturnBody? && |b| == CommandLength(h)
    requires FrameOf(s, e, c) == [Framed(h, b)] && RunHandler(fx, Unarm(s, c), c, h, b, env) == Ok(r)
    ensures Collecting(s, e, r, t)
  {
    hide Inv, SvrService, DelClient, SvrAcall, SvrGetReply, SvrAdvertise, SvrUnadvertise, SvrReturn, CutName, ToLong, ToShort;
    hide Collecting, Near, Sits, FrameOf, Arm;
    var s0 := Unarm(s, c);
    assert Near(s, s0, c) by { UnarmNear(s, c); }
    t := None;
    match h
    case Command =>
      if b[0] == TPTWORK {
        SvrServiceSits(fx, s0, c, env);
        SitsCollecting(s, s0, e, r, c);
      } else if CommandHandler(b[0]).Some? {
        var h' := CommandHandler(b[0]).value;
        ArmSits(s0, c, h', Scratch([b[0]] + ZeroBytes(CommandLength(h') - 1)));
        SitsCollecting(s, s0, e, r, c);
      } else {
        t := DepartureCollecting(fx, s, s0, e, r, c, env.order);
      }
    case Acall =>
      SvrAcallSits(fx, s0, c, CutName(b), ToLong(b, NAME_LENGTH), ToLong(b, NAME_LENGTH + IOLONG), env);
      SitsCollecting(s, s0, e, r, c);
    case GetReply => GetReplyCollecting(s, e, r, c, AsShort(ToShort(b, 0)), ToLong(b, IOSHORT));
    case Advertise =>
      SvrAdvertiseSits(s0, c, CutName(b), ToLong(b, NAME_LENGTH));
      SitsCollecting(s, s0, e, r, c);
    case Unadvertise => UnadvertiseCollecting(s, e, r, c, CutName(b));
    case Return => t := ReturnCollecting(s, e, r, c, b[0], ToLong(b, 1), ToLong(b, 1 + IOLONG));
  }

  lemma BodyCollecting(fx: Fixes, s: Board, e: Event, r: Board, c: Id, f: Framed) returns (t: Option<Id>)
    requires Inv(s) && Possible(s, e) && Allowed(fx, s, e) && Step(fx, s, e) == Ok(r) && e.Read? && e.c == c
    requires FrameOf(s, e, c) == [f] && (f.handler.CallBody? || f.handler.ReturnBody?)
    ensures Collecting(s, e, r, t)
  {
    hide Inv, Step, Possible, Allowed, SendToWorker, Part2, Collecting, Near, Sits;
    FrameIsHandled(fx, s, c, e.chunk, e.env);
    var u := s.clients[c].conn.input.call;
    var m := Unarm(PutCall(s, u, s.calls[u].(data := f.payload)), c);
    assert Near(s, m, c) by { UnarmNear(s, c); CallNear(s, Unarm(s, c), m, c); }
    if f.handler.CallBody? {
      var x := Submitted(c, u, f.payload);
      assert Near(s, Say(m, x), c) by { SayNear(s, m, x, c); }
      SendToWorkerSits(fx, Say(m, x), c);
      SitsCollecting(s, Say(m, x), e, r, c);
      t := None;
    } else {
      InvFits(s, c);
      ReturnedCollecting(s, m, Returned(c, u, s.calls[u].rval, s.calls[u].rcode, f.payload), e, r, c, u);
      t := Some(u);
    }
  }

  /** A read that completes nothing. */
  lemma PartialCollecting(fx: Fixes, s: Board, e: Event, r: Board)
    requires Inv(s) && Possible(s, e) && Allowed(fx, s, e) && Step(fx, s, e) == Ok(r)
    requires e.Read? && s.clients[e.c].conn.Receiving? && FrameOf(s, e, e.c) == []
    ensures Collecting(s, e, r, None)
  {
    hide Inv, RunHandler, SendToWorker, Part2, Walks, GoodBatches, HandlerOk, Collecting, Near, Sits, Splice;
    InvFits(s, e.c);
    var m := s.(clients := r.clients, calls := r.calls);
    assert r == m && r.clients == s.clients[e.c := r.clients[e.c]] && r.clients[e.c] == s.clients[e.c].(conn := r.clients[e.c].conn) && r.clients[e.c].conn.Receiving?;
    assert Near(s, s, e.c) by { SameNear(s, e.c); }
    assert Sits(s, r) by { FilledSits(s, r, e.c); }
    SitsCollecting(s, s, e, r, e.c);
  }

  lemma SameNear(s: Board, c: Id)
    ensures Near(s, s, c)
  {
  }

  lemma FilledSits(s: Board, r: Board, c: Id)
    requires c in s.clients && c in r.clients && r.log == s.log && r.clients == s.clients[c := r.clients[c]]
    requires r.clients[c] == s.clients[c].(conn := r.clients[c].conn) && r.clients[c].conn.Receiving?
    ensures Sits(s, r)
  {
  }

  lemma ConnectCollecting(s: Board)
    requires Inv(s)
    ensures Connect(s).Ok? && Collecting(s, Arrive, Connect(s).board, None)
  {
    hide Inv;
    InvNextFree(s);
  }

  lemma StepCollecting(fx: Fixes, s: Board, e: Event, r: Board) returns (t: Option<Id>)
    requires Inv(s) && Possible(s, e) && Allowed(fx, s, e) && Step(fx, s, e) == Ok(r)
    ensures Collecting(s, e, r, t)
  {
    hide Inv, FrameOf, DelClient, ReadScratch, ReadData, RunHandler, Walks, GoodBatches, HandlerOk, LeaveOk, Connect, Collecting, Near;
    t := None;
    match e
    case Arrive => ConnectCollecting(s);
    case Leave(c, order) =>
      assert Near(s, s, c) by { SameNear(s, c); }
      t := DepartureCollecting(fx, s, s, e, r, c, order);
    case Read(c, chunk, env) =>
      if !s.clients[c].conn.Receiving? {
        assert Near(s, s, c) by { SameNear(s, c); }
        t := DepartureCollecting(fx, s, s, e, r, c, env.order);
      } else if FrameOf(s, e, c) == [] {
        PartialCollecting(fx, s, e, r);
      } else {
        t := FrameCollecting(fx, s, e, r, c);
      }
  }

  lemma FrameCollecting(fx: Fixes, s: Board, e: Event, r: Board, c: Id) returns (t: Option<Id>)
    requires Inv(s) && Possible(s, e) && Allowed(fx, s, e) && Step(fx, s, e) == Ok(r) && e.Read? && e.c == c && FrameOf(s, e, c) != []
    ensures Collecting(s, e, r, t)
  {
    hide Inv, Step, Possible, Allowed, RunHandler, SendToWorker, Part2, Collecting, Splice;
    var f := FrameOf(s, e, c)[0];
    assert FrameOf(s, e, c) == [Framed(f.handler, f.payload)];
    if f.handler.CallBody? || f.handler.ReturnBody? {
      t := BodyCollecting(fx, s, e, r, c, f);
    } else {
      FrameIsHandled(fx, s, c, e.chunk, e.env);
      t := RunHandlerCollecting(fx, s, e, r, c, f.handler, f.payload, e.env);
    }
  }
}
