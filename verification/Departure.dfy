/** A peer disconnects: `del_client` and everything it takes along. */
module Departure {
  import opened Sequences
  import opened Board
  import opened Invariant
  import opened Touch
  import opened DeleteCall
  import opened Answer
  import opened Registry

  /** A walk of a tree visits each of its keys once. */
  ghost predicate Walks(order: seq<Id>, keys: set<Id>) {
    Distinct(order) && forall v :: v in order <==> v in keys
  }

  ghost predicate ExecutesNothing(s: Board, c: Id) {
    forall t :: t in s.calls ==> s.calls[t].executor != Some(c)
  }

  /** No handler but `c`'s is on the stack. */
  ghost predicate Quiet(s: Board, c: Id) {
    forall d :: d in s.clients && d != c ==> !s.clients[d].conn.Running?
  }

  lemma LessQuiet(s: Board, r: Board, c: Id)
    requires OnlyLess(s, r)
    ensures ExecutesNothing(s, c) ==> ExecutesNothing(r, c)
    ensures Quiet(s, c) ==> Quiet(r, c)
    ensures c in s.clients <==> c in r.clients
  {
  }

  // ---------- advertisements ----------

  lemma WalksTail(order: seq<Id>, keys: set<Id>)
    requires order != [] && Walks(order, keys)
    ensures order[0] in keys && Walks(order[1..], keys - {order[0]})
  {
  }

  lemma {:induction false} DelAdvertsKeeps(s: Board, c: Id, order: seq<Id>, k: Slack)
    requires InvX(s, k) && c in s.clients && ExecutesNothing(s, c) && Walks(order, s.clients[c].adverts.Keys)
    ensures DelAdverts(s, c, order).Ok? && InvX(DelAdverts(s, c, order).board, k)
    ensures var r := DelAdverts(s, c, order).board; OnlyLess(s, r) && c in r.clients && r.clients[c].adverts == map[]
    decreases |order|
  {
    hide Without, Distinct, InvX;
    if order == [] {
      LessReflexive(s);
      assert s.clients[c].adverts.Keys == {};
    } else {
      WalksTail(order, s.clients[c].adverts.Keys);
      var v := order[0];
      DelAdvertKeeps(s, c, v, k);
      var s1 := DelAdvert(s, c, v).board;
      LessQuiet(s, s1, c);
      assert s1.clients[c].adverts.Keys == s.clients[c].adverts.Keys - {v};
      DelAdvertsKeeps(s1, c, order[1..], k);
      LessTransitive(s, s1, DelAdverts(s1, c, order[1..]).board);
    }
  }

  // ---------- requests and replies ----------

  lemma DelOwnKeeps(s: Board, c: Id, t: Id, k: Slack)
    requires InvX(s, k) && c in k.closing && t in s.calls && s.calls[t].client == c
    ensures InvX(DelCall(s, t), k)
  {
    hide Without, Distinct, Tables, Lists, Queues, Workers, Waiters, Buffers, Phases, Cds;
    DelCallKeeps(s, t, k);
    LimboShrinks(DelCall(s, t), k, t);
  }

  lemma DelCallLists(s: Board, c: Id, t: Id)
    requires t in s.calls && c in s.clients
    ensures DelCall(s, t).clients[c].requests == Without(s.clients[c].requests, t)
    ensures DelCall(s, t).clients[c].replies == Without(s.clients[c].replies, t)
  {
    hide Without, Distinct;
  }

  lemma {:induction false} DelRequestsKeeps(s: Board, c: Id, k: Slack)
    requires InvX(s, k) && c in s.clients && c in k.closing
    ensures DelRequests(s, c).Ok? && InvX(DelRequests(s, c).board, k)
    ensures var r := DelRequests(s, c).board;
      OnlyLess(s, r) && SameAdverts(s, r) && c in r.clients && r.clients[c].requests == []
    decreases |s.clients[c].requests|
  {
    hide Without, Distinct, OnlyLess, DelCall;
    if s.clients[c].requests == [] {
      LessReflexive(s);
    } else {
      var t := s.clients[c].requests[0];
      assert t in s.clients[c].requests;
      assert t in s.calls && s.calls[t].client == c;
      hide InvX;
      DelOwnKeeps(s, c, t, k);
      DelCallLess(s, t);
      DelCallLists(s, c, t);
      var s1 := DelCall(s, t);
      LessKeys(s, s1);
      DelRequestsKeeps(s1, c, k);
      LessTransitive(s, s1, DelRequests(s1, c).board);
      LessKeys(s1, DelRequests(s1, c).board);
    }
  }

  lemma {:induction false} DelRepliesKeeps(s: Board, c: Id, k: Slack)
    requires InvX(s, k) && c in s.clients && c in k.closing && s.clients[c].requests == []
    ensures DelReplies(s, c).Ok? && InvX(DelReplies(s, c).board, k)
    ensures var r := DelReplies(s, c).board;
      OnlyLess(s, r) && SameAdverts(s, r) && c in r.clients && r.clients[c].replies == [] && r.clients[c].requests == []
    decreases |s.clients[c].replies|
  {
    hide Without, Distinct, OnlyLess, DelCall;
    if s.clients[c].replies == [] {
      LessReflexive(s);
    } else {
      var t := s.clients[c].replies[0];
      assert t in s.calls && s.calls[t].client == c;
      hide InvX;
      DelOwnKeeps(s, c, t, k);
      DelCallLess(s, t);
      DelCallLists(s, c, t);
      var s1 := DelCall(s, t);
      LessKeys(s, s1);
      DelRepliesKeeps(s1, c, k);
      LessTransitive(s, s1, DelReplies(s1, c).board);
      LessKeys(s1, DelReplies(s1, c).board);
    }
  }

  // ---------- the client itself ----------

  function RemoveClient(s: Board, c: Id): Board {
    s.(clients := s.clients - {c})
  }

  lemma RemoveClientTables(s: Board, c: Id, bare: set<Id>)
    requires c in s.clients && s.clients[c].adverts == map[] && Tables(s, bare)
    ensures Tables(RemoveClient(s, c), bare)
  {
    var r := RemoveClient(s, c);
    forall x | x in r.services && x !in bare ensures exists c :: Advertises(r, c, x) {
      var d :| Advertises(s, d, x);
      assert Advertises(r, d, x);
    }
  }

  lemma RemoveClientLists(s: Board, c: Id)
    requires c in s.clients && s.clients[c].requests == [] && s.clients[c].replies == [] && Lists(s)
    ensures Lists(RemoveClient(s, c))
  {
    hide Distinct, Held, RequestsOwned, RepliesOwned;
    RemoveClientHeld(s, c);
    RemoveClientOwned(s, c);
  }

  lemma RemoveClientHeld(s: Board, c: Id)
    requires c in s.clients && s.clients[c].requests == [] && s.clients[c].replies == [] && Held(s)
    ensures Held(RemoveClient(s, c))
  {
    var r := RemoveClient(s, c);
    forall u | u in r.calls ensures Pending(r, u) || Done(r, u) {
      assert Pending(s, u) || Done(s, u);
      assert s.calls[u].client != c;
    }
  }

  lemma RemoveClientOwned(s: Board, c: Id)
    requires RequestsOwned(s) && RepliesOwned(s)
    ensures RequestsOwned(RemoveClient(s, c)) && RepliesOwned(RemoveClient(s, c))
  {
    var r := RemoveClient(s, c);
    assert forall d :: d in r.clients ==> d in s.clients && r.clients[d] == s.clients[d];
  }

  lemma RemoveClientQueues(s: Board, c: Id)
    requires c in s.clients && s.clients[c].requests == [] && s.clients[c].adverts == map[] && Queues(s)
    ensures Queues(RemoveClient(s, c))
  {
    hide Distinct;
    var r := RemoveClient(s, c);
    forall v, u | v in r.services && CallNode(u) in r.services[v].waitq ensures Pending(r, u) && !Arriving(r, u) {
      assert Pending(s, u) && !Arriving(s, u);
    }
  }

  lemma RemoveClientWorkers(s: Board, c: Id)
    requires ExecutesNothing(s, c) && Workers(s) && Waiters(s)
    ensures Workers(RemoveClient(s, c)) && Waiters(RemoveClient(s, c))
  {
  }

  lemma RemoveClientBuffers(s: Board, c: Id, k: Slack)
    requires Buffers(s, k.closing) && Phases(s, k.limbo)
    ensures Buffers(RemoveClient(s, c), k.closing - {c}) && Phases(RemoveClient(s, c), k.limbo)
  {
    var r := RemoveClient(s, c);
    forall d | d in r.clients && d !in k.closing - {c} && r.clients[d].conn.Receiving? && r.clients[d].conn.input.DataOf?
      ensures DataFits(r, d)
    {
      assert DataFits(s, d);
    }
    forall u | Pending(r, u) && u !in k.limbo ensures Executing(r, u) || Queued(r, u) || Arriving(r, u) {
      assert Pending(s, u);
    }
  }

  lemma RemoveClientKeeps(s: Board, c: Id, k: Slack)
    requires InvX(s, k) && c in s.clients && ExecutesNothing(s, c)
    requires s.clients[c].adverts == map[] && s.clients[c].requests == [] && s.clients[c].replies == []
    ensures InvX(RemoveClient(s, c), k.(closing := k.closing - {c}))
  {
    hide Distinct, Tables, Lists, Queues, Workers, Waiters, Buffers, Phases, Cds;
    RemoveClientTables(s, c, k.bare);
    RemoveClientLists(s, c);
    RemoveClientQueues(s, c);
    RemoveClientWorkers(s, c);
    RemoveClientBuffers(s, c, k);
  }

  // ---------- the call it executes ----------

  ghost predicate FinishFrame(s: Board, r: Board, c: Id) {
    && r.clients.Keys == s.clients.Keys
    && (forall d :: d in s.clients ==> r.clients[d].adverts == s.clients[d].adverts)
    && (forall d :: d in s.clients && !s.clients[d].conn.Running? ==> !r.clients[d].conn.Running?)
    && (c in s.clients ==> r.clients[c].wait4 == Nothing)
    && (forall d :: d in s.clients ==> r.clients[d].wait4 == s.clients[d].wait4 || r.clients[d].wait4 == Nothing)
    && (forall u :: u in r.calls ==> u in s.calls && r.calls[u].client == s.calls[u].client)
  }

  lemma FinishIs(s: Board, c: Id, t: Id, seesAny: bool)
    requires c in s.clients && t in s.calls && s.calls[t].client in s.clients
    ensures var s1, to := LetGo(s, c, t), s.calls[t].client;
      Finish(s, c, t, seesAny) ==
        if s1.clients[to].wait4 == For(t) || (seesAny && s1.clients[to].wait4 == AnyReply) then SndReply(s1, t)
        else Ok(KeepReply(s1, t))
  {
    hide Without, SndReply;
  }

  lemma LetGoFrames(s: Board, c: Id, t: Id)
    requires c in s.clients && t in s.calls
    ensures FinishFrame(s, LetGo(s, c, t), c)
  {
  }

  lemma KeepReplyFrames(s: Board, c: Id, t: Id)
    requires c in s.clients && s.clients[c].wait4 == Nothing && t in s.calls && s.calls[t].client in s.clients
    ensures FinishFrame(s, KeepReply(s, t), c)
  {
    hide Without;
  }

  lemma FrameTransitive(a: Board, b: Board, r: Board, c: Id)
    requires FinishFrame(a, b, c) && FinishFrame(b, r, c)
    ensures FinishFrame(a, r, c)
  {
  }

  lemma FinishFrames(s: Board, c: Id, t: Id, seesAny: bool)
    requires c in s.clients && t in s.calls && Finish(s, c, t, seesAny).Ok?
    ensures FinishFrame(s, Finish(s, c, t, seesAny).board, c)
  {
    assert s.calls[t].client in s.clients;
    hide Without, Distinct, SndReply, KeepReply, Finish;
    FinishIs(s, c, t, seesAny);
    LetGoFrames(s, c, t);
    var s1, to := LetGo(s, c, t), s.calls[t].client;
    if s1.clients[to].wait4 == For(t) || (seesAny && s1.clients[to].wait4 == AnyReply) {
      SndReplyFrames(s1, t);
    } else {
      KeepReplyFrames(s1, c, t);
    }
    FrameTransitive(s, s1, Finish(s, c, t, seesAny).board, c);
  }

  lemma SndReplyFrames(s: Board, t: Id)
    requires SndReply(s, t).Ok?
    ensures var r := SndReply(s, t).board;
      && r.clients.Keys == s.clients.Keys
      && (forall d :: d in s.clients ==> r.clients[d].adverts == s.clients[d].adverts)
      && (forall d :: d in s.clients && !s.clients[d].conn.Running? ==> !r.clients[d].conn.Running?)
      && (forall d :: d in s.clients ==> r.clients[d].wait4 == s.clients[d].wait4 || r.clients[d].wait4 == Nothing)
      && (forall u :: u in r.calls ==> u in s.calls && r.calls[u].client == s.calls[u].client)
      && (forall u :: u in s.calls && u != t ==> u in r.calls && r.calls[u] == s.calls[u])
      && !r.clients[s.calls[t].client].conn.Running? && r.clients[s.calls[t].client].wait4 == Nothing
  {
    hide Without, Distinct;
    SndReplyIs(s, t);
    DelCallLess(Resume(Say(s, ReplyEntry(s, t)), s.calls[t].client), t);
  }

  /** A departing worker executes a call whose submitter waits for any reply: as written, it is not told. */
  predicate AbandonsAnyWaiter(s: Board, c: Id) {
    c in s.clients && s.clients[c].wait4.For? && s.clients[c].wait4.call in s.calls
    && var k := s.calls[s.clients[c].wait4.call];
       k.executor == Some(c) && k.client in s.clients && s.clients[k.client].wait4 == AnyReply
  }

  lemma ClosingGrows(s: Board, k: Slack, closing: set<Id>)
    requires InvX(s, k) && k.closing <= closing
    ensures InvX(s, k.(closing := closing))
  {
    hide Distinct, Tables, Lists, Queues, Workers, Waiters, Phases, Cds;
  }

  lemma NotArriving(s: Board, t: Id)
    requires InvX(s, TIGHT) && t in s.calls && s.calls[t].executor.Some?
    ensures !Arriving(s, t)
  {
    hide Distinct;
    if Arriving(s, t) { assert false; }
  }

  lemma IdleExecutesNothing(s: Board, c: Id, k: Slack)
    requires InvX(s, k) && c in s.clients
    requires s.clients[c].wait4.For? && s.clients[c].wait4.call in s.calls ==> s.calls[s.clients[c].wait4.call].executor != Some(c)
    ensures ExecutesNothing(s, c)
  {
    hide Distinct, Tables, Lists, Queues, Waiters, Buffers, Phases, Cds;
  }

  lemma InvWaited(s: Board, c: Id, k: Slack)
    requires InvX(s, k) && c in s.clients && s.clients[c].wait4.For?
    ensures var t := s.clients[c].wait4.call; t in s.calls && s.calls[t].client in s.clients
  {
    hide Distinct, Tables, Queues, Buffers, Phases, Cds;
    WaitedIsLive(s, c);
    var t := s.clients[c].wait4.call;
    assert Pending(s, t) || Done(s, t);
  }

  lemma AbandonWorkKeeps(fx: Fixes, s: Board, c: Id)
    requires InvX(s, TIGHT) && c in s.clients && (fx.wakeAny || !AbandonsAnyWaiter(s, c))
    ensures AbandonWork(fx, s, c).Ok? && InvX(AbandonWork(fx, s, c).board, Slack({}, {c}, {}))
    ensures var r := AbandonWork(fx, s, c).board;
      c in r.clients && ExecutesNothing(r, c) && r.clients[c].adverts == s.clients[c].adverts
      && r.clients.Keys == s.clients.Keys && (Quiet(s, c) ==> Quiet(r, c))
      && (forall u :: u in r.calls ==> u in s.calls && r.calls[u].client == s.calls[u].client)
      && (forall d :: d in s.clients ==> r.clients[d].wait4 == s.clients[d].wait4 || r.clients[d].wait4 == Nothing)
  {
    hide InvX, Finish, ExecutesNothing;
    var k := Slack({}, {c}, {});
    ClosingGrows(s, TIGHT, {c});
    if s.clients[c].wait4.For? {
      InvWaited(s, c, TIGHT);
      var t := s.clients[c].wait4.call;
      if s.calls[t].executor == Some(c) {
        NotArriving(s, t);
        RewriteKeeps(s, t, Failed(s, c, t).calls[t], k);
        SayKeeps(PutCall(s, t, Failed(s, c, t).calls[t]), Abandoned(c, t), k);
        FinishKeeps(Failed(s, c, t), c, t, fx.wakeAny, k);
        FinishFrames(Failed(s, c, t), c, t, fx.wakeAny);
        assert k.(limbo := k.limbo - {t}) == k;
        IdleExecutesNothing(Finish(Failed(s, c, t), c, t, fx.wakeAny).board, c, k);
      } else {
        IdleExecutesNothing(s, c, TIGHT);
      }
    } else {
      IdleExecutesNothing(s, c, TIGHT);
    }
  }

  lemma WaitedIsLive(s: Board, c: Id)
    requires Lists(s) && Workers(s) && Waiters(s) && c in s.clients && s.clients[c].wait4.For?
    ensures s.clients[c].wait4.call in s.calls
  {
    hide Distinct;
  }

  // ---------- del_client ----------

  /**
   `del_client` runs to its end, takes the client out, and keeps the invariant.
   */
  lemma DelClientKeeps(fx: Fixes, s: Board, c: Id, order: seq<Id>)
    requires InvX(s, TIGHT) && c in s.clients && Quiet(s, c) && Walks(order, s.clients[c].adverts.Keys)
    requires fx.wakeAny || !AbandonsAnyWaiter(s, c)
    ensures DelClient(fx, s, c, order).Ok? && Inv(DelClient(fx, s, c, order).board)
    ensures DelClient(fx, s, c, order).board.clients.Keys == s.clients.Keys - {c}
    ensures var r := DelClient(fx, s, c, order).board;
      && (forall t :: t in r.calls ==> t in s.calls && r.calls[t].client == s.calls[t].client)
      && (forall d :: d in r.clients ==> r.clients[d].wait4 == s.clients[d].wait4 || r.clients[d].wait4 == Nothing)
  {
    hide Without, Distinct, InvX, Walks, ExecutesNothing;
    var k := Slack({}, {c}, {});
    AbandonWorkKeeps(fx, s, c);
    var s1 := AbandonWork(fx, s, c).board;
    DelAdvertsKeeps(s1, c, order, k);
    var s2 := DelAdverts(s1, c, order).board;
    LessQuiet(s1, s2, c);
    DelRequestsKeeps(s2, c, k);
    var s3 := DelRequests(s2, c).board;
    LessQuiet(s2, s3, c);
    DelRepliesKeeps(s3, c, k);
    var s4 := DelReplies(s3, c).board;
    LessQuiet(s3, s4, c);
    RemoveClientKeeps(s4, c, k);
    assert k.(closing := k.closing - {c}) == TIGHT;
    assert s4.clients.Keys == s.clients.Keys;
  }
}
