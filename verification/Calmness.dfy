/** Each small operation moves no call but the one it is about. */
module Calmness {
  import opened Sequences
  import opened Wire
  import opened Board
  import opened Touch
  import opened Answer
  import opened Dispatch
  import opened Registry
  import opened Departure
  import opened Steps
  import opened History

  lemma CalmSay(s: Board, e: Entry)
    ensures Calm(s, Say(s, e), {})
  {
  }

  lemma CalmTouch(s: Board, c: Id, cl': Client, x: set<Id>)
    requires c in s.clients && cl'.replies == s.clients[c].replies
    requires forall t :: ReadsBody(cl'.conn, t) ==> t in x || ReadsBody(s.clients[c].conn, t)
    ensures Calm(s, PutClient(s, c, cl'), x)
  {
    var r := PutClient(s, c, cl');
    forall t | t in r.calls && t !in x ensures StageKept(s, r, t) {
      assert ReadsBody(cl'.conn, t) ==> ReadsBody(s.clients[c].conn, t);
    }
  }

  lemma CalmPutCall(s: Board, t: Id, k': Call)
    requires t in s.calls
    ensures Calm(s, PutCall(s, t, k'), {t})
  {
  }

  lemma CalmNewCall(s: Board, c: Id, svc: Id, len: nat, flags: int, env: Env)
    requires c in s.clients && NewCall(s, c, svc, len, flags, env).Ok?
    ensures Calm(s, NewCall(s, c, svc, len, flags, env).board, {s.next})
  {
  }

  lemma CalmEnqueue(s: Board, t: Id)
    requires t in s.calls && s.calls[t].svc in s.services
    ensures Calm(s, Enqueue(s, t), {t})
  {
  }

  lemma CalmPark(s: Board, c: Id)
    requires c in s.clients
    ensures Calm(s, Park(s, c), {})
  {
  }

  lemma CalmHand(s: Board, w: Id, t: Id)
    requires w in s.clients && t in s.calls
    ensures Calm(s, Hand(s, w, t), {t})
  {
    hide Without, Distinct;
  }

  lemma CalmLetGo(s: Board, c: Id, t: Id)
    requires c in s.clients && t in s.calls
    ensures Calm(s, LetGo(s, c, t), {t})
  {
  }

  lemma CalmKeepReply(s: Board, t: Id)
    requires t in s.calls && s.calls[t].client in s.clients
    ensures Calm(s, KeepReply(s, t), {t})
  {
    hide Without, Distinct;
  }

  lemma CalmDelCall(s: Board, t: Id)
    requires t in s.calls
    ensures Calm(s, DelCall(s, t), {})
  {
    hide Without, Distinct;
  }

  lemma CalmNewService(s: Board, name: Name)
    ensures Calm(s, NewService(s, name), {})
  {
  }

  lemma CalmAddClient(s: Board)
    ensures Calm(s, AddClient(s), {})
  {
  }

  lemma CalmRemoveClient(s: Board, c: Id)
    ensures Calm(s, RemoveClient(s, c), {})
  {
  }

  lemma CalmReflexive(s: Board)
    ensures Calm(s, s, {})
  {
  }

  lemma CalmWeaken(s: Board, r: Board, x: set<Id>, y: set<Id>)
    requires Calm(s, r, x) && x <= y
    ensures Calm(s, r, y)
  {
    hide StageKept;
  }

  // ---------- deletions ----------

  lemma CalmDropAdvert(s: Board, c: Id, v: Id)
    requires c in s.clients
    ensures Calm(s, DropAdvert(s, c, v), {})
  {
    hide Without, Distinct;
  }

  lemma CalmRemoveService(s: Board, v: Id)
    requires v in s.services
    ensures Calm(s, RemoveService(s, v), {})
  {
  }

  /** Calm, and the log and the serial number stay. */
  ghost predicate Still(s: Board, r: Board) {
    Calm(s, r, {}) && r.log == s.log && r.next == s.next
  }

  lemma StillTransitive(a: Board, b: Board, r: Board)
    requires Still(a, b) && Still(b, r)
    ensures Still(a, r)
  {
    hide Calm;
    CalmTransitive(a, b, r, {});
  }

  lemma StillDelCall(s: Board, t: Id)
    requires t in s.calls
    ensures Still(s, DelCall(s, t))
  {
    hide Without, Calm;
    CalmDelCall(s, t);
  }

  lemma {:induction false} StillDrain(s: Board, v: Id)
    requires Drain(s, v).Ok?
    ensures Still(s, Drain(s, v).board)
    decreases if v in s.services then |s.services[v].waitq| else 0
  {
    hide Still, DelCall;
    if s.services[v].waitq == [] {
      StillReflexive(s);
    } else {
      var t := s.services[v].waitq[0].call;
      StillDelCall(s, t);
      assert v in DelCall(s, t).services && |DelCall(s, t).services[v].waitq| < |s.services[v].waitq| by {
        QueueShrinks(s, t, v);
      }
      StillDrain(DelCall(s, t), v);
      StillTransitive(s, DelCall(s, t), Drain(s, v).board);
    }
  }

  lemma QueueShrinks(s: Board, t: Id, v: Id)
    requires t in s.calls && v in s.services && CallNode(t) in s.services[v].waitq
    ensures v in DelCall(s, t).services && |DelCall(s, t).services[v].waitq| < |s.services[v].waitq|
    ensures forall u :: CallNode(u) in DelCall(s, t).services[v].waitq ==> CallNode(u) in s.services[v].waitq
  {
    hide Without, Distinct;
  }

  lemma StillReflexive(s: Board)
    ensures Still(s, s)
  {
    hide Calm;
    CalmReflexive(s);
  }

  lemma StillDelAdvert(s: Board, c: Id, v: Id)
    requires DelAdvert(s, c, v).Ok?
    ensures Still(s, DelAdvert(s, c, v).board)
  {
    hide Calm, Without, Drain;
    CalmDropAdvert(s, c, v);
    var s1 := DropAdvert(s, c, v);
    assert Still(s, s1);
    if !SomeoneAdvertises(s1, v) {
      StillDrain(s1, v);
      CalmRemoveService(Drain(s1, v).board, v);
      StillTransitive(s1, Drain(s1, v).board, DelAdvert(s, c, v).board);
      StillTransitive(s, s1, DelAdvert(s, c, v).board);
    }
  }

  lemma {:induction false} StillDelAdverts(s: Board, c: Id, order: seq<Id>)
    requires DelAdverts(s, c, order).Ok?
    ensures Still(s, DelAdverts(s, c, order).board)
    decreases |order|
  {
    hide Still, DelAdvert;
    if order == [] {
      StillReflexive(s);
    } else {
      StillDelAdvert(s, c, order[0]);
      StillDelAdverts(DelAdvert(s, c, order[0]).board, c, order[1..]);
      StillTransitive(s, DelAdvert(s, c, order[0]).board, DelAdverts(s, c, order).board);
    }
  }

  lemma {:induction false} StillDelRequests(s: Board, c: Id)
    requires DelRequests(s, c).Ok?
    ensures Still(s, DelRequests(s, c).board)
    decreases if c in s.clients then |s.clients[c].requests| else 0
  {
    hide Still, DelCall, Without;
    if s.clients[c].requests == [] {
      StillReflexive(s);
    } else {
      var t := s.clients[c].requests[0];
      StillDelCall(s, t);
      DelCallLists(s, c, t);
      assert c in DelCall(s, t).clients by { DelCallLess(s, t); }
      StillDelRequests(DelCall(s, t), c);
      StillTransitive(s, DelCall(s, t), DelRequests(s, c).board);
    }
  }

  lemma {:induction false} StillDelReplies(s: Board, c: Id)
    requires DelReplies(s, c).Ok?
    ensures Still(s, DelReplies(s, c).board)
    decreases if c in s.clients then |s.clients[c].replies| else 0
  {
    hide Still, DelCall, Without;
    if s.clients[c].replies == [] {
      StillReflexive(s);
    } else {
      var t := s.clients[c].replies[0];
      StillDelCall(s, t);
      DelCallLists(s, c, t);
      assert c in DelCall(s, t).clients by { DelCallLess(s, t); }
      StillDelReplies(DelCall(s, t), c);
      StillTransitive(s, DelCall(s, t), DelReplies(s, c).board);
    }
  }
}
