/** Services and advertisements come and go. */
module Registry {
  import opened Sequences
  import opened Wire
  import opened Board
  import opened Invariant
  import opened DeleteCall
  import opened Touch

  // ---------- a service is created and advertised ----------

  function Bared(s: Board, name: Name, bare: set<Id>): set<Id> {
    if name in s.index then bare else bare + {s.next}
  }

  lemma NewServiceTables(s: Board, name: Name, bare: set<Id>)
    requires Tables(s, bare)
    ensures Tables(NewService(s, name), Bared(s, name, bare)) && name in NewService(s, name).index
  {
    hide Indexed, Offered;
    NewServiceIndexed(s, name);
    NewServiceOffered(s, name, bare);
  }

  lemma NewServiceIndexed(s: Board, name: Name)
    requires Serials(s) && Indexed(s)
    ensures Indexed(NewService(s, name))
  {
  }

  lemma NewServiceOffered(s: Board, name: Name, bare: set<Id>)
    requires Offered(s, bare)
    ensures Offered(NewService(s, name), Bared(s, name, bare))
  {
    var r := NewService(s, name);
    forall v | v in r.services && v !in Bared(s, name, bare) ensures exists c :: Advertises(r, c, v) {
      var c :| Advertises(s, c, v);
      assert Advertises(r, c, v);
    }
  }

  lemma NewServiceLists(s: Board, name: Name)
    requires Lists(s)
    ensures Lists(NewService(s, name))
  {
    hide Lists;
    ListsStay(s, NewService(s, name));
  }

  lemma NewServiceWorkers(s: Board, name: Name)
    requires Workers(s) && Waiters(s)
    ensures Workers(NewService(s, name)) && Waiters(NewService(s, name))
  {
  }

  lemma NewServiceQueues(s: Board, name: Name)
    requires Serials(s) && AdvertsLive(s) && Queues(s)
    ensures Queues(NewService(s, name))
  {
    hide QueuesDistinct, QueuedCalls, QueuedWorkers;
    NewServiceQueued(s, name);
    var r := NewService(s, name);
    forall c, v | c in r.clients && r.clients[c].conn.IdleWorker? && v in r.clients[c].adverts && v in r.services
      ensures WorkerNode(c) in r.services[v].waitq
    {
      assert v in s.services;
    }
  }

  lemma NewServiceQueued(s: Board, name: Name)
    requires Serials(s) && QueuesDistinct(s) && QueuedCalls(s) && QueuedWorkers(s)
    ensures QueuesDistinct(NewService(s, name)) && QueuedCalls(NewService(s, name)) && QueuedWorkers(NewService(s, name))
  {
    hide QueuedCalls, QueuedWorkers;
    NewServiceNodes(s, name);
  }

  lemma NewServiceNodes(s: Board, name: Name)
    requires Serials(s) && QueuedCalls(s) && QueuedWorkers(s)
    ensures QueuedCalls(NewService(s, name)) && QueuedWorkers(NewService(s, name))
  {
    var r := NewService(s, name);
    forall v, u | v in r.services && CallNode(u) in r.services[v].waitq
      ensures r.services[v].holdsCalls && Pending(r, u) && r.calls[u].svc == v && r.calls[u].executor.None? && !Arriving(r, u)
    {
      assert v in s.services && CallNode(u) in s.services[v].waitq;
    }
  }

  lemma NewServiceBuffers(s: Board, name: Name, k: Slack)
    requires Serials(s) && Buffers(s, k.closing) && Phases(s, k.limbo)
    ensures Buffers(NewService(s, name), k.closing) && Phases(NewService(s, name), k.limbo)
  {
    var r := NewService(s, name);
    forall d | d in r.clients && d !in k.closing && r.clients[d].conn.Receiving? && r.clients[d].conn.input.DataOf?
      ensures DataFits(r, d)
    {
      assert DataFits(s, d);
    }
    forall u | Pending(r, u) && u !in k.limbo ensures Executing(r, u) || Queued(r, u) || Arriving(r, u) {
      assert Pending(s, u);
    }
  }

  lemma NewServiceKeeps(s: Board, name: Name, k: Slack)
    requires InvX(s, k)
    ensures InvX(NewService(s, name), k.(bare := Bared(s, name, k.bare))) && name in NewService(s, name).index
  {
    hide Distinct, Lists, Queues, Workers, Waiters, Buffers, Phases, Cds;
    NewServiceTables(s, name, k.bare);
    NewServiceLists(s, name);
    NewServiceWorkers(s, name);
    NewServiceQueues(s, name);
    NewServiceBuffers(s, name, k);
  }

  function AddAdvert(s: Board, c: Id, v: Id, o: int): Board
    requires c in s.clients
  {
    PutClient(s, c, s.clients[c].(adverts := s.clients[c].adverts[v := o]))
  }

  lemma AddAdvertTables(s: Board, c: Id, v: Id, o: int, bare: set<Id>)
    requires c in s.clients && v in s.services && Tables(s, bare)
    ensures Tables(AddAdvert(s, c, v, o), bare - {v})
  {
    var r := AddAdvert(s, c, v, o);
    assert Advertises(r, c, v);
    forall x | x in r.services && x !in bare - {v} ensures exists c :: Advertises(r, c, x) {
      if x != v {
        var d :| Advertises(s, d, x);
        assert Advertises(r, d, x);
      }
    }
  }

  lemma AddAdvertLists(s: Board, c: Id, v: Id, o: int)
    requires c in s.clients && Lists(s) && Waiters(s)
    ensures Lists(AddAdvert(s, c, v, o)) && Waiters(AddAdvert(s, c, v, o))
  {
    hide Without, Distinct, Lists;
    var r := AddAdvert(s, c, v, o);
    assert ListsAlike(s, r);
    ListsStay(s, r);
  }

  lemma AddAdvertQueues(s: Board, c: Id, v: Id, o: int)
    requires c in s.clients && !s.clients[c].conn.IdleWorker? && Queues(s) && Workers(s)
    ensures Queues(AddAdvert(s, c, v, o)) && Workers(AddAdvert(s, c, v, o))
  {
    hide Distinct, QueuedCalls, Workers;
    AddAdvertQueued(s, c, v, o);
    AddAdvertWorkers(s, c, v, o);
  }

  lemma AddAdvertQueued(s: Board, c: Id, v: Id, o: int)
    requires c in s.clients && QueuedCalls(s)
    ensures QueuedCalls(AddAdvert(s, c, v, o))
  {
    var r := AddAdvert(s, c, v, o);
    forall w, u | w in r.services && CallNode(u) in r.services[w].waitq
      ensures r.services[w].holdsCalls && Pending(r, u) && r.calls[u].svc == w && r.calls[u].executor.None? && !Arriving(r, u)
    {
      assert CallNode(u) in s.services[w].waitq;
    }
  }

  lemma AddAdvertWorkers(s: Board, c: Id, v: Id, o: int)
    requires c in s.clients && Workers(s)
    ensures Workers(AddAdvert(s, c, v, o))
  {
  }

  lemma AddAdvertBuffers(s: Board, c: Id, v: Id, o: int, k: Slack)
    requires c in s.clients && Buffers(s, k.closing) && Phases(s, k.limbo)
    ensures Buffers(AddAdvert(s, c, v, o), k.closing) && Phases(AddAdvert(s, c, v, o), k.limbo)
  {
    var r := AddAdvert(s, c, v, o);
    forall d | d in r.clients && d !in k.closing && r.clients[d].conn.Receiving? && r.clients[d].conn.input.DataOf?
      ensures DataFits(r, d)
    {
      assert DataFits(s, d);
    }
    forall u | Pending(r, u) && u !in k.limbo ensures Executing(r, u) || Queued(r, u) || Arriving(r, u) {
      assert Pending(s, u);
    }
  }

  lemma AddAdvertKeeps(s: Board, c: Id, v: Id, o: int, k: Slack)
    requires InvX(s, k) && c in s.clients && v in s.services && !s.clients[c].conn.IdleWorker?
    ensures InvX(AddAdvert(s, c, v, o), k.(bare := k.bare - {v}))
  {
    hide Distinct, Tables, Lists, Queues, Workers, Waiters, Buffers, Phases, Cds;
    AddAdvertTables(s, c, v, o, k.bare);
    AddAdvertLists(s, c, v, o);
    AddAdvertQueues(s, c, v, o);
    AddAdvertBuffers(s, c, v, o, k);
  }

  // ---------- an advertisement goes ----------

  ghost predicate NotExecutingAt(s: Board, c: Id, v: Id) {
    forall t :: t in s.calls && s.calls[t].executor == Some(c) ==> s.calls[t].svc != v
  }

  lemma DropAdvertTables(s: Board, c: Id, v: Id, bare: set<Id>)
    requires c in s.clients && Tables(s, bare)
    ensures Tables(DropAdvert(s, c, v), bare + {v})
  {
    hide Without;
    var r := DropAdvert(s, c, v);
    assert r.services.Keys == s.services.Keys;
    forall x | x in r.services && x !in bare + {v} ensures exists c :: Advertises(r, c, x) {
      var d :| Advertises(s, d, x);
      assert Advertises(r, d, x);
    }
  }

  lemma DropAdvertLists(s: Board, c: Id, v: Id)
    requires c in s.clients && Lists(s) && Waiters(s)
    ensures Lists(DropAdvert(s, c, v)) && Waiters(DropAdvert(s, c, v))
  {
    hide Without, Distinct, Lists;
    var r := DropAdvert(s, c, v);
    assert ListsAlike(s, r);
    ListsStay(s, r);
  }

  lemma DropAdvertQueues(s: Board, c: Id, v: Id)
    requires c in s.clients && Queues(s)
    ensures Queues(DropAdvert(s, c, v))
  {
    hide Without, Distinct;
  }

  lemma DropAdvertWorkers(s: Board, c: Id, v: Id)
    requires c in s.clients && Workers(s) && NotExecutingAt(s, c, v)
    ensures Workers(DropAdvert(s, c, v))
  {
    hide Without, Distinct;
  }

  lemma DropAdvertBuffers(s: Board, c: Id, v: Id, k: Slack)
    requires c in s.clients && Buffers(s, k.closing) && Phases(s, k.limbo)
    ensures Buffers(DropAdvert(s, c, v), k.closing) && Phases(DropAdvert(s, c, v), k.limbo)
  {
    hide Without, Distinct;
    var r := DropAdvert(s, c, v);
    forall d | d in r.clients && d !in k.closing && r.clients[d].conn.Receiving? && r.clients[d].conn.input.DataOf?
      ensures DataFits(r, d)
    {
      assert DataFits(s, d);
    }
    forall u | Pending(r, u) && u !in k.limbo ensures Executing(r, u) || Queued(r, u) || Arriving(r, u) {
      assert Pending(s, u);
    }
  }

  lemma DropAdvertKeeps(s: Board, c: Id, v: Id, k: Slack)
    requires InvX(s, k) && c in s.clients && NotExecutingAt(s, c, v)
    ensures InvX(DropAdvert(s, c, v), k.(bare := k.bare + {v}))
  {
    hide Without, Distinct, Tables, Lists, Queues, Workers, Waiters, Buffers, Phases, Cds;
    DropAdvertTables(s, c, v, k.bare);
    DropAdvertLists(s, c, v);
    DropAdvertQueues(s, c, v);
    DropAdvertWorkers(s, c, v);
    DropAdvertBuffers(s, c, v, k);
  }

  // ---------- a service goes ----------

  /** From `s` to `r` only calls went, unchanged until then; `wait4` may have been cleared. */
  ghost predicate OnlyLess(s: Board, r: Board) {
    && r.clients.Keys == s.clients.Keys
    && (forall c :: c in s.clients ==>
          r.clients[c].conn == s.clients[c].conn
          && (r.clients[c].wait4 == s.clients[c].wait4 || r.clients[c].wait4 == Nothing))
    && (forall t :: t in r.calls ==> t in s.calls && r.calls[t] == s.calls[t])
    && r.next == s.next
    && r.log == s.log
  }

  ghost predicate SameAdverts(s: Board, r: Board) {
    forall c :: c in s.clients && c in r.clients ==> r.clients[c].adverts == s.clients[c].adverts
  }

  lemma DelCallLess(s: Board, t: Id)
    requires t in s.calls
    ensures OnlyLess(s, DelCall(s, t)) && SameAdverts(s, DelCall(s, t))
    ensures DelCall(s, t).services.Keys == s.services.Keys
    ensures forall v :: v in s.services ==> DelCall(s, t).services[v].name == s.services[v].name
  {
    hide Without, Distinct;
  }

  lemma LessTransitive(a: Board, b: Board, c: Board)
    requires OnlyLess(a, b) && OnlyLess(b, c)
    ensures OnlyLess(a, c)
  {
  }

  /** When nobody advertises `v`, its queue holds calls only, so `del_service` never turns to an advertisement. */
  lemma {:induction false} DrainKeeps(s: Board, v: Id, k: Slack)
    requires InvX(s, k) && v in s.services && !SomeoneAdvertises(s, v)
    ensures Drain(s, v).Ok? && InvX(Drain(s, v).board, k)
    ensures var r := Drain(s, v).board;
      OnlyLess(s, r) && SameAdverts(s, r) && r.services.Keys == s.services.Keys && r.services[v].waitq == []
    decreases |s.services[v].waitq|
  {
    hide Without, Distinct, Tables, Lists, Workers, Waiters, Buffers, Phases, Cds, OnlyLess;
    if s.services[v].waitq == [] {
      assert OnlyLess(s, s) by { LessReflexive(s); }
    } else {
      var n := s.services[v].waitq[0];
      assert n in s.services[v].waitq;
      if n.WorkerNode? {
        assert false;
      } else {
        var t := n.call;
        DelCallKeeps(s, t, k);
        DelCallLess(s, t);
        var s1 := DelCall(s, t);
        assert InvX(s1, k) by { LimboShrinks(s1, k, t); }
        assert s1.clients.Keys == s.clients.Keys by { LessKeys(s, s1); }
        DrainKeeps(s1, v, k);
        LessTransitive(s, s1, Drain(s1, v).board);
        LessKeys(s1, Drain(s1, v).board);
      }
    }
  }

  lemma LessReflexive(s: Board)
    ensures OnlyLess(s, s)
  {
  }

  lemma LessKeys(s: Board, r: Board)
    requires OnlyLess(s, r)
    ensures r.clients.Keys == s.clients.Keys
  {
  }

  lemma LimboShrinks(s: Board, k: Slack, t: Id)
    requires InvX(s, k.(limbo := k.limbo - {t}))
    ensures InvX(s, k)
  {
    hide Distinct, Tables, Lists, Queues, Workers, Waiters, Buffers, Cds;
  }

  function RemoveService(s: Board, v: Id): Board
    requires v in s.services
  {
    s.(services := s.services - {v}, index := s.index - {s.services[v].name})
  }

  lemma RemoveServiceTables(s: Board, v: Id, bare: set<Id>)
    requires v in s.services && !SomeoneAdvertises(s, v) && Tables(s, bare)
    ensures Tables(RemoveService(s, v), bare - {v})
  {
    var r := RemoveService(s, v);
    forall x | x in r.services && x !in bare - {v} ensures exists c :: Advertises(r, c, x) {
      var d :| Advertises(s, d, x);
      assert Advertises(r, d, x);
    }
  }

  lemma RemoveServiceLists(s: Board, v: Id)
    requires v in s.services && Lists(s) && Workers(s) && Waiters(s)
    ensures Lists(RemoveService(s, v)) && Workers(RemoveService(s, v)) && Waiters(RemoveService(s, v))
  {
    hide Distinct;
    var r := RemoveService(s, v);
    forall u | u in r.calls ensures Pending(r, u) || Done(r, u) {
      assert Pending(s, u) || Done(s, u);
    }
  }

  lemma RemoveServiceQueues(s: Board, v: Id)
    requires v in s.services && Queues(s)
    ensures Queues(RemoveService(s, v))
  {
    hide Distinct;
  }

  lemma RemoveServiceBuffers(s: Board, v: Id, k: Slack)
    requires v in s.services && s.services[v].waitq == [] && Buffers(s, k.closing) && Phases(s, k.limbo)
    ensures Buffers(RemoveService(s, v), k.closing) && Phases(RemoveService(s, v), k.limbo)
  {
    var r := RemoveService(s, v);
    forall d | d in r.clients && d !in k.closing && r.clients[d].conn.Receiving? && r.clients[d].conn.input.DataOf?
      ensures DataFits(r, d)
    {
      assert DataFits(s, d);
    }
    forall u | Pending(r, u) && u !in k.limbo ensures Executing(r, u) || Queued(r, u) || Arriving(r, u) {
      assert Pending(s, u);
    }
  }

  lemma RemoveServiceKeeps(s: Board, v: Id, k: Slack)
    requires InvX(s, k) && v in s.services && s.services[v].waitq == [] && !SomeoneAdvertises(s, v)
    ensures InvX(RemoveService(s, v), k.(bare := k.bare - {v}))
  {
    hide Distinct, Tables, Lists, Queues, Workers, Waiters, Buffers, Phases, Cds;
    RemoveServiceTables(s, v, k.bare);
    RemoveServiceLists(s, v);
    RemoveServiceQueues(s, v);
    RemoveServiceBuffers(s, v, k);
  }

  lemma DelServiceKeeps(s: Board, v: Id, k: Slack)
    requires InvX(s, k) && v in s.services && !SomeoneAdvertises(s, v)
    ensures DelService(s, v).Ok? && InvX(DelService(s, v).board, k.(bare := k.bare - {v}))
    ensures OnlyLess(s, DelService(s, v).board) && SameAdverts(s, DelService(s, v).board)
  {
    hide Without, Distinct, Tables, Lists, Queues, Workers, Waiters, Buffers, Phases, Cds;
    DrainKeeps(s, v, k);
    var s1 := Drain(s, v).board;
    assert !SomeoneAdvertises(s1, v);
    RemoveServiceKeeps(s1, v, k);
  }

  // ---------- del_advertisement ----------

  /** All clients advertise what they did, except that `c` lost `v`. */
  ghost predicate AdvertGone(s: Board, r: Board, c: Id, v: Id) {
    forall d :: d in s.clients && d in r.clients ==>
      r.clients[d].adverts == if d == c then s.clients[d].adverts - {v} else s.clients[d].adverts
  }

  lemma DropAdvertLess(s: Board, c: Id, v: Id)
    requires c in s.clients
    ensures OnlyLess(s, DropAdvert(s, c, v)) && AdvertGone(s, DropAdvert(s, c, v), c, v)
    ensures DropAdvert(s, c, v).services.Keys == s.services.Keys
  {
    hide Without, Distinct;
  }

  lemma DelAdvertKeeps(s: Board, c: Id, v: Id, k: Slack)
    requires InvX(s, k) && Advertises(s, c, v) && NotExecutingAt(s, c, v)
    ensures DelAdvert(s, c, v).Ok? && InvX(DelAdvert(s, c, v).board, k)
    ensures OnlyLess(s, DelAdvert(s, c, v).board) && AdvertGone(s, DelAdvert(s, c, v).board, c, v)
  {
    assert v in s.services;
    hide Without, Distinct, Tables, Lists, Queues, Workers, Waiters, Buffers, Phases, Cds;
    DropAdvertKeeps(s, c, v, k);
    DropAdvertLess(s, c, v);
    var s1, k1 := DropAdvert(s, c, v), k.(bare := k.bare + {v});
    if SomeoneAdvertises(s1, v) {
      Unbare(s1, v, k);
    } else {
      DelServiceKeeps(s1, v, k1);
      var r := DelService(s1, v).board;
      LessTransitive(s, s1, r);
      BareShrinks(r, k1.bare - {v}, k);
    }
  }

  lemma Unbare(s: Board, v: Id, k: Slack)
    requires InvX(s, k.(bare := k.bare + {v})) && SomeoneAdvertises(s, v)
    ensures InvX(s, k)
  {
    hide Distinct, Lists, Queues, Workers, Waiters, Buffers, Phases, Cds;
    var c :| c in s.clients && v in s.clients[c].adverts;
    assert Advertises(s, c, v);
  }

  lemma BareShrinks(s: Board, bare: set<Id>, k: Slack)
    requires InvX(s, k.(bare := bare)) && bare <= k.bare
    ensures InvX(s, k)
  {
    hide Distinct, Lists, Queues, Workers, Waiters, Buffers, Phases, Cds;
  }
}
