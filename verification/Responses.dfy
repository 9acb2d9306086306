/** What the switchboard answers to each request, in terms of what the clients have done. */
module Responses {
  import opened Sequences
  import opened Wire
  import opened Descriptors
  import opened Board
  import opened Invariant
  import opened Answer
  import opened Calmness
  import opened Departure
  import opened Handlers
  import opened Steps
  import opened Framing
  import opened Steadiness
  import opened Stream
  import opened Messages
  import opened Conservation

  /** From a good state, the allowed event `e` completes the request `b` of `c` and leads to `r`. */
  ghost predicate HandlesRequest(fx: Fixes, s: Board, e: Event, r: Board, c: Id, h: Handler, b: seq<byte>) {
    && Inv(s) && Possible(s, e) && Allowed(fx, s, e) && Step(fx, s, e) == Ok(r)
    && FrameOf(s, e, c) == [Framed(h, b)]
  }

  /** The one thing that is written is `x`. */
  predicate Wrote(s: Board, r: Board, x: Entry) {
    r.log == s.log + [x]
  }

  /** Nothing but what is written and the state of connections changes. */
  predicate NothingElse(s: Board, r: Board, c: Id) {
    && r == s.(clients := r.clients, log := r.log) && c in s.clients
    && r.clients == s.clients[c := s.clients[c].(conn := NEXT)]
  }

  lemma OnlyOne(s: Board, r: Board, x: Entry, y: Entry)
    requires Wrote(s, r, x)
    ensures Wrote(s, r, y) <==> x == y
    ensures r.log != s.log
  {
    assert r.log[|s.log|] == x;
  }

  lemma RequestRuns(fx: Fixes, s: Board, e: Event, r: Board, c: Id, h: Handler, b: seq<byte>)
    requires HandlesRequest(fx, s, e, r, c, h, b) && !h.CallBody? && !h.ReturnBody?
    ensures e.Read? && e.c == c && c in s.clients && s.clients[c].conn.Receiving? && |b| == CommandLength(h)
    ensures RunHandler(fx, Unarm(s, c), c, h, b, e.env) == Ok(r)
  {
    hide Inv, Possible, Allowed, Step, RunHandler;
    FrameIsHandled(fx, s, c, e.chunk, e.env);
  }

  // ---------- replies by descriptor ----------

  /** The call is one of `c`, under this descriptor. */
  predicate Of(s: Board, c: Id, cd: Short, t: Id) {
    t in s.calls && s.calls[t].client == c && s.calls[t].cd == cd
  }

  predicate Parks(r: Board, c: Id, w: Wait) {
    c in r.clients && r.clients[c].conn.AwaitReply? && r.clients[c].wait4 == w
  }

  ghost predicate Kept(s: Board, c: Id, cd: Short) {
    exists t :: Of(s, c, cd, t) && Done(s, t)
  }

  ghost predicate StillOut(s: Board, c: Id, cd: Short) {
    exists t :: Of(s, c, cd, t) && Pending(s, t)
  }

  lemma OneOf(s: Board, c: Id, cd: Short, t: Id, u: Id)
    requires Inv(s) && Of(s, c, cd, t) && Of(s, c, cd, u)
    ensures t == u
  {
    hide Tables, Lists, Queues, Workers, Waiters, Buffers, Phases;
  }

  /** A live call of `c` is on exactly one of its lists, and only its own calls are. */
  lemma OnItsList(s: Board, c: Id, t: Id)
    requires Inv(s) && c in s.clients
    ensures t in s.clients[c].replies <==> Done(s, t) && s.calls[t].client == c
    ensures t in s.clients[c].requests <==> Pending(s, t) && s.calls[t].client == c
    ensures t in s.calls && s.calls[t].client == c ==> Pending(s, t) != Done(s, t)
  {
    hide Tables, Queues, Workers, Waiters, Buffers, Phases, Cds, Distinct;
  }

  /** The search of a list of `c` finds the call of `c` under a descriptor exactly if it is there. */
  lemma FindsOwn(s: Board, c: Id, cd: Short, q: seq<Id>)
    requires Inv(s) && c in s.clients && (q == s.clients[c].replies || q == s.clients[c].requests)
    ensures FindCd(s.calls, q, cd).Some? ==> Of(s, c, cd, FindCd(s.calls, q, cd).value)
    ensures forall t: Id :: Of(s, c, cd, t) ==> FindCd(s.calls, q, cd) == if t in q then Some(t) else None
  {
    hide Inv, FindCd, Done, Pending;
    var f := FindCd(s.calls, q, cd);
    if f.Some? { OwnList(s, c, q, f.value); }
    forall t: Id | Of(s, c, cd, t) ensures f == if t in q then Some(t) else None {
      if f.Some? { OneOf(s, c, cd, t, f.value); }
    }
  }

  lemma OwnList(s: Board, c: Id, q: seq<Id>, t: Id)
    requires Inv(s) && c in s.clients && (q == s.clients[c].replies || q == s.clients[c].requests) && t in q
    ensures t in s.calls && s.calls[t].client == c
  {
    hide InvX;
    InvOwned(s, TIGHT);
  }

  lemma KeptIsSent(s: Board, c: Id, cd: Short, flags: int, r: Board, t: Id)
    requires Inv(s) && c in s.clients && !FlagSet(flags, TPGETANY) && SvrGetReply(Unarm(s, c), c, cd, flags) == Ok(r)
    requires Of(s, c, cd, t) && Done(s, t)
    ensures Wrote(s, r, ReplyEntry(s, t)) && c in r.clients && r.clients[c].conn == NEXT && t !in r.calls
  {
    hide Inv, FlagSet, SndReply, FindCd, WaitTarget;
    FindsOwn(s, c, cd, s.clients[c].replies);
    SentReply(s, c, t, r);
  }

  lemma OutIsAwaited(s: Board, c: Id, cd: Short, flags: int, r: Board, t: Id)
    requires Inv(s) && c in s.clients && !FlagSet(flags, TPGETANY) && SvrGetReply(Unarm(s, c), c, cd, flags) == Ok(r)
    requires Of(s, c, cd, t) && Pending(s, t)
    ensures if FlagSet(flags, TPNOBLOCK) then Wrote(s, r, NoReply(c, TPEBLOCK)) && c in r.clients && r.clients[c].conn == NEXT
            else r.log == s.log && Parks(r, c, For(t))
  {
    hide Inv, FlagSet, SndReply, FindCd;
    FindsOwn(s, c, cd, s.clients[c].replies);
    FindsOwn(s, c, cd, s.clients[c].requests);
    OnItsList(s, c, t);
  }

  lemma NoneIsRefused(s: Board, c: Id, cd: Short, flags: int, r: Board)
    requires Inv(s) && c in s.clients && !FlagSet(flags, TPGETANY) && SvrGetReply(Unarm(s, c), c, cd, flags) == Ok(r)
    requires forall t :: !Of(s, c, cd, t)
    ensures Wrote(s, r, NoReply(c, TPEBADDESC)) && c in r.clients && r.clients[c].conn == NEXT
  {
    hide Inv, FlagSet, SndReply, FindCd, Of;
    FindsOwn(s, c, cd, s.clients[c].replies);
    FindsOwn(s, c, cd, s.clients[c].requests);
  }

  lemma SentReply(s: Board, c: Id, t: Id, r: Board)
    requires c in s.clients && t in s.calls && s.calls[t].client == c && SndReply(Unarm(s, c), t) == Ok(r)
    ensures Wrote(s, r, ReplyEntry(s, t)) && c in r.clients && r.clients[c].conn == NEXT && t !in r.calls
  {
    hide Without;
  }

  /**
   A request for the reply under one descriptor is answered at once exactly when that reply is kept, and with
   that reply; with TPEBADDESC exactly when the client has no such call; and with TPEBLOCK exactly when the
   call is out and the client does not want to wait. It waits in the remaining case, for that very call.
   */
  lemma GetReplyByDescriptor(fx: Fixes, s: Board, e: Event, r: Board, c: Id, b: seq<byte>, cd: Short, flags: int)
    requires HandlesRequest(fx, s, e, r, c, GetReply, b) && |b| == CommandLength(GetReply)
    requires cd == AsShort(ToShort(b, 0)) && flags == ToLong(b, IOSHORT) && !FlagSet(flags, TPGETANY)
    ensures forall x: Entry :: x.Replied? && Wrote(s, r, x) ==>
      x.to == c && x.cd == cd && Of(s, c, cd, x.call) && Done(s, x.call) && x == ReplyEntry(s, x.call)
    ensures (exists x: Entry :: x.Replied? && Wrote(s, r, x)) <==> Kept(s, c, cd)
    ensures Wrote(s, r, NoReply(c, TPEBADDESC)) <==> forall t :: !Of(s, c, cd, t)
    ensures Wrote(s, r, NoReply(c, TPEBLOCK)) <==> StillOut(s, c, cd) && FlagSet(flags, TPNOBLOCK)
    ensures r.log == s.log <==> StillOut(s, c, cd) && !FlagSet(flags, TPNOBLOCK)
    ensures r.log == s.log || exists x :: Wrote(s, r, x)
    ensures forall w :: Parks(r, c, w) <==> w.For? && Of(s, c, cd, w.call) && Pending(s, w.call) && !FlagSet(flags, TPNOBLOCK)
  {
    hide Inv, Possible, Allowed, Step, FlagSet, SvrGetReply, ToLong, ToShort, AsShort, Done, Pending, Wrote;
    RequestRuns(fx, s, e, r, c, GetReply, b);
    forall x, y | Wrote(s, r, x) ensures Wrote(s, r, y) <==> x == y { OnlyOne(s, r, x, y); }
    forall x | Wrote(s, r, x) ensures r.log != s.log { OnlyOne(s, r, x, x); }
    if t :| Of(s, c, cd, t) {
      OnItsList(s, c, t);
      forall u | Of(s, c, cd, u) ensures t == u { OneOf(s, c, cd, t, u); }
      if Done(s, t) { KeptIsSent(s, c, cd, flags, r, t); } else { OutIsAwaited(s, c, cd, flags, r, t); }
    } else {
      NoneIsRefused(s, c, cd, flags, r);
    }
  }

  // ---------- any reply ----------

  /**
   A request for any reply gets the first on the list at once if one is kept; otherwise TPEBLOCK, or it waits,
   as the client wants.
   */
  lemma GetReplyAny(fx: Fixes, s: Board, e: Event, r: Board, c: Id, b: seq<byte>, flags: int)
    requires HandlesRequest(fx, s, e, r, c, GetReply, b) && |b| == CommandLength(GetReply)
    requires flags == ToLong(b, IOSHORT) && FlagSet(flags, TPGETANY)
    ensures c in s.clients && (s.clients[c].replies != [] ==>
      s.clients[c].replies[0] in s.calls && Wrote(s, r, ReplyEntry(s, s.clients[c].replies[0])))
    ensures s.clients[c].replies == [] ==> r.log == s.log || Wrote(s, r, NoReply(c, TPEBLOCK))
    ensures Wrote(s, r, NoReply(c, TPEBLOCK)) <==> s.clients[c].replies == [] && FlagSet(flags, TPNOBLOCK)
    ensures Parks(r, c, AnyReply) <==> s.clients[c].replies == [] && !FlagSet(flags, TPNOBLOCK)
    ensures r.log == s.log <==> Parks(r, c, AnyReply)
  {
    hide Inv, Possible, Allowed, Step, FlagSet, SndReply, NextCommand, ToLong, ToShort, AsShort;
    RequestRuns(fx, s, e, r, c, GetReply, b);
    var q := s.clients[c].replies;
    if q != [] {
      OwnList(s, c, q, q[0]);
      SentReply(s, c, q[0], r);
      OnlyOne(s, r, ReplyEntry(s, q[0]), NoReply(c, TPEBLOCK));
    } else if FlagSet(flags, TPNOBLOCK) {
      Armed(s, c, NoReply(c, TPEBLOCK), r);
      OnlyOne(s, r, NoReply(c, TPEBLOCK), NoReply(c, TPEBLOCK));
    }
  }

  /** An answer, and the next command. */
  lemma Armed(s: Board, c: Id, x: Entry, r: Board)
    requires c in s.clients && NextCommand(Say(Unarm(s, c), x), c) == Ok(r)
    ensures Wrote(s, r, x) && NothingElse(s, r, c) && r.clients[c].conn == NEXT
  {
  }

  // ---------- advertisements ----------

  /** `c` advertises a service of this name with the value `o`. */
  ghost predicate OffersName(s: Board, c: Id, name: Name, o: int) {
    exists v :: v in s.services && s.services[v].name == name && Offers(s, c, v, o)
  }

  ghost predicate Advertised(s: Board, c: Id, name: Name) {
    exists o :: OffersName(s, c, name, o)
  }

  /** `c` advertises this name with another value. */
  ghost predicate OffersOther(s: Board, c: Id, name: Name, o: int) {
    exists x :: x != o && OffersName(s, c, name, x)
  }

  /** In terms of the index. */
  lemma OffersIndexed(s: Board, c: Id, name: Name, o: int)
    requires Indexed(s) && AdvertsLive(s)
    ensures OffersName(s, c, name, o) <==> name in s.index && Offers(s, c, s.index[name], o)
    ensures Advertised(s, c, name) <==> name in s.index && Advertises(s, c, s.index[name])
  {
    if name in s.index && Advertises(s, c, s.index[name]) {
      assert OffersName(s, c, name, s.clients[c].adverts[s.index[name]]);
    }
  }

  /** The other advertisements of `c`, and those of everybody else, stay as they are. */
  ghost predicate OtherOffersStay(s: Board, r: Board, c: Id, name: Name) {
    forall d, n, x :: d != c || n != name ==> (OffersName(r, d, n, x) <==> OffersName(s, d, n, x))
  }

  /**
   An advertisement is answered with TPEMATCH exactly when the client already advertises the name with another
   value, which then stays; otherwise with 0, and the client then advertises it with the value given.
   */
  lemma AdvertiseAnswers(fx: Fixes, s: Board, e: Event, r: Board, c: Id, b: seq<byte>, name: Name, o: int)
    requires HandlesRequest(fx, s, e, r, c, Advertise, b) && |b| == CommandLength(Advertise)
    requires name == CutName(b) && o == ToLong(b, NAME_LENGTH)
    ensures Wrote(s, r, Status(c, TPEMATCH)) <==> OffersOther(s, c, name, o)
    ensures Wrote(s, r, Status(c, 0)) <==> !OffersOther(s, c, name, o)
    ensures OffersOther(s, c, name, o) ==> NothingElse(s, r, c)
    ensures !OffersOther(s, c, name, o) ==> forall x :: OffersName(r, c, name, x) <==> x == o
    ensures OtherOffersStay(s, r, c, name) && r.calls == s.calls
  {
    hide Inv, Possible, Allowed, Step, SvrAdvertise, ToLong, CutName, NothingElse, OffersOther, OtherOffersStay, OffersName, Wrote;
    RequestRuns(fx, s, e, r, c, Advertise, b);
    assert Indexed(s) && AdvertsLive(s) && Serials(s) by { InvTables(s); }
    Clashes(s, c, name, o);
    if OffersOther(s, c, name, o) {
      ClashIsRefused(s, c, name, o, r);
      OnlyOne(s, r, Status(c, TPEMATCH), Status(c, 0));
      SameOffersStay(s, r, c, name);
    } else {
      OfferIsTaken(s, c, name, o, r);
      OnlyOne(s, r, Status(c, 0), Status(c, TPEMATCH));
    }
  }

  lemma InvTables(s: Board)
    requires Inv(s)
    ensures Indexed(s) && AdvertsLive(s) && Serials(s)
  {
    hide InvX;
    InvIndexed(s, TIGHT);
  }

  lemma Clashes(s: Board, c: Id, name: Name, o: int)
    requires Indexed(s) && AdvertsLive(s)
    ensures OffersOther(s, c, name, o) <==>
      name in s.index && Advertises(s, c, s.index[name]) && s.clients[c].adverts[s.index[name]] != o
  {
    hide OffersName, Indexed;
    forall x ensures OffersName(s, c, name, x) <==> name in s.index && Offers(s, c, s.index[name], x) { OffersIndexed(s, c, name, x); }
    if name in s.index && Advertises(s, c, s.index[name]) {
      assert OffersName(s, c, name, s.clients[c].adverts[s.index[name]]);
    }
  }

  lemma ClashIsRefused(s: Board, c: Id, name: Name, o: int, r: Board)
    requires c in s.clients && name in s.index && Advertises(s, c, s.index[name]) && s.clients[c].adverts[s.index[name]] != o
    requires SvrAdvertise(Unarm(s, c), c, name, o) == Ok(r)
    ensures Wrote(s, r, Status(c, TPEMATCH)) && NothingElse(s, r, c)
  {
    hide NextCommand;
    Armed(s, c, Status(c, TPEMATCH), r);
  }

  lemma SameOffersStay(s: Board, r: Board, c: Id, name: Name)
    requires NothingElse(s, r, c)
    ensures OtherOffersStay(s, r, c, name) && r.calls == s.calls
  {
    forall d, n, x ensures OffersName(r, d, n, x) <==> OffersName(s, d, n, x) {
      if v :| v in s.services && s.services[v].name == n && Offers(s, d, v, x) { assert v in r.services && Offers(r, d, v, x); }
    }
  }

  lemma OfferIsTaken(s: Board, c: Id, name: Name, o: int, r: Board)
    requires c in s.clients && Indexed(s) && AdvertsLive(s) && Serials(s) && SvrAdvertise(Unarm(s, c), c, name, o) == Ok(r)
    requires !(name in s.index && Advertises(s, c, s.index[name]) && s.clients[c].adverts[s.index[name]] != o)
    ensures Wrote(s, r, Status(c, 0)) && OtherOffersStay(s, r, c, name) && r.calls == s.calls
    ensures forall x :: OffersName(r, c, name, x) <==> x == o
  {
    hide OffersName, Wrote, SvrAdvertise, TookOffer, Indexed, AdvertsLive, Serials;
    TakesOffer(s, c, name, o, r);
    OfferIndexed(s, r, c, name, o);
    forall d, n, x ensures OffersName(r, d, n, x) <==> if d == c && n == name then x == o else OffersName(s, d, n, x) {
      OffersIndexed(r, d, n, x);
      OffersIndexed(s, d, n, x);
      OfferAt(s, r, c, name, o, d, n, x);
    }
  }

  /** The tables after a new advertisement. */
  predicate TookOffer(s: Board, r: Board, c: Id, name: Name, o: int) {
    var v := if name in s.index then s.index[name] else s.next;
    && c in s.clients && r.index == s.index[name := v]
    && r.services == (if name in s.index then s.services else s.services[v := Service(name, [], false)])
    && r.clients == s.clients[c := s.clients[c].(conn := NEXT, adverts := s.clients[c].adverts[v := o])]
  }

  lemma NextIsNew(s: Board)
    requires Serials(s) && AdvertsLive(s)
    ensures s.next !in s.services && forall d :: d in s.clients ==> s.next !in s.clients[d].adverts
  {
    assert s.next !in s.services;
  }

  lemma TakesOffer(s: Board, c: Id, name: Name, o: int, r: Board)
    requires c in s.clients && AdvertsLive(s) && Serials(s) && SvrAdvertise(Unarm(s, c), c, name, o) == Ok(r)
    requires !(name in s.index && Advertises(s, c, s.index[name]) && s.clients[c].adverts[s.index[name]] != o)
    ensures Wrote(s, r, Status(c, 0)) && r.calls == s.calls && TookOffer(s, r, c, name, o)
  {
    NextIsNew(s);
    hide AdvertsLive, Serials;
  }

  lemma OfferIndexed(s: Board, r: Board, c: Id, name: Name, o: int)
    requires Indexed(s) && AdvertsLive(s) && Serials(s) && TookOffer(s, r, c, name, o)
    ensures Indexed(r) && AdvertsLive(r)
  {
    NextIsNew(s);
    hide Serials;
  }

  lemma OfferAt(s: Board, r: Board, c: Id, name: Name, o: int, d: Id, n: Name, x: int)
    requires Indexed(s) && AdvertsLive(s) && Serials(s) && TookOffer(s, r, c, name, o)
    ensures n in r.index && Offers(r, d, r.index[n], x) <==>
      if d == c && n == name then x == o else n in s.index && Offers(s, d, s.index[n], x)
  {
    NextIsNew(s);
    hide Serials;
  }

  // ---------- withdrawals ----------

  lemma DelCallOffers(s: Board, t: Id)
    requires t in s.calls
    ensures SameAdverts(s, DelCall(s, t)) && DelCall(s, t).services.Keys == s.services.Keys && DelCall(s, t).index == s.index
    ensures forall v :: v in s.services ==> DelCall(s, t).services[v].name == s.services[v].name
  {
    hide Without;
  }

  ghost predicate SameAdverts(s: Board, r: Board) {
    r.clients.Keys == s.clients.Keys && forall d :: d in s.clients ==> r.clients[d].adverts == s.clients[d].adverts
  }

  lemma {:induction false} DrainOffers(s: Board, v: Id)
    requires Drain(s, v).Ok?
    ensures var r := Drain(s, v).board; SameAdverts(s, r) && r.services.Keys == s.services.Keys && r.index == s.index && v in s.services
    ensures forall u :: u in s.services ==> Drain(s, v).board.services[u].name == s.services[u].name
    decreases if v in s.services then |s.services[v].waitq| else 0
  {
    hide DelCall, Without;
    if s.services[v].waitq != [] {
      var t := s.services[v].waitq[0].call;
      DelCallOffers(s, t);
      QueueShrinks(s, t, v);
      DrainOffers(DelCall(s, t), v);
    }
  }

  /** The advertisement of `v` by `c` is gone, and perhaps the service, but nothing else. */
  ghost predicate Withdrew(s: Board, r: Board, c: Id, v: Id) {
    && c in s.clients && r.clients.Keys == s.clients.Keys
    && (forall d :: d in s.clients ==> r.clients[d].adverts == if d == c then s.clients[d].adverts - {v} else s.clients[d].adverts)
    && (forall u :: u in s.services && u != v ==> u in r.services && r.services[u].name == s.services[u].name)
    && (forall u :: u in r.services ==> u in s.services && r.services[u].name == s.services[u].name)
    && (v !in r.services ==> !SomeoneAdvertises(r, v))
  }

  lemma DropWithdraws(s: Board, c: Id, v: Id)
    requires c in s.clients && v in s.services
    ensures Withdrew(s, DropAdvert(s, c, v), c, v)
  {
    hide Without;
  }

  lemma DelAdvertWithdraws(s: Board, c: Id, v: Id)
    requires DelAdvert(s, c, v).Ok? && v in s.services
    ensures Withdrew(s, DelAdvert(s, c, v).board, c, v)
  {
    hide Drain, DropAdvert;
    var s1 := DropAdvert(s, c, v);
    DropWithdraws(s, c, v);
    if !SomeoneAdvertises(s1, v) {
      DrainOffers(s1, v);
      DelServiceWithdraws(s, s1, DelAdvert(s, c, v).board, c, v);
    }
  }

  lemma DelServiceWithdraws(s: Board, m: Board, r: Board, c: Id, v: Id)
    requires Withdrew(s, m, c, v) && SameAdverts(m, r) && !SomeoneAdvertises(m, v)
    requires r.services.Keys == m.services.Keys - {v} && forall u :: u in r.services ==> r.services[u].name == m.services[u].name
    ensures Withdrew(s, r, c, v)
  {
    hide SomeoneAdvertises;
    assert SomeoneAdvertises(r, v) == SomeoneAdvertises(m, v) by { SameAdvertisers(m, r, v); }
  }

  /**
   A withdrawal is answered with 0 exactly when the client advertised a service of that name, and then it no
   longer does; otherwise it is answered with TPENOENT, and nothing else changes.
   */
  lemma UnadvertiseAnswers(fx: Fixes, s: Board, e: Event, r: Board, c: Id, b: seq<byte>, name: Name)
    requires HandlesRequest(fx, s, e, r, c, Unadvertise, b) && |b| == CommandLength(Unadvertise) && name == CutName(b)
    ensures Wrote(s, r, Status(c, 0)) <==> Advertised(s, c, name)
    ensures Wrote(s, r, Status(c, TPENOENT)) <==> !Advertised(s, c, name)
    ensures !Advertised(s, c, name) ==> NothingElse(s, r, c)
    ensures !Advertised(r, c, name) && OtherOffersStay(s, r, c, name)
  {
    hide Inv, Possible, Allowed, Step, SvrUnadvertise, CutName, NothingElse, OtherOffersStay, OffersName, Wrote, Indexed, AdvertsLive, Serials;
    RequestRuns(fx, s, e, r, c, Unadvertise, b);
    assert Indexed(s) && AdvertsLive(s) by { InvTables(s); }
    OffersIndexed(s, c, name, 0);
    if Advertised(s, c, name) {
      assert s.index[name] in s.services by { InvIndex(s, name); }
      WithdrawalIsDone(s, c, name, r);
      OnlyOne(s, r, Status(c, 0), Status(c, TPENOENT));
      WithdrawnOffers(s, r, c, name);
    } else {
      NothingToWithdraw(s, c, name, r);
      OnlyOne(s, r, Status(c, TPENOENT), Status(c, 0));
      SameOffersStay(s, r, c, name);
      NoOfferYet(s, r, c, name);
    }
  }

  lemma InvIndex(s: Board, name: Name)
    requires Indexed(s) && name in s.index
    ensures s.index[name] in s.services
  {
  }

  lemma NothingToWithdraw(s: Board, c: Id, name: Name, r: Board)
    requires c in s.clients && !(name in s.index && Advertises(s, c, s.index[name])) && SvrUnadvertise(Unarm(s, c), c, name) == Ok(r)
    ensures Wrote(s, r, Status(c, TPENOENT)) && NothingElse(s, r, c)
  {
    hide NextCommand, DelAdvert;
    Armed(s, c, Status(c, TPENOENT), r);
  }

  lemma NoOfferYet(s: Board, r: Board, c: Id, name: Name)
    requires NothingElse(s, r, c) && !Advertised(s, c, name)
    ensures !Advertised(r, c, name)
  {
    if o :| OffersName(r, c, name, o) {
      assert OffersName(s, c, name, o);
    }
  }

  lemma WithdrawalIsDone(s: Board, c: Id, name: Name, r: Board)
    requires c in s.clients && name in s.index && Advertises(s, c, s.index[name]) && SvrUnadvertise(Unarm(s, c), c, name) == Ok(r)
    requires s.index[name] in s.services
    ensures Wrote(s, r, Status(c, 0)) && Withdrew(s, r, c, s.index[name])
  {
    hide DelAdvert, Withdrew;
    var s0, v := Unarm(s, c), s.index[name];
    DelAdvertWithdraws(s0, c, v);
    LogStays(s0, c, v);
    SameWithdrawal(s, s0, DelAdvert(s0, c, v).board, r, c, v);
  }

  lemma SameWithdrawal(s: Board, s0: Board, m: Board, r: Board, c: Id, v: Id)
    requires SameAdverts(s, s0) && s0.services == s.services && Withdrew(s0, m, c, v) && SameAdverts(m, r) && r.services == m.services
    ensures Withdrew(s, r, c, v)
  {
    hide SomeoneAdvertises;
    assert SomeoneAdvertises(r, v) == SomeoneAdvertises(m, v) by { SameAdvertisers(m, r, v); }
  }

  lemma SameAdvertisers(m: Board, r: Board, v: Id)
    requires SameAdverts(m, r)
    ensures SomeoneAdvertises(r, v) == SomeoneAdvertises(m, v)
  {
  }

  lemma LogStays(s: Board, c: Id, v: Id)
    requires DelAdvert(s, c, v).Ok?
    ensures DelAdvert(s, c, v).board.log == s.log
  {
    hide DelAdvert;
    StillDelAdvert(s, c, v);
  }

  lemma WithdrawnOffers(s: Board, r: Board, c: Id, name: Name)
    requires Indexed(s) && AdvertsLive(s) && name in s.index && Withdrew(s, r, c, s.index[name])
    ensures !Advertised(r, c, name) && OtherOffersStay(s, r, c, name)
  {
    var v := s.index[name];
    forall o ensures !OffersName(r, c, name, o) { }
    forall d, n, x | d != c || n != name ensures OffersName(r, d, n, x) <==> OffersName(s, d, n, x) {
      WithdrawnOffer(s, r, c, v, d, n, x);
    }
  }

  lemma WithdrawnOffer(s: Board, r: Board, c: Id, v: Id, d: Id, n: Name, x: int)
    requires Withdrew(s, r, c, v) && v in s.services && (d != c || n != s.services[v].name)
    ensures OffersName(r, d, n, x) <==> OffersName(s, d, n, x)
  {
    if OffersName(s, d, n, x) {
      var u :| u in s.services && s.services[u].name == n && Offers(s, d, u, x);
      assert Offers(r, d, u, x);
      assert u in r.services by { if u == v { assert Advertises(r, d, v); } }
    }
    if OffersName(r, d, n, x) {
      var u :| u in r.services && r.services[u].name == n && Offers(r, d, u, x);
      assert Offers(s, d, u, x);
    }
  }

  // ---------- calls ----------

  /** Somebody advertises the name. */
  ghost predicate Known(s: Board, name: Name) {
    exists d :: Advertised(s, d, name)
  }

  lemma KnownIsIndexed(s: Board, name: Name)
    requires Inv(s)
    ensures Known(s, name) <==> name in s.index
  {
    hide Inv, OffersName, Indexed, AdvertsLive;
    assert Indexed(s) && AdvertsLive(s) by { InvTables(s); }
    if d :| Advertised(s, d, name) { OffersIndexed(s, d, name, 0); }
    if name in s.index {
      var d := SomeAdvertiser(s, name);
      OffersIndexed(s, d, name, 0);
    }
  }

  lemma SomeAdvertiser(s: Board, name: Name) returns (d: Id)
    requires Inv(s) && name in s.index
    ensures Advertises(s, d, s.index[name])
  {
    hide Lists, Queues, Workers, Waiters, Buffers, Phases, Cds;
    var v := s.index[name];
    assert v in s.services && v !in TIGHT.bare;
    d :| Advertises(s, d, v);
  }

  /** The call that `c` made is there as it was asked for: new, under a fresh descriptor, and at the time of the event. */
  predicate Made(s: Board, r: Board, c: Id, name: Name, len: int, flags: int, now: int) {
    && s.next in r.calls && var k := r.calls[s.next];
    && k.client == c && k.flags == flags && |k.data| == len && k.arrival == now
    && k.svc in s.services && s.services[k.svc].name == name
    && k.cd != 0 && k.cd !in LiveCds(s.calls)
    && |r.log| > |s.log| && r.log[|s.log|] == AcceptEntry(k, s.next)
  }

  /**
   A call is refused, with TPENOENT, exactly when nobody advertises its name or its length is negative, and
   then nothing else changes; otherwise it is made and acknowledged.
   */
  lemma CallAnswers(fx: Fixes, s: Board, e: Event, r: Board, c: Id, b: seq<byte>, name: Name, len: int, flags: int)
    requires HandlesRequest(fx, s, e, r, c, Acall, b) && |b| == CommandLength(Acall)
    requires name == CutName(b) && len == ToLong(b, NAME_LENGTH) && flags == ToLong(b, NAME_LENGTH + IOLONG)
    ensures Wrote(s, r, Refused(c, TPENOENT)) <==> !Known(s, name) || len < 0
    ensures !Known(s, name) || len < 0 ==> NothingElse(s, r, c)
    ensures Known(s, name) && len >= 0 ==> e.Read? && Made(s, r, c, name, len, flags, e.env.now)
  {
    hide Inv, Possible, Allowed, Step, SvrAcall, CutName, ToLong, Known, NothingElse, Made;
    RequestRuns(fx, s, e, r, c, Acall, b);
    KnownIsIndexed(s, name);
    if name !in s.index || len < 0 {
      CallIsRefused(fx, s, c, name, len, flags, e.env, r);
    } else {
      assert Indexed(s) by { InvTables(s); }
      assert PoolFresh(s.pool, LiveCds(s.calls)) by { PoolIsFresh(s); }
      assert GoodBatches(e.env.batches) by { BatchesAreGood(s, e); }
      CallIsMade(fx, s, c, name, len, flags, e.env, r);
      MadeIsNotRefused(s, r, c, name, len, flags, e.env.now);
    }
  }

  lemma CallIsRefused(fx: Fixes, s: Board, c: Id, name: Name, len: int, flags: int, env: Env, r: Board)
    requires c in s.clients && (name !in s.index || len < 0) && SvrAcall(fx, Unarm(s, c), c, name, len, flags, env) == Ok(r)
    ensures Wrote(s, r, Refused(c, TPENOENT)) && NothingElse(s, r, c)
  {
    hide NextCommand, NewCall, SendToWorker;
    Armed(s, c, Refused(c, TPENOENT), r);
  }

  lemma PoolIsFresh(s: Board)
    requires Inv(s)
    ensures PoolFresh(s.pool, LiveCds(s.calls))
  {
    hide InvX;
    InvPool(s, TIGHT);
  }

  lemma BatchesAreGood(s: Board, e: Event)
    requires e.Read? && Possible(s, e)
    ensures GoodBatches(e.env.batches)
  {
    hide Walks, GoodBatches;
  }

  lemma FreshTaken(p: Pool, live: set<Short>, batches: seq<seq<Short>>)
    requires PoolFresh(p, live) && GoodBatches(batches)
    ensures Take(p, live, batches).Some? ==> var cd := Take(p, live, batches).value.cd; cd != 0 && cd !in live
  {
    hide Take, DrawsWell;
    TakeFresh(p, live, batches);
  }

  lemma CallIsMade(fx: Fixes, s: Board, c: Id, name: Name, len: nat, flags: int, env: Env, r: Board)
    requires c in s.clients && Indexed(s) && name in s.index && PoolFresh(s.pool, LiveCds(s.calls)) && GoodBatches(env.batches)
    requires SvrAcall(fx, Unarm(s, c), c, name, len, flags, env) == Ok(r)
    ensures Made(s, r, c, name, len, flags, env.now)
  {
    hide Take, LiveCds, SendToWorker, PoolFresh, Steady, GoodBatches;
    var s0 := Unarm(s, c);
    var s1 := NewCall(s0, c, s.index[name], len, flags, env).board;
    var k := s1.calls[s.next];
    var s2 := Say(s1, AcceptEntry(k, s.next));
    assert k.cd != 0 && k.cd !in LiveCds(s.calls) by { FreshTaken(s.pool, LiveCds(s.calls), env.batches); }
    assert Made(s, s2, c, name, len, flags, env.now);
    if len == 0 {
      var s3 := Say(s2, Submitted(c, s.next, []));
      SendToWorkerSteady(fx, s3, c);
      SendToWorkerAdds(fx, s3, c);
      StillMade(s, s2, s3, r, c, name, len, flags, env.now);
    }
  }

  lemma StillMade(s: Board, m: Board, m': Board, r: Board, c: Id, name: Name, len: int, flags: int, now: int)
    requires Made(s, m, c, name, len, flags, now) && m'.calls == m.calls && m.log <= m'.log
    requires Steady(m', r, {}) && m'.calls.Keys <= r.calls.Keys
    ensures Made(s, r, c, name, len, flags, now)
  {
    hide LiveCds;
    assert r.log[|s.log|] == m'.log[|s.log|] == m.log[|s.log|];
  }

  lemma MadeIsNotRefused(s: Board, r: Board, c: Id, name: Name, len: int, flags: int, now: int)
    requires Made(s, r, c, name, len, flags, now)
    ensures !Wrote(s, r, Refused(c, TPENOENT))
  {
  }
}
