/** What one event does: to the connection it comes from, to the others, and to the log. */
module Turning {
  import opened Sequences
  import opened Wire
  import opened Descriptors
  import opened Board
  import opened Invariant
  import opened Answer
  import opened Framing
  import opened Steadiness

  // ---------- from one state to the next ----------

  /** The calls that `c` may write to: those it executes, and the one it receives. */
  ghost function Own(s: Board, c: Id): set<Id> {
    set t | t in s.calls && (s.calls[t].executor == Some(c)
                             || (c in s.clients && s.clients[c].conn.Receiving? && s.clients[c].conn.input == DataOf(t)))
  }

  ghost predicate OthersOnward(s: Board, r: Board, c: Id) {
    forall d :: d in r.clients && d != c ==>
      if d in s.clients then SameInput(s.clients[d].conn, r.clients[d].conn) && FewerOffers(s.clients[d], r.clients[d])
      else d >= s.next && r.clients[d].conn == NEXT && r.clients[d].adverts == map[]
  }

  ghost predicate CallsOnward(s: Board, r: Board, x: set<Id>) {
    forall t :: t in r.calls ==>
      || (t >= s.next && r.calls[t].svc < s.next)
      || (t in s.calls && SameHead(s.calls[t], r.calls[t]) && (t in x || SameData(s.calls[t], r.calls[t])))
  }

  ghost predicate NamesOnward(s: Board, r: Board) {
    forall v :: v in r.services ==> v >= s.next || (v in s.services && r.services[v].name == s.services[v].name)
  }

  /** Connections other than `c`'s, calls other than those in `x`, and names stay, are deleted, or are new. */
  ghost predicate Onward(s: Board, r: Board, c: Id, x: set<Id>) {
    && s.next <= r.next && |s.log| <= |r.log| && (forall i :: 0 <= i < |s.log| ==> r.log[i] == s.log[i])
    && OthersOnward(s, r, c) && CallsOnward(s, r, x) && NamesOnward(s, r)
  }

  lemma SteadyIsOnward(s: Board, r: Board, c: Id, x: set<Id>)
    requires Steady(s, r, x)
    ensures Onward(s, r, c, x)
  {
  }

  lemma OnwardThen(s: Board, m: Board, r: Board, c: Id, x: set<Id>)
    requires Onward(s, m, c, x) && Steady(m, r, {})
    ensures Onward(s, r, c, x)
  {
    assert OthersOnward(s, r, c);
    assert CallsOnward(s, r, x);
    assert NamesOnward(s, r);
  }

  // ---------- a full buffer ----------

  /** The header `b` of a call announces `t`. */
  predicate CallHeader(s: Board, t: Id, b: seq<byte>) {
    && |b| == CommandLength(Acall)
    && (t in s.calls ==>
          && ToLong(b, NAME_LENGTH) == |s.calls[t].data| && ToLong(b, NAME_LENGTH + IOLONG) == s.calls[t].flags
          && (s.calls[t].svc in s.services ==> s.services[s.calls[t].svc].name == CutName(b)))
  }

  /** The header `b` of a return announces the reply to `t`. */
  predicate ReturnHeader(s: Board, t: Id, b: seq<byte>) {
    && |b| == CommandLength(Return)
    && (t in s.calls ==>
          b[0] == s.calls[t].rval && ToLong(b, 1) == s.calls[t].rcode && ToLong(b, 1 + IOLONG) == |s.calls[t].data|)
  }

  /** What the connection of `c` waits for once the frame `f` has been handled. */
  predicate ConnAfter(s: Board, r: Board, c: Id, f: Framed)
    requires c in r.clients
  {
    var conn := r.clients[c].conn;
    conn.Receiving? && conn != NEXT ==>
      conn.used == 0 && match f.handler
        case Command => f.payload != [] && CommandHandler(f.payload[0]) == Some(conn.handler) && conn.input.Scratch?
        case Acall => conn.handler == CallBody && conn.input == DataOf(s.next) && s.next in r.calls && CallHeader(r, s.next, f.payload)
        case Return =>
          conn.handler == ReturnBody && conn.input.DataOf? && conn.input.call in r.calls && ReturnHeader(r, conn.input.call, f.payload)
        case _ => false
  }

  /** What a frame from `c` may add to the log. */
  predicate EntryFrom(s: Board, c: Id, f: Framed, e: Entry)
    requires c in s.clients
  {
    var b := f.payload;
    match e
    case Accepted(to, t, _, v, flags) =>
      && f.handler.Acall? && |b| == CommandLength(Acall) && to == c && t == s.next
      && CutName(b) in s.index && v == s.index[CutName(b)] && flags == ToLong(b, NAME_LENGTH + IOLONG)
    case Submitted(from, t, data) =>
      && from == c
      && (if f.handler.CallBody? then s.clients[c].conn.Receiving? && s.clients[c].conn.input == DataOf(t) && data == b
          else f.handler.Acall? && |b| == CommandLength(Acall) && ToLong(b, NAME_LENGTH) == 0 && t == s.next && data == [])
    case Returned(w, t, rval, rcode, data) =>
      && w == c && t in s.calls
      && (if f.handler.ReturnBody? then
            && s.clients[c].conn.Receiving? && s.clients[c].conn.input == DataOf(t) && data == b
            && rval == s.calls[t].rval && rcode == s.calls[t].rcode
          else
            && f.handler.Return? && |b| == CommandLength(Return) && ToLong(b, 1 + IOLONG) == 0 && data == []
            && rval == b[0] && rcode == ToLong(b, 1))
    case Abandoned(w, t) => w == c && t in s.calls && s.calls[t].executor == Some(c)
    case Handed(to, _, v, o, name, _, _, _) => v in s.services && s.services[v].name == name && Offers(s, to, v, o)
    case _ => true
  }

  /** What `c` advertises once the frame `f` has been handled: nothing new but what `f` says. */
  ghost predicate OffersAfter(s: Board, r: Board, c: Id, f: Framed)
    requires c in s.clients && c in r.clients
  {
    forall v :: v in r.clients[c].adverts ==> Offers(s, c, v, r.clients[c].adverts[v]) || OfferedBy(r, c, v, f)
  }

  /** The frame is an advertisement of `v` with the value that `c` advertises. */
  predicate OfferedBy(r: Board, c: Id, v: Id, f: Framed) {
    && c in r.clients && v in r.clients[c].adverts && v in r.services
    && f.handler.Advertise? && |f.payload| == CommandLength(Advertise)
    && r.services[v].name == CutName(f.payload) && r.clients[c].adverts[v] == ToLong(f.payload, NAME_LENGTH)
  }

  ghost predicate EntriesFrom(s: Board, r: Board, c: Id, f: Framed)
    requires c in s.clients
  {
    forall i :: |s.log| <= i < |r.log| ==> EntryFrom(s, c, f, r.log[i])
  }

  ghost predicate AbandonsNothing(s: Board, r: Board) {
    forall i :: |s.log| <= i < |r.log| ==> !r.log[i].Abandoned?
  }

  /** `s` becomes `r` when the frame `f` from `c` is handled. */
  ghost predicate Turns(s: Board, r: Board, c: Id, f: Framed)
    requires c in s.clients
  {
    && Onward(s, r, c, Own(s, c)) && (c in r.clients ==> ConnAfter(s, r, c, f)) && EntriesFrom(s, r, c, f)
    && (c in r.clients ==> AbandonsNothing(s, r) && OffersAfter(s, r, c, f))
  }

  lemma PassingIsFrom(s: Board, c: Id, f: Framed, e: Entry)
    requires c in s.clients && Passing(s, e)
    ensures EntryFrom(s, c, f, e)
  {
  }

  lemma SteadyEntries(s: Board, r: Board, c: Id, f: Framed, x: set<Id>)
    requires c in s.clients && Steady(s, r, x)
    ensures EntriesFrom(s, r, c, f)
  {
    hide EntryFrom;
    forall i | |s.log| <= i < |r.log| ensures EntryFrom(s, c, f, r.log[i]) { PassingIsFrom(s, c, f, r.log[i]); }
  }

  lemma SteadyTurns(s: Board, r: Board, c: Id, f: Framed)
    requires c in s.clients && !s.clients[c].conn.Receiving? && Steady(s, r, Own(s, c))
    ensures Turns(s, r, c, f)
  {
    hide Own, EntryFrom;
    SteadyIsOnward(s, r, c, Own(s, c));
    SteadyEntries(s, r, c, f, Own(s, c));
  }

  /** A departure leaves a note of the call that is abandoned. */
  lemma DepartureTurns(s: Board, r: Board, c: Id, f: Framed)
    requires c in s.clients && c !in r.clients && Steady(Noted(s, c), r, Own(s, c))
    ensures Turns(s, r, c, f)
  {
    hide Own, EntryFrom;
    var m := Noted(s, c);
    NotedOnward(s, r, c, Own(s, c));
    forall i | |s.log| <= i < |r.log| ensures EntryFrom(s, c, f, r.log[i]) {
      if i < |m.log| {
        assert r.log[i] == m.log[i];
        NotedEntry(s, c, f);
      } else {
        assert Passing(m, r.log[i]);
        ServicesDecide(s, m, c, f, r.log[i]);
      }
    }
  }

  lemma NotedOnward(s: Board, r: Board, c: Id, x: set<Id>)
    requires Steady(Noted(s, c), r, x)
    ensures Onward(s, r, c, x)
  {
    assert OthersOnward(s, r, c);
    assert CallsOnward(s, r, x);
    assert NamesOnward(s, r);
  }

  lemma NotedEntry(s: Board, c: Id, f: Framed)
    requires c in s.clients
    ensures |Noted(s, c).log| <= |s.log| + 1
    ensures forall i :: |s.log| <= i < |Noted(s, c).log| ==> EntryFrom(s, c, f, Noted(s, c).log[i])
  {
  }

  lemma SteadyAfterTurns(s: Board, o: Outcome, c: Id, f: Framed)
    requires c in s.clients && !s.clients[c].conn.Receiving? && SteadyAfter(s, o, {}) && o.Ok?
    ensures Turns(s, o.board, c, f)
  {
    hide Steady, Turns;
    SteadyWeaken(s, o.board, {}, Own(s, c));
    SteadyTurns(s, o.board, c, f);
  }

  /** The frame is handled in a first step `m`, and the rest adds nothing of its own. */
  lemma TurnsThen(s: Board, m: Board, r: Board, c: Id, f: Framed)
    requires c in s.clients && Turns(s, m, c, f) && c in m.clients && !m.clients[c].conn.Receiving?
    requires m.services == s.services && SameOffers(s, m) && Steady(m, r, {})
    ensures Turns(s, r, c, f)
  {
    hide Own, EntryFrom, CallHeader, ReturnHeader;
    OnwardThen(s, m, r, c, Own(s, c));
    forall i | |s.log| <= i < |r.log| ensures EntryFrom(s, c, f, r.log[i]) {
      if i < |m.log| {
        assert r.log[i] == m.log[i];
      } else {
        assert Passing(m, r.log[i]);
        ServicesDecide(s, m, c, f, r.log[i]);
      }
    }
  }

  ghost predicate SameOffers(s: Board, m: Board) {
    m.clients.Keys == s.clients.Keys && forall d :: d in s.clients ==> m.clients[d].adverts == s.clients[d].adverts
  }

  lemma ServicesDecide(s: Board, m: Board, c: Id, f: Framed, e: Entry)
    requires c in s.clients && m.services == s.services && SameOffers(s, m) && Passing(m, e)
    ensures EntryFrom(s, c, f, e)
  {
  }

  // ---------- the handlers ----------

  lemma CommandTurns(fx: Fixes, s: Board, c: Id, b: seq<byte>, env: Env)
    requires c in s.clients && !s.clients[c].conn.Receiving? && |b| == 1 && RunCommand(fx, s, c, b[0], env).Ok?
    ensures Turns(s, RunCommand(fx, s, c, b[0], env).board, c, Framed(Command, b))
  {
    hide Steady, SvrService, DelClient, Own;
    if b[0] == TPTWORK {
      SvrServiceSteady(fx, s, c, env);
      SteadyAfterTurns(s, SvrService(fx, s, c, env), c, Framed(Command, b));
    } else {
      match CommandHandler(b[0])
      case Some(h) =>
        var r := RunCommand(fx, s, c, b[0], env).board;
        assert r == PutClient(s, c, r.clients[c]);
        assert CallsOnward(s, r, Own(s, c));
      case None =>
        OwnsExecuted(s, c);
        DelClientSteady(fx, s, c, env.order, Own(s, c));
        GoesAway(fx, s, c, env.order);
        DepartureTurns(s, DelClient(fx, s, c, env.order).board, c, Framed(Command, b));
    }
  }

  lemma GoesAway(fx: Fixes, s: Board, c: Id, order: seq<Id>)
    requires DelClient(fx, s, c, order).Ok?
    ensures c !in DelClient(fx, s, c, order).board.clients
  {
    hide AbandonWork, DelAdverts, DelRequests, DelReplies;
  }

  lemma OwnsExecuted(s: Board, c: Id)
    ensures forall t :: t in s.calls && s.calls[t].executor == Some(c) ==> t in Own(s, c)
  {
  }

  lemma SvrAcallTurns(fx: Fixes, s: Board, c: Id, b: seq<byte>, env: Env)
    requires c in s.clients && !s.clients[c].conn.Receiving? && |b| == CommandLength(Acall) && Indexed(s) && Serials(s)
    requires RunHandler(fx, s, c, Acall, b, env).Ok?
    ensures Turns(s, RunHandler(fx, s, c, Acall, b, env).board, c, Framed(Acall, b))
  {
    hide Steady, NextCommand, SendToWorker, Own, CutName, ToLong, Take, LiveCds, Turns;
    var name, len, flags := CutName(b), ToLong(b, NAME_LENGTH), ToLong(b, NAME_LENGTH + IOLONG);
    var f := Framed(Acall, b);
    if name !in s.index || len < 0 {
      AnswerSteady(s, c, Refused(c, TPENOENT));
      SteadyAfterTurns(s, NextCommand(Say(s, Refused(c, TPENOENT)), c), c, f);
    } else {
      var t := s.next;
      var s1 := NewCall(s, c, s.index[name], len, flags, env).board;
      var s2 := Say(s1, AcceptEntry(s1.calls[t], t));
      assert CallHeader(s2, t, b);
      AcceptTurns(s, s2, c, b, s.index[name], flags, env);
      if len > 0 {
        var r := Arm(s2, c, CallBody, DataOf(t)).board;
        assert r == PutClient(s2, c, r.clients[c]);
        ArmTurns(s, s2, c, f, Receiving(CallBody, DataOf(t), 0));
      } else {
        var s3 := Say(s2, Submitted(c, t, []));
        SubmitTurns(s, s2, c, b);
        SendToWorkerSteady(fx, s3, c);
        TurnsThen(s, s3, SendToWorker(fx, s3, c).board, c, f);
      }
    }
  }

  lemma AcceptTurns(s: Board, s2: Board, c: Id, b: seq<byte>, svc: Id, flags: int, env: Env)
    requires c in s.clients && !s.clients[c].conn.Receiving? && |b| == CommandLength(Acall)
    requires svc < s.next && CutName(b) in s.index && svc == s.index[CutName(b)] && flags == ToLong(b, NAME_LENGTH + IOLONG)
    requires ToLong(b, NAME_LENGTH) >= 0 && NewCall(s, c, svc, ToLong(b, NAME_LENGTH), flags, env).Ok?
    requires var s1 := NewCall(s, c, svc, ToLong(b, NAME_LENGTH), flags, env).board; s2 == Say(s1, AcceptEntry(s1.calls[s.next], s.next))
    ensures Turns(s, s2, c, Framed(Acall, b)) && c in s2.clients && s2.clients[c].conn == s.clients[c].conn && s2.services == s.services
    ensures |s2.log| == |s.log| + 1
  {
    hide CutName, ToLong, Take, LiveCds, Own;
    assert Onward(s, s2, c, Own(s, c));
    assert s2.log[|s.log|] == AcceptEntry(s2.calls[s.next], s.next);
  }

  /** The connection is armed for what the header announced. */
  lemma ArmTurns(s: Board, m: Board, c: Id, f: Framed, conn: Conn)
    requires c in s.clients && Turns(s, m, c, f) && c in m.clients
    requires var r := PutClient(m, c, m.clients[c].(conn := conn)); ConnAfter(s, r, c, f)
    ensures Turns(s, PutClient(m, c, m.clients[c].(conn := conn)), c, f)
  {
    hide Own, EntryFrom, ConnAfter;
    var r := PutClient(m, c, m.clients[c].(conn := conn));
    assert OthersOnward(s, r, c);
  }

  lemma SubmitTurns(s: Board, m: Board, c: Id, b: seq<byte>)
    requires c in s.clients && Turns(s, m, c, Framed(Acall, b)) && c in m.clients && |b| == CommandLength(Acall) && ToLong(b, NAME_LENGTH) == 0
    ensures Turns(s, Say(m, Submitted(c, s.next, [])), c, Framed(Acall, b))
  {
    hide Own, CutName, ToLong;
    var r := Say(m, Submitted(c, s.next, []));
    assert OthersOnward(s, r, c) && CallsOnward(s, r, Own(s, c)) && NamesOnward(s, r);
    forall i | |s.log| <= i < |r.log| ensures EntryFrom(s, c, Framed(Acall, b), r.log[i]) {
      if i < |m.log| { assert r.log[i] == m.log[i]; }
    }
  }

  lemma SvrAdvertiseTurns(fx: Fixes, s: Board, c: Id, b: seq<byte>, env: Env)
    requires c in s.clients && !s.clients[c].conn.Receiving? && |b| == CommandLength(Advertise) && Indexed(s)
    requires RunHandler(fx, s, c, Advertise, b, env).Ok?
    ensures Turns(s, RunHandler(fx, s, c, Advertise, b, env).board, c, Framed(Advertise, b))
  {
    hide CutName, ToLong, Own, Steady, Onward, NextCommand, OffersAfter;
    var s1 := NewService(s, CutName(b));
    NewServiceOnward(s, CutName(b), c, Own(s, c));
    var v, cl := s1.index[CutName(b)], s1.clients[c];
    var s2 := PutClient(s1, c, cl.(adverts := cl.adverts[v := ToLong(b, NAME_LENGTH)]));
    OfferOnward(s, s1, s2, c, Own(s, c));
    var clashes := v in cl.adverts && cl.adverts[v] != ToLong(b, NAME_LENGTH);
    var m, e := if clashes then s1 else s2, Status(c, if clashes then TPEMATCH else 0);
    AnswerSteady(m, c, e);
    AnswerConn(m, c, e);
    var r := NextCommand(Say(m, e), c).board;
    OnwardThen(s, m, r, c, Own(s, c));
    assert r.log[|s.log|] == e;
    AdvertiseOffers(fx, s, c, b, env);
  }

  /** Only the advertisements of `c` change. */
  lemma OfferOnward(s: Board, m: Board, r: Board, c: Id, x: set<Id>)
    requires Onward(s, m, c, x) && c in m.clients && c in r.clients && r == PutClient(m, c, r.clients[c])
    ensures Onward(s, r, c, x)
  {
    assert OthersOnward(s, r, c) && CallsOnward(s, r, x) && NamesOnward(s, r);
  }

  lemma AdvertiseOffers(fx: Fixes, s: Board, c: Id, b: seq<byte>, env: Env)
    requires c in s.clients && |b| == CommandLength(Advertise) && Indexed(s) && RunHandler(fx, s, c, Advertise, b, env).Ok?
    ensures c in RunHandler(fx, s, c, Advertise, b, env).board.clients
    ensures OffersAfter(s, RunHandler(fx, s, c, Advertise, b, env).board, c, Framed(Advertise, b))
  {
    hide CutName, ToLong, NextCommand;
    var s1 := NewService(s, CutName(b));
    var v, cl := s1.index[CutName(b)], s1.clients[c];
    assert v in s1.services && s1.services[v].name == CutName(b);
    hide Indexed, NewService;
    AnswerOffers(s1, c, Status(c, TPEMATCH));
    AnswerOffers(PutClient(s1, c, cl.(adverts := cl.adverts[v := ToLong(b, NAME_LENGTH)])), c, Status(c, 0));
  }

  lemma AnswerOffers(s: Board, c: Id, e: Entry)
    ensures NextCommand(Say(s, e), c).Ok? ==> var r := NextCommand(Say(s, e), c).board;
      c in s.clients && c in r.clients && r.clients[c].adverts == s.clients[c].adverts && r.services == s.services
  {
  }

  lemma NewServiceOnward(s: Board, name: Name, c: Id, x: set<Id>)
    ensures Onward(s, NewService(s, name), c, x)
    ensures NewService(s, name).clients == s.clients && NewService(s, name).log == s.log && name in NewService(s, name).index
  {
    var r := NewService(s, name);
    assert OthersOnward(s, r, c) && CallsOnward(s, r, x) && NamesOnward(s, r);
  }

  lemma AnswerConn(s: Board, c: Id, e: Entry)
    requires NextCommand(Say(s, e), c).Ok?
    ensures var r := NextCommand(Say(s, e), c).board; c in r.clients && r.clients[c].conn == NEXT && r.log == s.log + [e]
  {
  }

  lemma SvrReturnTurns(fx: Fixes, s: Board, c: Id, b: seq<byte>, env: Env)
    requires c in s.clients && !s.clients[c].conn.Receiving? && |b| == CommandLength(Return)
    requires forall t :: s.clients[c].wait4 == For(t) && t in s.calls ==> s.calls[t].executor == Some(c)
    requires RunHandler(fx, s, c, Return, b, env).Ok?
    ensures Turns(s, RunHandler(fx, s, c, Return, b, env).board, c, Framed(Return, b))
  {
    hide Steady, Part2, ToLong, Turns;
    var rval, rcode, len := b[0], ToLong(b, 1), ToLong(b, 1 + IOLONG);
    var t, f := s.clients[c].wait4.call, Framed(Return, b);
    var k := s.calls[t].(rval := rval, rcode := rcode, data := Resize(s.calls[t].data, len));
    var s1 := PutCall(s, t, k);
    assert t in Own(s, c);
    hide Own;
    PutOwnTurns(s, c, t, k, f);
    if len > 0 {
      ArmTurns(s, s1, c, f, Receiving(ReturnBody, DataOf(t), 0));
    } else {
      var e := Returned(c, t, rval, rcode, []);
      ReturnedTurns(s, s1, c, f, e);
      Part2Steady(Say(s1, e), c);
      TurnsThen(s, Say(s1, e), Part2(Say(s1, e), c).board, c, f);
    }
  }

  lemma PutOwnTurns(s: Board, c: Id, t: Id, k: Call, f: Framed)
    requires c in s.clients && !s.clients[c].conn.Receiving? && t in s.calls && t in Own(s, c) && SameHead(s.calls[t], k)
    ensures Turns(s, PutCall(s, t, k), c, f)
  {
    hide Own, EntryFrom;
    var r := PutCall(s, t, k);
    assert OthersOnward(s, r, c) && CallsOnward(s, r, Own(s, c)) && NamesOnward(s, r);
  }

  lemma ReturnedTurns(s: Board, m: Board, c: Id, f: Framed, e: Entry)
    requires c in s.clients && Turns(s, m, c, f) && c in m.clients && m.log == s.log && EntryFrom(s, c, f, e) && e.Returned?
    ensures Turns(s, Say(m, e), c, f)
  {
    hide Own, EntryFrom, CutName, ToLong;
    var r := Say(m, e);
    assert OthersOnward(s, r, c) && CallsOnward(s, r, Own(s, c)) && NamesOnward(s, r);
    assert OffersAfter(s, r, c, f);
  }

  lemma RunHandlerTurns(fx: Fixes, s: Board, c: Id, h: Handler, b: seq<byte>, env: Env)
    requires c in s.clients && !s.clients[c].conn.Receiving? && !h.CallBody? && !h.ReturnBody? && |b| == CommandLength(h)
    requires Indexed(s) && Serials(s) && forall t :: s.clients[c].wait4 == For(t) && t in s.calls ==> s.calls[t].executor == Some(c)
    requires RunHandler(fx, s, c, h, b, env).Ok?
    ensures Turns(s, RunHandler(fx, s, c, h, b, env).board, c, Framed(h, b))
  {
    hide Turns, Steady, RunCommand, SvrGetReply, SvrAdvertise, SvrUnadvertise, CutName, ToLong, ToShort, Indexed, Serials;
    match h
    case Command => CommandTurns(fx, s, c, b, env);
    case Acall => SvrAcallTurns(fx, s, c, b, env);
    case GetReply =>
      SvrGetReplySteady(s, c, AsShort(ToShort(b, 0)), ToLong(b, IOSHORT));
      SteadyAfterTurns(s, RunHandler(fx, s, c, h, b, env), c, Framed(h, b));
    case Advertise => SvrAdvertiseTurns(fx, s, c, b, env);
    case Unadvertise =>
      SvrUnadvertiseSteady(s, c, CutName(b));
      SteadyAfterTurns(s, RunHandler(fx, s, c, h, b, env), c, Framed(h, b));
    case Return => SvrReturnTurns(fx, s, c, b, env);
  }
}
